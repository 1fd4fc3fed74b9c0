/** Two coins: beta compresses tuples, a second coin compares what it made of them. */
module Confusion {
  // For how few betas two tuples, or two lists of tuples, are confused; and how few pairs of coins are left
  // when every other beta leaves few second coins.

  import opened NumberTheory
  import opened Field
  import opened Polynomial
  import opened Rows
  import opened Permutation

  // ------------------------------------------------------------ tuples modulo P

  function Residue(t: seq<int>): (r: seq<int>)
    ensures |r| == |t| && InField(r) && forall i :: 0 <= i < |t| ==> r[i] == t[i] % P
  {
    seq(|t|, i requires 0 <= i < |t| => t[i] % P)
  }

  function AllResidues(ts: seq<seq<int>>): (rs: seq<seq<int>>)
    ensures |rs| == |ts| && forall i :: 0 <= i < |ts| ==> rs[i] == Residue(ts[i])
  {
    seq(|ts|, i requires 0 <= i < |ts| => Residue(ts[i]))
  }

  lemma SameResidue(s: seq<int>, t: seq<int>)
    ensures SameModP(s, t) <==> Residue(s) == Residue(t)
  {
    if Residue(s) == Residue(t) {
      forall i | 0 <= i < |s| ensures s[i] % P == t[i] % P { assert Residue(s)[i] == Residue(t)[i]; }
    }
  }

  lemma SameCompress(s: seq<int>, t: seq<int>, beta: int)
    requires SameModP(s, t)
    ensures Compress(s, beta) == Compress(t, beta)
  {
    EvalCongruent(Reverse(s), Reverse(t), beta, beta);
  }

  function PrintsOf(ts: seq<seq<int>>, beta: int): (f: seq<int>)
    ensures |f| == |ts| && forall i :: 0 <= i < |ts| ==> f[i] == Compress(ts[i], beta)
  {
    seq(|ts|, i requires 0 <= i < |ts| => Compress(ts[i], beta))
  }

  /** Rows behind their table's id, as they are compressed. */
  function Behind(id: int, rows: seq<seq<int>>): (ts: seq<seq<int>>)
    ensures |ts| == |rows| && forall i :: 0 <= i < |rows| ==> ts[i] == [id] + rows[i]
  {
    seq(|rows|, i requires 0 <= i < |rows| => [id] + rows[i])
  }

  /** Some tuple of the list is not u and yet has its print. */
  ghost predicate Met(ts: seq<seq<int>>, u: seq<int>, beta: int) {
    exists i :: 0 <= i < |ts| && !SameModP(ts[i], u) && Compress(ts[i], beta) == Compress(u, beta)
  }

  // ---------------------------------------------------------------- counting betas

  /** The betas of the set at which two tuples share a print. */
  function Colliding(betas: set<int>, s: seq<int>, t: seq<int>): set<int> {
    set b | b in betas && Compress(s, b) == Compress(t, b)
  }

  /** The betas at which u meets one of the first n tuples that is not u. */
  ghost function Meeting(betas: set<int>, u: seq<int>, ts: seq<seq<int>>, n: nat): set<int>
    requires n <= |ts|
  {
    if n == 0 then {}
    else Meeting(betas, u, ts, n - 1) + if SameModP(ts[n - 1], u) then {} else Colliding(betas, ts[n - 1], u)
  }

  lemma {:induction false} MeetingIs(betas: set<int>, u: seq<int>, ts: seq<seq<int>>, n: nat, i: nat, b: int)
    requires i < n <= |ts| && b in betas && !SameModP(ts[i], u) && Compress(ts[i], b) == Compress(u, b)
    ensures b in Meeting(betas, u, ts, n)
  {
    hide Compress, SameModP;
    if i < n - 1 { MeetingIs(betas, u, ts, n - 1, i, b); }
  }

  lemma UnionSize<T>(a: set<T>, b: set<T>)
    ensures |a + b| <= |a| + |b|
  {
    assert a + b == a + (b - a) && |b - a| <= |b|;
    SubsetSize(b - a, b);
  }

  lemma {:induction false} MeetingBound(betas: set<int>, u: seq<int>, ts: seq<seq<int>>, n: nat)
    requires n <= |ts| && u != [] && forall b :: b in betas ==> 0 <= b < P
    requires forall i :: 0 <= i < n ==> |ts[i]| == |u|
    ensures |Meeting(betas, u, ts, n)| <= n * (|u| - 1)
  {
    hide Compress, SameModP;
    if n > 0 {
      MeetingBound(betas, u, ts, n - 1);
      var t := ts[n - 1];
      if !SameModP(t, u) {
        CollisionsAreFew(t, u, Colliding(betas, t, u));
        UnionSize(Meeting(betas, u, ts, n - 1), Colliding(betas, t, u));
      } else {
        assert Meeting(betas, u, ts, n) == Meeting(betas, u, ts, n - 1) + {};
      }
      OneMore(n, |u| - 1);
    }
  }

  lemma OneMore(n: int, k: int)
    ensures n * k == (n - 1) * k + k
  {}

  /** Of n tuples of one width, the others meet u at less than that width times n betas. */
  lemma MetRarely(betas: set<int>, u: seq<int>, ts: seq<seq<int>>)
    requires u != [] && forall i :: 0 <= i < |ts| ==> |ts[i]| == |u|
    requires forall b :: b in betas ==> 0 <= b < P && Met(ts, u, b)
    ensures |betas| <= |ts| * (|u| - 1)
  {
    hide Compress, SameModP;
    var met := Meeting(betas, u, ts, |ts|);
    forall b | b in betas ensures b in met {
      var i :| 0 <= i < |ts| && !SameModP(ts[i], u) && Compress(ts[i], b) == Compress(u, b);
      MeetingIs(betas, u, ts, |ts|, i, b);
    }
    MeetingBound(betas, u, ts, |ts|);
    SubsetSize(betas, met);
  }

  // ----------------------------------------------------------------- whole lists

  lemma LighterIsSame<T>(a: multiset<T>, b: multiset<T>)
    requires |a| == |b| && a <= b
    ensures a == b
  {
    var rest := b - a;
    assert b == a + rest;
    assert |rest| == 0;
  }

  /** Of two different multisets of one size, some element is heavier in the first. */
  lemma Heavier<T>(s: seq<T>, t: seq<T>) returns (u: T)
    requires |s| == |t| && multiset(s) != multiset(t)
    ensures multiset(s)[u] > multiset(t)[u] && u in s
  {
    if multiset(s) <= multiset(t) { LighterIsSame(multiset(s), multiset(t)); }
    u :| multiset(s)[u] > multiset(t)[u];
    assert u in multiset(s);
  }

  lemma {:induction false} PrintsCount(ts: seq<seq<int>>, beta: int, u: seq<int>)
    requires u == Residue(u)
    ensures multiset(PrintsOf(ts, beta))[Compress(u, beta)] >= multiset(AllResidues(ts))[u]
    ensures multiset(PrintsOf(ts, beta))[Compress(u, beta)] > multiset(AllResidues(ts))[u] ==> Met(ts, u, beta)
  {
    if ts != [] {
      var n := |ts| - 1;
      PrintsCount(ts[..n], beta, u);
      PrintsSnoc(ts, beta);
      SameResidue(ts[n], u);
      MetLater(ts, u, beta);
      if SameModP(ts[n], u) { SameCompress(ts[n], u, beta); }
      hide *;
      SnocCount(PrintsOf(ts[..n], beta), Compress(ts[n], beta), Compress(u, beta));
      SnocCount(AllResidues(ts[..n]), Residue(ts[n]), u);
    }
  }

  lemma SnocCount<T>(s: seq<T>, x: T, u: T)
    ensures multiset(s + [x])[u] == multiset(s)[u] + if x == u then 1 else 0
  {}

  lemma PrintsSnoc(ts: seq<seq<int>>, beta: int)
    requires ts != []
    ensures PrintsOf(ts, beta) == PrintsOf(ts[..|ts| - 1], beta) + [Compress(ts[|ts| - 1], beta)]
    ensures AllResidues(ts) == AllResidues(ts[..|ts| - 1]) + [Residue(ts[|ts| - 1])]
  {
    hide Compress, Residue;
  }

  lemma MetLater(ts: seq<seq<int>>, u: seq<int>, beta: int)
    requires ts != []
    ensures Met(ts[..|ts| - 1], u, beta) ==> Met(ts, u, beta)
    ensures !SameModP(ts[|ts| - 1], u) && Compress(ts[|ts| - 1], beta) == Compress(u, beta) ==> Met(ts, u, beta)
  {
    hide Compress, SameModP;
    var n := |ts| - 1;
    if Met(ts[..n], u, beta) {
      var i :| 0 <= i < n && !SameModP(ts[..n][i], u) && Compress(ts[..n][i], beta) == Compress(u, beta);
      assert !SameModP(ts[i], u) && Compress(ts[i], beta) == Compress(u, beta);
    }
  }

  /** Different lists of n tuples of width w have one multiset of prints for at most n (w - 1) betas. */
  lemma ListsConfusedRarely(a: seq<seq<int>>, b: seq<seq<int>>, w: nat, betas: set<int>)
    requires |a| == |b| && w > 0 && (forall i :: 0 <= i < |a| ==> |a[i]| == w) && forall i :: 0 <= i < |b| ==> |b[i]| == w
    requires multiset(AllResidues(a)) != multiset(AllResidues(b))
    requires forall z :: z in betas ==> 0 <= z < P && multiset(PrintsOf(a, z)) == multiset(PrintsOf(b, z))
    ensures |betas| <= |b| * (w - 1)
  {
    hide Compress, SameModP, Met;
    var u := Heavier(AllResidues(a), AllResidues(b));
    var k :| 0 <= k < |a| && AllResidues(a)[k] == u;
    forall i | 0 <= i < |u| ensures Residue(u)[i] == u[i] { ModMod(a[k][i], P); }
    assert Residue(u) == u;
    forall z | z in betas ensures 0 <= z < P && Met(b, u, z) {
      PrintsCount(a, z, u);
      PrintsCount(b, z, u);
    }
    MetRarely(betas, u, b);
  }

  // --------------------------------------------------------------- pairs of coins

  function Over(pairs: set<(int, int)>, b: int): set<int> {
    set p | p in pairs && p.0 == b :: p.1
  }

  /** A set of pairs over few first entries, few second entries over each. */
  lemma {:induction false} FibreBound(pairs: set<(int, int)>, betas: set<int>, k: nat)
    requires forall p :: p in pairs ==> p.0 in betas
    requires forall b :: b in betas ==> |Over(pairs, b)| <= k
    ensures |pairs| <= |betas| * k
    decreases |betas|
  {
    if b :| b in betas {
      var here := set p | p in pairs && p.0 == b;
      var rest := pairs - here;
      forall c | c in betas - {b} ensures |Over(rest, c)| <= k {
        assert Over(rest, c) == Over(pairs, c);
      }
      FibreBound(rest, betas - {b}, k);
      FibreSize(pairs, here, b);
      assert pairs == here + rest;
      UnionSize(here, rest);
      assert |betas| * k == (|betas| - 1) * k + k;
    } else {
      assert pairs == {};
    }
  }

  lemma FibreSize(pairs: set<(int, int)>, here: set<(int, int)>, b: int)
    requires here == set p | p in pairs && p.0 == b
    ensures |here| <= |Over(pairs, b)|
  {
    PairsOver(here, b);
    assert Over(here, b) == Over(pairs, b);
  }

  lemma {:induction false} PairsOver(here: set<(int, int)>, b: int)
    requires forall p :: p in here ==> p.0 == b
    ensures |here| == |Over(here, b)|
    decreases |here|
  {
    if here != {} {
      var p :| p in here;
      PairsOver(here - {p}, b);
      assert Over(here, b) == Over(here - {p}, b) + {p.1};
      forall q | q in here - {p} ensures q.1 != p.1 { assert q.0 == b == p.0; }
    }
  }

  /** At most `lost` betas leave every second coin, every other beta at most `few` of them. */
  lemma TwoCoins(pairs: set<(int, int)>, bad: set<int>, lost: nat, few: nat)
    requires forall p :: p in pairs ==> 0 <= p.0 < P && 0 <= p.1 < P
    requires |bad| <= lost && forall b :: 0 <= b < P && b !in bad ==> |Over(pairs, b)| <= few
    ensures |pairs| <= (lost + few) * P
  {
    var all := Permutation.Residues();
    var gone := set p | p in pairs && p.0 in bad;
    var kept := pairs - gone;
    assert pairs == gone + kept;
    UnionSize(gone, kept);
    forall b | b in bad ensures |Over(gone, b)| <= P {
      SubsetSize(Over(gone, b), all);
    }
    FibreBound(gone, bad, P);
    forall b | b in all ensures |Over(kept, b)| <= few {
      if b in bad {
        assert Over(kept, b) == {};
      } else {
        SubsetSize(Over(kept, b), Over(pairs, b));
      }
    }
    FibreBound(kept, all, few);
    PairTotal(|gone|, |kept|, |bad|, lost, few);
  }

  lemma PairTotal(gone: nat, kept: nat, bad: nat, lost: nat, few: nat)
    requires bad <= lost && gone <= bad * P && kept <= P * few
    ensures gone + kept <= (lost + few) * P
  {
    MulMonotone(bad, lost, P, P);
    TimesCommute(P, few);
    assert (lost + few) * P == lost * P + few * P;
  }
}
