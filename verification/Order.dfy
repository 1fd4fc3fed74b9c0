/** Stable order: strictly increasing keys force the sort. */
module Order {
  // A rearrangement whose keys strictly increase inside every lane is, lane by lane, the canonical sort,
  // so the prover has no freedom in the order.

  import opened NumberTheory
  import opened Field
  import opened Permutation
  import opened Sorting

  // ---------------------------------------------------------------- the lists

  /** source_records: token order, then coordinate. */
  function RowRecords(layer: int, kind: int, e: int, t: nat, row: seq<int>, m: nat): (rs: seq<Record>)
    requires m <= |row|
    ensures |rs| == m
    ensures forall j :: 0 <= j < m ==> rs[j] == Record(layer, kind, t, e, j, row[j] % P)
  {
    seq(m, j requires 0 <= j < m => Record(layer, kind, t, e, j, row[j] % P))
  }

  function SourceRecords(layer: int, kind: int, route: seq<int>, X: seq<seq<int>>, width: nat, n: nat): seq<Record>
    requires n <= |route| && n <= |X| && forall t :: 0 <= t < n ==> |X[t]| >= width
  {
    if n == 0 then []
    else SourceRecords(layer, kind, route, X, width, n - 1)
         + RowRecords(layer, kind, route[n - 1], n - 1, X[n - 1], width)
  }

  predicate Before(a: Record, b: Record) {
    || a.kind < b.kind
    || (a.kind == b.kind && (a.j < b.j
    || (a.j == b.j && (a.e < b.e
    || (a.e == b.e && a.t < b.t)))))
  }

  /** stable_sorted_records: by (kind, j, e, t). */
  function Sorted(recs: seq<Record>): (out: seq<Record>)
    ensures |out| == |recs|
  {
    SortBy(Before, recs)
  }

  ghost predicate InOrder(s: seq<Record>) {
    forall i, k :: 0 <= i < k < |s| ==> !Before(s[k], s[i])
  }

  lemma SortedFacts(recs: seq<Record>)
    ensures multiset(Sorted(recs)) == multiset(recs) && InOrder(Sorted(recs))
  {
    SortedIs(Before, recs);
  }

  // ------------------------------------------------------------------ the check

  function Key(r: Record, S: int): int {
    r.e * (S + 1) + r.t
  }

  ghost predicate StrictOrder(dst: seq<Record>, S: int) {
    forall i, k :: 0 <= i < k < |dst| && dst[i].kind == dst[k].kind && dst[i].j == dst[k].j
      ==> Key(dst[i], S) < Key(dst[k], S)
  }

  /** The last key of every lane seen so far, and no others. */
  ghost predicate LastKeys(last: map<(int, int), int>, dst: seq<Record>, S: int, q: nat)
    requires q <= |dst|
  {
    && (forall i :: 0 <= i < q ==> (dst[i].kind, dst[i].j) in last
                                   && Key(dst[i], S) <= last[(dst[i].kind, dst[i].j)])
    && (forall lane :: lane in last ==> LaneReaches(dst, q, lane, last[lane], S))
  }

  ghost predicate LaneReaches(dst: seq<Record>, q: nat, lane: (int, int), key: int, S: int)
    requires q <= |dst|
  {
    exists i :: 0 <= i < q && (dst[i].kind, dst[i].j) == lane && Key(dst[i], S) == key
  }

  method StrictOrderOk(dst: seq<Record>, S: int) returns (ok: bool)
    ensures ok == StrictOrder(dst, S)
  {
    hide StrictOrder, LastKeys;
    var last: map<(int, int), int> := map[];
    KeysStart(dst, S);
    for q := 0 to |dst|
      invariant LastKeys(last, dst, S, q) && StrictOrder(dst[..q], S)
    {
      var r := dst[q];
      var lane := (r.kind, r.j);
      var k := r.e * (S + 1) + r.t;
      if lane in last && k <= last[lane] {
        KeyTooSmall(last, dst, S, q);
        return false;
      }
      StrictExtend(last, dst, S, q);
      KeysExtend(last, dst, S, q, lane, k);
      last := last[lane := k];
    }
    assert dst[..|dst|] == dst;
    ok := true;
  }

  lemma KeysStart(dst: seq<Record>, S: int)
    ensures LastKeys(map[], dst, S, 0) && StrictOrder(dst[..0], S)
  {}

  lemma KeyTooSmall(last: map<(int, int), int>, dst: seq<Record>, S: int, q: nat)
    requires q < |dst| && LastKeys(last, dst, S, q)
    requires (dst[q].kind, dst[q].j) in last && Key(dst[q], S) <= last[(dst[q].kind, dst[q].j)]
    ensures !StrictOrder(dst, S)
  {
    hide Key;
    var lane := (dst[q].kind, dst[q].j);
    assert LaneReaches(dst, q, lane, last[lane], S);
  }

  lemma StrictExtend(last: map<(int, int), int>, dst: seq<Record>, S: int, q: nat)
    requires q < |dst| && LastKeys(last, dst, S, q) && StrictOrder(dst[..q], S)
    requires (dst[q].kind, dst[q].j) in last ==> last[(dst[q].kind, dst[q].j)] < Key(dst[q], S)
    ensures StrictOrder(dst[..q + 1], S)
  {
    hide Key;
    var s := dst[..q + 1];
    forall i, k | 0 <= i < k < |s| && s[i].kind == s[k].kind && s[i].j == s[k].j
      ensures Key(s[i], S) < Key(s[k], S)
    {
      if k < q {
        assert s[i] == dst[..q][i] && s[k] == dst[..q][k];
      } else {
        assert s[i] == dst[i] && s[k] == dst[q];
      }
    }
  }

  lemma KeysExtend(last: map<(int, int), int>, dst: seq<Record>, S: int, q: nat, lane: (int, int), k: int)
    requires q < |dst| && LastKeys(last, dst, S, q)
    requires lane == (dst[q].kind, dst[q].j) && k == Key(dst[q], S) && (lane in last ==> last[lane] < k)
    ensures LastKeys(last[lane := k], dst, S, q + 1)
  {
    var next := last[lane := k];
    forall l | l in next ensures LaneReaches(dst, q + 1, l, next[l], S) {
      if l == lane {
        assert (dst[q].kind, dst[q].j) == l && Key(dst[q], S) == next[l];
      } else {
        assert LaneReaches(dst, q, l, last[l], S);
      }
    }
  }

  // -------------------------------------------------------- no freedom is left

  function Lane(s: seq<Record>, kind: int, j: int): seq<Record> {
    if s == [] then []
    else if s[0].kind == kind && s[0].j == j then [s[0]] + Lane(s[1..], kind, j)
    else Lane(s[1..], kind, j)
  }

  lemma {:induction false} LaneConcat(s: seq<Record>, t: seq<Record>, kind: int, j: int)
    ensures Lane(s + t, kind, j) == Lane(s, kind, j) + Lane(t, kind, j)
  {
    if s == [] {
      assert s + t == t;
    } else {
      assert (s + t)[1..] == s[1..] + t;
      LaneConcat(s[1..], t, kind, j);
    }
  }

  lemma LaneRemove(t: seq<Record>, k: nat, kind: int, j: int)
    requires k < |t|
    ensures multiset(Lane(t, kind, j))
            == multiset(Lane([t[k]], kind, j)) + multiset(Lane(t[..k] + t[k + 1..], kind, j))
  {
    var l, m, r := t[..k], [t[k]], t[k + 1..];
    assert t == l + (m + r);
    LaneConcat(l, m + r, kind, j);
    LaneConcat(m, r, kind, j);
    LaneConcat(l, r, kind, j);
  }

  lemma {:induction false} LaneMultiset(s: seq<Record>, t: seq<Record>, kind: int, j: int)
    requires multiset(s) == multiset(t)
    ensures multiset(Lane(s, kind, j)) == multiset(Lane(t, kind, j))
  {
    if s == [] {
      assert |s| == |multiset(s)| == |multiset(t)| == |t|;
    } else {
      var k := MultisetMatch(s, t);
      LaneMultiset(s[1..], t[..k] + t[k + 1..], kind, j);
      LaneRemove(t, k, kind, j);
      LaneRemove(s, 0, kind, j);
      assert s[..0] + s[1..] == s[1..];
    }
  }

  /** Each entry of a lane comes from its list, in order. */
  lemma {:induction false} LaneEntry(s: seq<Record>, kind: int, j: int, i: nat) returns (p: nat)
    requires i < |Lane(s, kind, j)|
    ensures p < |s| && s[p] == Lane(s, kind, j)[i] && s[p].kind == kind && s[p].j == j
  {
    if s[0].kind == kind && s[0].j == j {
      if i == 0 {
        p := 0;
      } else {
        p := LaneEntry(s[1..], kind, j, i - 1);
        p := p + 1;
      }
    } else {
      p := LaneEntry(s[1..], kind, j, i);
      p := p + 1;
    }
  }

  lemma {:induction false} LaneEntries(s: seq<Record>, kind: int, j: int, i: nat, k: nat) returns (p: nat, q: nat)
    requires i < k < |Lane(s, kind, j)|
    ensures p < q < |s| && s[p] == Lane(s, kind, j)[i] && s[q] == Lane(s, kind, j)[k]
    ensures s[p].kind == s[q].kind == kind && s[p].j == s[q].j == j
  {
    if s[0].kind == kind && s[0].j == j {
      if i == 0 {
        p := 0;
        q := LaneEntry(s[1..], kind, j, k - 1);
        q := q + 1;
      } else {
        p, q := LaneEntries(s[1..], kind, j, i - 1, k - 1);
        p, q := p + 1, q + 1;
      }
    } else {
      p, q := LaneEntries(s[1..], kind, j, i, k);
      p, q := p + 1, q + 1;
    }
  }

  ghost predicate Increasing(s: seq<Record>, S: int) {
    forall i, k :: 0 <= i < k < |s| ==> Key(s[i], S) < Key(s[k], S)
  }

  ghost predicate Nondecreasing(s: seq<Record>, S: int) {
    forall i, k :: 0 <= i < k < |s| ==> Key(s[i], S) <= Key(s[k], S)
  }

  lemma {:induction false} OneOrder(s: seq<Record>, t: seq<Record>, S: int)
    requires multiset(s) == multiset(t) && Increasing(s, S) && Nondecreasing(t, S)
    ensures s == t
  {
    hide Key;
    assert |s| == |multiset(s)| == |multiset(t)| == |t|;
    if s != [] {
      SameFirst(s, t, S);
      TailMultiset(s, t);
      OneOrder(s[1..], t[1..], S);
    }
  }

  lemma SameFirst(s: seq<Record>, t: seq<Record>, S: int)
    requires multiset(s) == multiset(t) && Increasing(s, S) && Nondecreasing(t, S) && s != [] && t != []
    ensures s[0] == t[0]
  {
    hide Key;
    assert s[0] in multiset(t) && t[0] in multiset(s);
    var k :| 0 <= k < |t| && t[k] == s[0];
    var m :| 0 <= m < |s| && s[m] == t[0];
  }

  lemma TailMultiset<T>(s: seq<T>, t: seq<T>)
    requires s != [] && t != [] && s[0] == t[0] && multiset(s) == multiset(t)
    ensures multiset(s[1..]) == multiset(t[1..]) && s == [s[0]] + s[1..] && t == [t[0]] + t[1..]
  {
    assert s == [s[0]] + s[1..] && t == [t[0]] + t[1..];
    assert multiset(s[1..]) == multiset(s) - multiset{s[0]};
    assert multiset(t[1..]) == multiset(t) - multiset{t[0]};
  }

  ghost predicate Positions(s: seq<Record>, S: int) {
    forall i :: 0 <= i < |s| ==> 0 <= s[i].t < S
  }

  /** With positions in [0, S) the key orders a lane by expert, then position. */
  lemma KeyOrders(a: Record, b: Record, S: int)
    requires 0 <= a.t < S && 0 <= b.t < S && a.kind == b.kind && a.j == b.j
    ensures Key(a, S) < Key(b, S) <==> Before(a, b)
  {
    if a.e < b.e {
      assert (a.e + 1) * (S + 1) <= b.e * (S + 1) by { MulLeft(a.e + 1, b.e, S + 1); }
      assert (a.e + 1) * (S + 1) == a.e * (S + 1) + (S + 1);
    } else if b.e < a.e {
      assert (b.e + 1) * (S + 1) <= a.e * (S + 1) by { MulLeft(b.e + 1, a.e, S + 1); }
      assert (b.e + 1) * (S + 1) == b.e * (S + 1) + (S + 1);
    }
  }

  lemma MulLeft(a: int, b: int, c: int)
    requires a <= b && c >= 0
    ensures a * c <= b * c
  {}

  lemma MultisetPositions(s: seq<Record>, t: seq<Record>, S: int)
    requires multiset(s) == multiset(t) && Positions(s, S)
    ensures Positions(t, S)
  {
    forall i | 0 <= i < |t| ensures 0 <= t[i].t < S {
      assert t[i] in multiset(s);
    }
  }

  lemma LaneOfOrdered(s: seq<Record>, S: int, kind: int, j: int)
    requires InOrder(s) && Positions(s, S)
    ensures Nondecreasing(Lane(s, kind, j), S)
  {
    var l := Lane(s, kind, j);
    forall i, k | 0 <= i < k < |l| ensures Key(l[i], S) <= Key(l[k], S) {
      var p, q := LaneEntries(s, kind, j, i, k);
      KeyOrders(s[q], s[p], S);
    }
  }

  lemma LaneOfStrict(s: seq<Record>, S: int, kind: int, j: int)
    requires StrictOrder(s, S)
    ensures Increasing(Lane(s, kind, j), S)
  {
    var l := Lane(s, kind, j);
    forall i, k | 0 <= i < k < |l| ensures Key(l[i], S) < Key(l[k], S) {
      var p, q := LaneEntries(s, kind, j, i, k);
    }
  }

  /** A rearrangement of the source accepted by the strict-order check is the canonical
      sort on every lane. */
  lemma OrderIsForced(src: seq<Record>, dst: seq<Record>, S: int, kind: int, j: int)
    requires multiset(dst) == multiset(src) && Positions(src, S) && StrictOrder(dst, S)
    ensures Lane(dst, kind, j) == Lane(Sorted(src), kind, j)
  {
    SortedFacts(src);
    MultisetPositions(src, Sorted(src), S);
    LaneMultiset(dst, Sorted(src), kind, j);
    LaneOfOrdered(Sorted(src), S, kind, j);
    LaneOfStrict(dst, S, kind, j);
    OneOrder(Lane(dst, kind, j), Lane(Sorted(src), kind, j), S);
  }

  predicate SamePlace(a: Record, b: Record) {
    a.kind == b.kind && a.j == b.j && a.e == b.e && a.t == b.t
  }

  /** No two records in one lane at one place. */
  ghost predicate DistinctPlaces(s: seq<Record>) {
    forall i, k :: 0 <= i < k < |s| ==> !SamePlace(s[i], s[k])
  }

  /** The canonical sort is accepted exactly when the source names no place twice. */
  lemma SortAccepted(src: seq<Record>, S: int)
    requires Positions(src, S)
    ensures StrictOrder(Sorted(src), S) <==> DistinctPlaces(src)
  {
    var s := Sorted(src);
    SortedFacts(src);
    MultisetPositions(src, s, S);
    if DistinctPlaces(src) {
      PlacesPermute(src, s);
      forall i, k | 0 <= i < k < |s| && s[i].kind == s[k].kind && s[i].j == s[k].j
        ensures Key(s[i], S) < Key(s[k], S)
      {
        KeyOrders(s[i], s[k], S);
        assert !Before(s[k], s[i]);
      }
    }
    if StrictOrder(s, S) {
      assert DistinctPlaces(s);
      PlacesPermute(s, src);
    }
  }

  lemma {:induction false} PlacesPermute(s: seq<Record>, t: seq<Record>)
    requires multiset(s) == multiset(t) && DistinctPlaces(s)
    ensures DistinctPlaces(t)
  {
    forall i, k | 0 <= i < k < |t| ensures !SamePlace(t[i], t[k]) {
      var p, q := TwoPlaces(s, t, i, k);
      assert if p < q then !SamePlace(s[p], s[q]) else !SamePlace(s[q], s[p]);
    }
  }

  /** Two entries of a rearrangement come from two different entries. */
  lemma TwoPlaces(s: seq<Record>, t: seq<Record>, i: nat, k: nat) returns (p: nat, q: nat)
    requires multiset(s) == multiset(t) && i < k < |t|
    ensures p < |s| && q < |s| && p != q && s[p] == t[i] && s[q] == t[k]
  {
    assert t[i] in multiset(s) && t[k] in multiset(s);
    p :| 0 <= p < |s| && s[p] == t[i];
    if t[i] != t[k] {
      q :| 0 <= q < |s| && s[q] == t[k];
    } else {
      q := SecondOccurrence(s, t, p, i, k);
    }
  }

  lemma SecondOccurrence(s: seq<Record>, t: seq<Record>, p: nat, i: nat, k: nat) returns (q: nat)
    requires multiset(s) == multiset(t) && i < k < |t| && t[i] == t[k] && p < |s| && s[p] == t[i]
    ensures q < |s| && q != p && s[q] == t[k]
  {
    var srest, trest := s[..p] + s[p + 1..], t[..i] + t[i + 1..];
    MultisetRemove(s, p);
    MultisetRemove(t, i);
    assert trest[k - 1] == t[k];
    SameRest(s, t, multiset(srest), multiset(trest), s[p]);
    assert t[k] in multiset(trest);
    assert t[k] in multiset(srest);
    var m :| 0 <= m < |srest| && srest[m] == t[k];
    q := if m < p then m else m + 1;
  }

  lemma SameRest(s: seq<Record>, t: seq<Record>, a: multiset<Record>, b: multiset<Record>, x: Record)
    requires multiset(s) == multiset(t) && multiset(s) == multiset{x} + a && multiset(t) == multiset{x} + b
    ensures a == b
  {
    assert a == multiset(s) - multiset{x} && b == multiset(t) - multiset{x};
  }

  // ------------------------------------------------------- the honest stream

  lemma {:induction false} SourceFacts(layer: int, kind: int, route: seq<int>, X: seq<seq<int>>, width: nat, n: nat)
    requires n <= |route| && n <= |X| && forall t :: 0 <= t < n ==> |X[t]| >= width
    ensures var s := SourceRecords(layer, kind, route, X, width, n);
            && Positions(s, n) && DistinctPlaces(s)
            && forall i :: 0 <= i < |s| ==> s[i].kind == kind && 0 <= s[i].j < width && s[i].e == route[s[i].t]
                                            && s[i].x == X[s[i].t][s[i].j] % P
  {
    if n > 0 {
      var s := SourceRecords(layer, kind, route, X, width, n - 1);
      var r := RowRecords(layer, kind, route[n - 1], n - 1, X[n - 1], width);
      SourceFacts(layer, kind, route, X, width, n - 1);
      var all: seq<Record> := s + r;
      forall i, k | 0 <= i < k < |all| ensures !SamePlace(all[i], all[k]) {
        if k >= |s| {
          assert all[k] == r[k - |s|];
          if i >= |s| { assert all[i] == r[i - |s|]; }
        }
      }
    }
  }

  /** The prover's own stream passes both checks for every beta and z. */
  lemma HonestStreamAccepted(layer: int, kind: int, route: seq<int>, X: seq<seq<int>>, width: nat, beta: int, z: int)
    requires |X| >= |route| && forall t :: 0 <= t < |route| ==> |X[t]| >= width
    ensures var src := SourceRecords(layer, kind, route, X, width, |route|);
            var dst := Sorted(src);
            && StrictOrder(dst, |route|)
            && |src| == |dst| && CharProduct(src, beta, z) == CharProduct(dst, beta, z)
  {
    var src := SourceRecords(layer, kind, route, X, width, |route|);
    SourceFacts(layer, kind, route, X, width, |route|);
    SortAccepted(src, |route|);
    SortedFacts(src);
    PermutationAccepted(src, Sorted(src), beta, z);
  }
}
