/** The seam check of layergkr/projection.py. */
module Seam {
  // Open the same columns of the persistent and of the projected commitment and compare. Honest openings
  // are accepted at every column; a committed codeword that is not the projection passes at fewer than
  // K columns.

  import opened NumberTheory
  import opened Field
  import opened Polynomial
  import opened Domain
  import opened Rs
  import opened Merkle
  import opened Rows
  import opened Commit
  import opened Projection
  import opened Protocol

  datatype Opening<T> = Opening(columns: seq<int>, wValues: Matrix, wPaths: seq<Path<T>>,
                                pValues: Matrix, pPaths: seq<Path<T>>)

  ghost predicate InRange(cfg: Config, columns: seq<int>) {
    forall k :: 0 <= k < |columns| ==> 0 <= columns[k] < cfg.N()
  }

  ghost predicate IsOpening<T>(h: Hash<T>, cfg: Config, w: Commitment<T>, p: Commitment<T>, o: Opening<T>)
    requires AllWide(w.rows, cfg.N()) && AllWide(p.rows, cfg.N()) && InRange(cfg, o.columns)
  {
    && |o.wValues| == |o.wPaths| == |o.pValues| == |o.pPaths| == |o.columns|
    && forall k :: 0 <= k < |o.columns| ==>
         && o.wValues[k] == Column(w.rows, cfg.N(), o.columns[k]) && o.wPaths[k] == OpenPath(h, cfg, w, o.columns[k])
         && o.pValues[k] == Column(p.rows, cfg.N(), o.columns[k]) && o.pPaths[k] == OpenPath(h, cfg, p, o.columns[k])
  }

  method OpenProjection<T>(h: Hash<T>, cfg: Config, w: Commitment<T>, p: Commitment<T>, columns: seq<int>)
    returns (o: Opening<T>)
    requires Built(h, cfg, w) && Built(h, cfg, p) && InRange(cfg, columns)
    ensures o.columns == columns && IsOpening(h, cfg, w, p, o)
  {
    hide Built, Column, OpenPath;
    BuiltIsWide(h, cfg, w);
    BuiltIsWide(h, cfg, p);
    o := Opening([], [], [], [], []);
    for k := 0 to |columns|
      invariant o.columns == columns[..k] && InRange(cfg, o.columns) && IsOpening(h, cfg, w, p, o)
    {
      var v, path := Open(h, cfg, w, columns[k]);
      var vp, pathP := Open(h, cfg, p, columns[k]);
      o := Opening(o.columns + [columns[k]], o.wValues + [v], o.wPaths + [path], o.pValues + [vp], o.pPaths + [pathP]);
    }
  }

  lemma BuiltIsWide<T>(h: Hash<T>, cfg: Config, c: Commitment<T>)
    requires Built(h, cfg, c)
    ensures AllWide(c.rows, cfg.N())
  {}

  // ----------------------------------------------------------------- the check

  function Dot(a: seq<int>, v: seq<int>): int
    requires |a| == |v|
  {
    if a == [] then 0 else v[0] * a[0] + Dot(a[1..], v[1..])
  }

  lemma {:induction false} DotSnoc(a: seq<int>, v: seq<int>, k: nat)
    requires |a| == |v| && k < |a|
    ensures Dot(a[..k + 1], v[..k + 1]) == Dot(a[..k], v[..k]) + v[k] * a[k]
  {
    if k > 0 {
      DotSnoc(a[1..], v[1..], k - 1);
      assert a[..k + 1][1..] == a[1..][..k] && v[..k + 1][1..] == v[1..][..k];
      assert a[..k][1..] == a[1..][..k - 1] && v[..k][1..] == v[1..][..k - 1];
    }
  }

  method DotProduct(a: seq<int>, v: seq<int>) returns (acc: int)
    requires |a| == |v|
    ensures acc == Dot(a, v) % P
  {
    acc := 0;
    for i := 0 to |a|
      invariant acc == Dot(a[..i], v[..i]) % P
    {
      DotSnoc(a, v, i);
      DotStep(Dot(a[..i], v[..i]), a[i], v[i], acc);
      acc := (acc + a[i] * v[i] % P) % P;
    }
    assert a[..|a|] == a && v[..|v|] == v;
  }

  lemma DotStep(d: int, a: int, v: int, acc: int)
    requires acc == d % P
    ensures (acc + a * v % P) % P == (d + v * a) % P
  {
    TimesCommute(a, v);
    ModMod(d, P);
    ModMod(a * v, P);
    ModAdd(acc, d, (a * v) % P, v * a, P);
  }

  /** Block b's projected value is the chi-combination of that block's weight values. */
  ghost predicate BlockHolds(chi: seq<int>, wvals: seq<int>, pvals: seq<int>, b: nat) {
    && b * |chi| + |chi| <= |wvals| && b < |pvals|
    && Dot(chi, wvals[b * |chi|..b * |chi| + |chi|]) % P == pvals[b]
  }

  ghost predicate BlocksHold(chi: seq<int>, wvals: seq<int>, pvals: seq<int>) {
    forall b :: 0 <= b < |pvals| ==> BlockHolds(chi, wvals, pvals, b)
  }

  /** What the verifier says of column k: Raise where Python would divide by zero or run
      off a path list. */
  ghost function ColumnVerdict<T>(h: Hash<T>, cfg: Config, wRoot: T, pRoot: T, chi: seq<int>, o: Opening<T>, k: nat): Verdict
    requires k < |o.columns| == |o.wValues| == |o.pValues|
  {
    if |chi| == 0 then Raise
    else if |o.wValues[k]| != |o.pValues[k]| * |chi| then Reject
    else if k >= |o.wPaths| then Raise
    else if !Checks(h, cfg, wRoot, o.columns[k], o.wValues[k], o.wPaths[k]) then Reject
    else if k >= |o.pPaths| then Raise
    else if !Checks(h, cfg, pRoot, o.columns[k], o.pValues[k], o.pPaths[k]) then Reject
    else if BlocksHold(chi, o.wValues[k], o.pValues[k]) then Accept else Reject
  }

  /** The first column that is not accepted decides. */
  ghost function SeamVerdict<T>(h: Hash<T>, cfg: Config, wRoot: T, pRoot: T, chi: seq<int>, o: Opening<T>, k: nat): Verdict
    decreases |o.columns| - k
  {
    if !(|o.columns| == |o.wValues| == |o.pValues|) then Reject
    else if k >= |o.columns| then Accept
    else if ColumnVerdict(h, cfg, wRoot, pRoot, chi, o, k).Accept? then SeamVerdict(h, cfg, wRoot, pRoot, chi, o, k + 1)
    else ColumnVerdict(h, cfg, wRoot, pRoot, chi, o, k)
  }

  method CheckBlocks(chi: seq<int>, wvals: seq<int>, pvals: seq<int>) returns (ok: bool)
    requires |wvals| == |pvals| * |chi|
    ensures ok <==> BlocksHold(chi, wvals, pvals)
  {
    for b := 0 to |pvals|
      invariant forall k :: 0 <= k < b ==> BlockHolds(chi, wvals, pvals, k)
    {
      MulMonotone(b + 1, |pvals|, |chi|, |chi|);
      assert (b + 1) * |chi| == b * |chi| + |chi|;
      var acc := DotProduct(chi, wvals[b * |chi|..b * |chi| + |chi|]);
      if acc != pvals[b] {
        assert !BlockHolds(chi, wvals, pvals, b);
        return false;
      }
    }
    ok := true;
  }

  method VerifyProjection<T(==)>(h: Hash<T>, cfg: Config, wRoot: T, pRoot: T, chi: seq<int>, o: Opening<T>)
    returns (v: Verdict)
    ensures v == SeamVerdict(h, cfg, wRoot, pRoot, chi, o, 0)
  {
    hide Checks, BlocksHold;
    if !(|o.columns| == |o.wValues| == |o.pValues|) {
      return Reject;
    }
    for k := 0 to |o.columns|
      invariant SeamVerdict(h, cfg, wRoot, pRoot, chi, o, k) == SeamVerdict(h, cfg, wRoot, pRoot, chi, o, 0)
    {
      if |chi| == 0 {
        return Raise;
      }
      var wvals, pvals := o.wValues[k], o.pValues[k];
      ExactMultiple(|wvals|, |chi|, |pvals|);
      if |wvals| % |chi| != 0 {
        return Reject;
      }
      var blocks := |wvals| / |chi|;
      if |pvals| != blocks {
        return Reject;
      }
      if k >= |o.wPaths| {
        return Raise;
      }
      var wOk := CheckOpen(h, cfg, wRoot, o.columns[k], wvals, o.wPaths[k]);
      if !wOk {
        return Reject;
      }
      if k >= |o.pPaths| {
        return Raise;
      }
      var pOk := CheckOpen(h, cfg, pRoot, o.columns[k], pvals, o.pPaths[k]);
      if !pOk {
        return Reject;
      }
      var ok := CheckBlocks(chi, wvals, pvals);
      if !ok {
        return Reject;
      }
    }
    v := Accept;
  }

  lemma ExactMultiple(n: nat, d: nat, q: nat)
    requires d > 0
    ensures n == q * d <==> n % d == 0 && n / d == q
  {
    if n == q * d { ExactQuotient(n, d, q); assert n == d * (n / d) + n % d; }
  }

  lemma {:induction false} AcceptedColumns<T>(h: Hash<T>, cfg: Config, wRoot: T, pRoot: T, chi: seq<int>, o: Opening<T>, k: nat)
    requires k <= |o.columns| == |o.wValues| == |o.pValues|
    ensures SeamVerdict(h, cfg, wRoot, pRoot, chi, o, k) == Accept
            <==> forall i :: k <= i < |o.columns| ==> ColumnVerdict(h, cfg, wRoot, pRoot, chi, o, i) == Accept
    decreases |o.columns| - k
  {
    hide ColumnVerdict;
    if k < |o.columns| { AcceptedColumns(h, cfg, wRoot, pRoot, chi, o, k + 1); }
  }

  // ---------------------------------------------------------------- completeness

  lemma {:induction false} DotIsMix(chi: seq<int>, rows: Matrix, v: seq<int>, c: nat)
    requires |chi| == |rows| == |v| && forall i :: 0 <= i < |rows| ==> v[i] == At(rows[i], c)
    ensures Dot(chi, v) == Mix(rows, chi, c)
  {
    if chi != [] {
      forall i | 0 <= i < |rows[1..]| ensures v[1..][i] == At(rows[1..][i], c) {
        assert v[1..][i] == v[i + 1] && rows[1..][i] == rows[i + 1];
      }
      DotIsMix(chi[1..], rows[1..], v[1..], c);
    }
  }

  /** At any column the block's opened values combine to the projected codeword's value. */
  lemma BlockColumn<T>(h: Hash<T>, w: Weights<T>, W: Matrix, padding: Padding, chi: seq<int>, b: nat, lo: nat, c: nat)
    requires Enrolled(h, w, W, padding) && |chi| == w.nOut && b < w.nBlocks && c < w.cfg.N() && lo == Base(b, |chi|)
    requires AllWide(w.commit.rows, w.cfg.N())
    ensures lo + |chi| <= |w.commit.rows|
    ensures Dot(chi, Column(w.commit.rows, w.cfg.N(), c)[lo..lo + |chi|]) % P
            == Codeword(w.cfg, ProjectedBlock(w.cfg, W, padding, chi, b))[c]
  {
    hide *;
    PIsPositive();
    EnrolledParts(h, w, W, padding);
    BlockCodewords(h, w, W, padding, b, lo);
    BlockCombination(h, w, W, padding, chi, b, lo);
    DotColumn(chi, w.commit.rows, w.cfg.N(), lo, c);
  }

  lemma DotColumn(chi: seq<int>, rows: Matrix, n: nat, lo: nat, c: nat)
    requires AllWide(rows, n) && c < n && lo + |chi| <= |rows|
    ensures Dot(chi, Column(rows, n, c)[lo..lo + |chi|]) % P == Mixed(rows[lo..lo + |chi|], chi, n)[c]
  {
    DotIsMix(chi, rows[lo..lo + |chi|], Column(rows, n, c)[lo..lo + |chi|], c);
  }

  /** An honest opening is accepted whatever the columns, blocks, padding and coefficients. */
  lemma HonestSeamAccepted<T>(h: Hash<T>, w: Weights<T>, W: Matrix, padding: Padding, chi: seq<int>,
                              p: Commitment<T>, o: Opening<T>)
    requires Enrolled(h, w, W, padding) && |chi| == w.nOut
    requires Built(h, w.cfg, p) && p.rows == Encoded(w.cfg, Projected(w.cfg, W, padding, chi, w.nBlocks))
    requires AllWide(w.commit.rows, w.cfg.N()) && InRange(w.cfg, o.columns) && IsOpening(h, w.cfg, w.commit, p, o)
    ensures SeamVerdict(h, w.cfg, w.commit.root, p.root, chi, o, 0) == Accept
  {
    forall k | 0 <= k < |o.columns|
      ensures ColumnVerdict(h, w.cfg, w.commit.root, p.root, chi, o, k) == Accept
    {
      HonestColumn(h, w, W, padding, chi, p, o, k);
    }
    AcceptedColumns(h, w.cfg, w.commit.root, p.root, chi, o, 0);
  }

  lemma HonestColumn<T>(h: Hash<T>, w: Weights<T>, W: Matrix, padding: Padding, chi: seq<int>,
                        p: Commitment<T>, o: Opening<T>, k: nat)
    requires Enrolled(h, w, W, padding) && |chi| == w.nOut && k < |o.columns|
    requires Built(h, w.cfg, p) && p.rows == Encoded(w.cfg, Projected(w.cfg, W, padding, chi, w.nBlocks))
    requires AllWide(w.commit.rows, w.cfg.N()) && InRange(w.cfg, o.columns) && IsOpening(h, w.cfg, w.commit, p, o)
    ensures ColumnVerdict(h, w.cfg, w.commit.root, p.root, chi, o, k) == Accept
  {
    hide Codeword, Mix, BlockRows, ProjectedBlock, Messages, Checks, OpenPath;
    var c := o.columns[k];
    OpeningAccepted(h, w.cfg, w.commit, c);
    OpeningAccepted(h, w.cfg, p, c);
    assert |w.commit.rows| == w.nBlocks * w.nOut;
    forall b | 0 <= b < |o.pValues[k]| ensures BlockHolds(chi, o.wValues[k], o.pValues[k], b) {
      BlockColumn(h, w, W, padding, chi, b, Base(b, |chi|), c);
    }
  }

  // ------------------------------------------------------------------- soundness

  /** What a binding hash accepts at column k are the two committed columns. */
  lemma AcceptedValues<T(!new)>(h: Hash<T>, cfg: Config, w: Commitment<T>, g: Commitment<T>, chi: seq<int>,
                                o: Opening<T>, k: nat)
    requires Binding(h) && Built(h, cfg, w) && Built(h, cfg, g)
    requires SeamVerdict(h, cfg, w.root, g.root, chi, o, 0) == Accept && k < |o.columns|
    ensures 0 <= o.columns[k] < cfg.N() && AllWide(w.rows, cfg.N()) && AllWide(g.rows, cfg.N())
    ensures |w.rows| == |g.rows| * |chi|
    ensures BlocksHold(chi, Column(w.rows, cfg.N(), o.columns[k]), Column(g.rows, cfg.N(), o.columns[k]))
  {
    AcceptedParts(h, cfg, w.root, g.root, chi, o, k);
    hide *;
    BuiltIsWide(h, cfg, w);
    BuiltIsWide(h, cfg, g);
    OpeningBinds(h, cfg, w, o.columns[k], o.wValues[k], o.wPaths[k]);
    OpeningBinds(h, cfg, g, o.columns[k], o.pValues[k], o.pPaths[k]);
  }

  /** Against honestly enrolled weights, an opening of any committed rows that is accepted only
      uses columns where each row agrees with its projected codeword. */
  lemma AcceptedMeansAgreement<T(!new)>(h: Hash<T>, w: Weights<T>, W: Matrix, padding: Padding, chi: seq<int>,
                                        g: Commitment<T>, o: Opening<T>, k: nat, b: nat, c: nat)
    requires Binding(h) && Enrolled(h, w, W, padding) && |chi| == w.nOut && Built(h, w.cfg, g)
    requires SeamVerdict(h, w.cfg, w.commit.root, g.root, chi, o, 0) == Accept
    requires k < |o.columns| && o.columns[k] == c && b < w.nBlocks
    ensures |g.rows| == w.nBlocks && c < w.cfg.N() && |g.rows[b]| == w.cfg.N()
    ensures g.rows[b][c] == Codeword(w.cfg, ProjectedBlock(w.cfg, W, padding, chi, b))[c]
  {
    hide *;
    PIsPositive();
    EnrolledParts(h, w, W, padding);
    AcceptedValues(h, w.cfg, w.commit, g, chi, o, k);
    var lo := Base(b, w.nOut);
    BlockCodewords(h, w, W, padding, b, lo);
    SameBlocks(|g.rows|, w.nBlocks, w.nOut);
    BlockColumn(h, w, W, padding, chi, b, lo, c);
    ColumnAt(g.rows, w.cfg.N(), c, b);
    BlockAt(chi, Column(w.commit.rows, w.cfg.N(), c), Column(g.rows, w.cfg.N(), c), b, lo);
  }

  lemma ColumnAt(rows: Matrix, n: nat, c: nat, b: nat)
    requires AllWide(rows, n) && c < n && b < |rows|
    ensures |rows[b]| == n && Column(rows, n, c)[b] == rows[b][c]
  {}

  lemma AcceptedParts<T>(h: Hash<T>, cfg: Config, wRoot: T, pRoot: T, chi: seq<int>, o: Opening<T>, k: nat)
    requires SeamVerdict(h, cfg, wRoot, pRoot, chi, o, 0) == Accept && k < |o.columns|
    ensures k < |o.wValues| && k < |o.pValues| && k < |o.wPaths| && k < |o.pPaths|
    ensures |o.wValues[k]| == |o.pValues[k]| * |chi| && BlocksHold(chi, o.wValues[k], o.pValues[k])
    ensures Checks(h, cfg, wRoot, o.columns[k], o.wValues[k], o.wPaths[k])
    ensures Checks(h, cfg, pRoot, o.columns[k], o.pValues[k], o.pPaths[k])
  {
    hide Checks, BlocksHold;
    AcceptedColumns(h, cfg, wRoot, pRoot, chi, o, 0);
    assert ColumnVerdict(h, cfg, wRoot, pRoot, chi, o, k) == Accept;
  }

  lemma EnrolledParts<T>(h: Hash<T>, w: Weights<T>, W: Matrix, padding: Padding)
    requires Enrolled(h, w, W, padding)
    ensures w.cfg.Valid() && w.cfg.ELL > 0 && w.nOut > 0 && Built(h, w.cfg, w.commit) && AllWide(w.commit.rows, w.cfg.N())
  {}

  lemma BlockAt(chi: seq<int>, wvals: seq<int>, pvals: seq<int>, b: nat, lo: nat)
    requires BlocksHold(chi, wvals, pvals) && b < |pvals| && lo == Base(b, |chi|)
    ensures lo + |chi| <= |wvals| && Dot(chi, wvals[lo..lo + |chi|]) % P == pvals[b]
  {
    assert BlockHolds(chi, wvals, pvals, b);
  }

  lemma SameBlocks(a: nat, b: nat, d: nat)
    requires d > 0 && a * d == Base(b, d)
    ensures a == b
  {
    assert (a - b) * d == 0;
  }

  /** A committed codeword that is not the projection is accepted at K-1 different columns
      at the most, so K distinct opened columns expose it. */
  lemma ForgedProjectionExposed<T(!new)>(h: Hash<T>, w: Weights<T>, W: Matrix, padding: Padding, chi: seq<int>,
                                         g: Commitment<T>, o: Opening<T>, b: nat)
    requires Binding(h) && Enrolled(h, w, W, padding) && |chi| == w.nOut && Built(h, w.cfg, g)
    requires SeamVerdict(h, w.cfg, w.commit.root, g.root, chi, o, 0) == Accept
    requires NoDuplicates(o.columns) && b < w.nBlocks == |g.rows| && IsCodeword(w.cfg, g.rows[b])
    requires g.rows[b] != Codeword(w.cfg, ProjectedBlock(w.cfg, W, padding, chi, b))
    ensures |o.columns| <= w.cfg.K() - 1
  {
    var m := ProjectedBlock(w.cfg, W, padding, chi, b);
    hide *;
    EnrolledParts(h, w, W, padding);
    var word := Codeword(w.cfg, m);
    var same := Agreements(g.rows[b], word);
    IsTheCode(w.cfg, m);
    CodewordAt(w.cfg, m);
    Distance(w.cfg, g.rows[b], word);
    forall c | c in Elements(o.columns) ensures c in same {
      var k := PositionOf(o.columns, c);
      SeamColumnRange(h, w, W, padding, chi, g, o, k);
      AcceptedMeansAgreement(h, w, W, padding, chi, g, o, k, b, c);
      AgreementAt(g.rows[b], word, c);
    }
    NoDuplicatesSize(o.columns);
    SubsetSize(Elements(o.columns), same);
  }

  lemma PositionOf(s: seq<int>, x: int) returns (k: nat)
    requires x in Elements(s)
    ensures k < |s| && s[k] == x
  {
    k :| 0 <= k < |s| && s[k] == x;
  }

  lemma AgreementAt(v: seq<int>, w: seq<int>, c: nat)
    requires c < |v| && c < |w| && v[c] == w[c]
    ensures c in Agreements(v, w)
  {}

  lemma SeamColumnRange<T(!new)>(h: Hash<T>, w: Weights<T>, W: Matrix, padding: Padding, chi: seq<int>,
                                 g: Commitment<T>, o: Opening<T>, k: nat)
    requires Binding(h) && Enrolled(h, w, W, padding) && Built(h, w.cfg, g)
    requires SeamVerdict(h, w.cfg, w.commit.root, g.root, chi, o, 0) == Accept && k < |o.columns|
    ensures 0 <= o.columns[k] < w.cfg.N()
  {
    hide *;
    EnrolledParts(h, w, W, padding);
    AcceptedValues(h, w.cfg, w.commit, g, chi, o, k);
  }

  lemma IsTheCode(cfg: Config, m: seq<int>)
    ensures IsCodeword(cfg, Codeword(cfg, m))
  {}
}
