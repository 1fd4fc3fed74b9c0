/** The routed contraction inside full_layer.py, with output-major experts: the per-expert sums
    against the per-expert projections give the routed output, and the prover's own scan and
    permutation checks on its stream always pass. */
module MoeStep {
  import opened NumberTheory
  import opened Field
  import opened Polynomial
  import opened Rows
  import opened Rs
  import opened PowerOfTwo
  import opened Permutation
  import opened Order
  import opened Scan
  import opened Moe
  import opened Protocol
  import opened Products
  import opened Contraction
  import opened MatmulStep

  // --------------------------------------------------- segment sums as a combination

  /** tau where the token is routed to e, zero elsewhere. */
  function Masked(tau: seq<int>, route: seq<nat>, e: int): (m: seq<int>)
    requires |tau| == |route|
    ensures |m| == |tau| && forall t :: 0 <= t < |m| ==> m[t] == if route[t] == e then tau[t] else 0
  {
    seq(|tau|, t requires 0 <= t < |tau| => if route[t] == e then tau[t] else 0)
  }

  lemma {:induction false} SegmentIsMix(route: seq<nat>, X: Matrix, tau: seq<int>, e: int, j: nat, n: nat)
    requires n <= |route| == |X| == |tau| && forall t :: 0 <= t < |X| ==> j < |X[t]|
    ensures SegmentSum(route, X, tau, e, j, n) == Mix(X[..n], Masked(tau, route, e)[..n], j)
  {
    if n > 0 {
      SegmentIsMix(route, X, tau, e, j, n - 1);
      MixSnoc(X, Masked(tau, route, e), n - 1, j);
      TimesCommute(At(X[n - 1], j), tau[n - 1]);
      TimesCommute(At(X[n - 1], j), 0);
    }
  }

  /** The table of per-expert sums, as the prover holds it. */
  ghost predicate IsSegmentTable(A: Matrix, route: seq<nat>, X: Matrix, tau: seq<int>, E: nat, n: nat)
    requires |tau| == |route|
  {
    |A| == E && forall e :: 0 <= e < E ==> A[e] == Mixed(X, Masked(tau, route, e), n)
  }

  method SegmentTable(route: seq<nat>, X: Matrix, tau: seq<int>, E: nat) returns (A: Matrix)
    requires Rectangular(X) && |X| == |route| == |tau| && forall t :: 0 <= t < |route| ==> route[t] < E
    ensures IsSegmentTable(A, route, X, tau, E, |X[0]|) && SumsTo(A, route, X, tau, E, |X[0]|, |route|)
  {
    hide SegmentSum, Mix;
    A := SegmentSums(route, X, tau, E);
    var n := |X[0]|;
    forall e | 0 <= e < E ensures A[e] == Mixed(X, Masked(tau, route, e), n) {
      forall j | 0 <= j < n ensures A[e][j] == Mixed(X, Masked(tau, route, e), n)[j] {
        SegmentIsMix(route, X, tau, e, j, |route|);
        assert X[..|route|] == X && Masked(tau, route, e)[..|route|] == Masked(tau, route, e);
      }
    }
  }

  // ------------------------------------------------------------- the routed identity

  /** sum over t of tau[t] * sum_i rho[i] * <X[t], W[route[t]][i]> */
  function RoutedDouble(X: Matrix, tau: seq<int>, route: seq<nat>, W: seq<Matrix>, rho: seq<int>, n: nat): int
    requires |tau| == |route| == |X| && forall t :: 0 <= t < |route| ==> route[t] < |W|
  {
    if X == [] then 0
    else Against(X[0], W[route[0]], rho, n) * tau[0] + RoutedDouble(X[1..], tau[1..], route[1..], W, rho, n)
  }

  /** The same, expert by expert. */
  function ByExpert(X: Matrix, tau: seq<int>, route: seq<nat>, W: seq<Matrix>, rho: seq<int>, n: nat, m: nat): int
    requires |tau| == |route| && m <= |W|
  {
    if m == 0 then 0
    else ByExpert(X, tau, route, W, rho, n, m - 1) + Doubled(X, Masked(tau, route, m - 1), W[m - 1], rho, n)
  }

  lemma {:induction false} FirstToken(X: Matrix, tau: seq<int>, route: seq<nat>, W: seq<Matrix>, rho: seq<int>, n: nat, m: nat)
    requires |tau| == |route| == |X| > 0 && route[0] < |W| && m <= |W|
    ensures ByExpert(X, tau, route, W, rho, n, m)
            == (if route[0] < m then Against(X[0], W[route[0]], rho, n) * tau[0] else 0)
               + ByExpert(X[1..], tau[1..], route[1..], W, rho, n, m)
  {
    hide Against;
    if m > 0 {
      FirstToken(X, tau, route, W, rho, n, m - 1);
      var mask := Masked(tau, route, m - 1);
      assert mask[1..] == Masked(tau[1..], route[1..], m - 1);
      assert Doubled(X, mask, W[m - 1], rho, n)
          == Against(X[0], W[m - 1], rho, n) * mask[0] + Doubled(X[1..], mask[1..], W[m - 1], rho, n);
      TimesCommute(Against(X[0], W[m - 1], rho, n), 0);
    }
  }

  lemma {:induction false} ExpertsCover(X: Matrix, tau: seq<int>, route: seq<nat>, W: seq<Matrix>, rho: seq<int>, n: nat)
    requires |tau| == |route| == |X| && forall t :: 0 <= t < |route| ==> route[t] < |W|
    ensures ByExpert(X, tau, route, W, rho, n, |W|) == RoutedDouble(X, tau, route, W, rho, n)
  {
    hide Against;
    if X == [] {
      NoTokens(tau, route, W, rho, n, |W|);
    } else {
      ExpertsCover(X[1..], tau[1..], route[1..], W, rho, n);
      FirstToken(X, tau, route, W, rho, n, |W|);
    }
  }

  lemma {:induction false} NoTokens(tau: seq<int>, route: seq<nat>, W: seq<Matrix>, rho: seq<int>, n: nat, m: nat)
    requires |tau| == |route| && m <= |W|
    ensures ByExpert([], tau, route, W, rho, n, m) == 0
  {
    if m > 0 { NoTokens(tau, route, W, rho, n, m - 1); }
  }

  // ----------------------------------------------------------- the flattened sumcheck

  lemma {:induction false} InnerConcat(a: seq<int>, b: seq<int>, c: seq<int>, d: seq<int>, m: nat)
    requires |a| == |c|
    ensures m <= |a| ==> Inner(a + b, c + d, m) == Inner(a, c, m)
    ensures Inner(a + b, c + d, |a| + m) == Inner(a, c, |a|) + Inner(b, d, m)
    decreases m
  {
    if m > 0 {
      InnerConcat(a, b, c, d, m - 1);
      assert At(a + b, |a| + m - 1) == At(b, m - 1) && At(c + d, |a| + m - 1) == At(d, m - 1);
    } else {
      InnerFirst(a, b, c, d, |a|);
    }
  }

  lemma {:induction false} InnerFirst(a: seq<int>, b: seq<int>, c: seq<int>, d: seq<int>, m: nat)
    requires |a| == |c| && m <= |a|
    ensures Inner(a + b, c + d, m) == Inner(a, c, m)
  {
    if m > 0 { InnerFirst(a, b, c, d, m - 1); }
  }

  /** Row by row inner products of two tables. */
  function RowInners(A: Matrix, B: Matrix, n: nat, m: nat): int
    requires m <= |A| && m <= |B|
  {
    if m == 0 then 0 else RowInners(A, B, n, m - 1) + Inner(A[m - 1], B[m - 1], n)
  }

  lemma {:induction false} FlatInner(A: Matrix, B: Matrix, n: nat, m: nat)
    requires m <= |A| && m <= |B| && AllWide(A, n) && AllWide(B, n)
    ensures Inner(Flat(A[..m]), Flat(B[..m]), Base(m, n)) == RowInners(A, B, n, m)
  {
    FlatSize(A[..m], n);
    FlatSize(B[..m], n);
    if m > 0 {
      var k := m - 1;
      FlatInner(A, B, n, k);
      FlatSize(A[..k], n);
      FlatSize(B[..k], n);
      BaseNext(k, n);
      assert A[..m][..k] == A[..k] && B[..m][..k] == B[..k];
      InnerConcat(Flat(A[..k]), A[k], Flat(B[..k]), B[k], n);
    } else {
      BaseNext(0, n);
    }
  }

  /** The projections of the experts. */
  ghost predicate AreProjections(Ps: Matrix, W: seq<Matrix>, rho: seq<int>, n: nat) {
    |Ps| == |W| && forall e :: 0 <= e < |W| ==> Ps[e] == Mixed(W[e], rho, n)
  }

  lemma {:induction false} RowsAreExperts(A: Matrix, Ps: Matrix, X: Matrix, tau: seq<int>, route: seq<nat>, W: seq<Matrix>,
                                          rho: seq<int>, n: nat, m: nat)
    requires |tau| == |route| && IsSegmentTable(A, route, X, tau, |W|, n) && AreProjections(Ps, W, rho, n) && m <= |W|
    ensures m <= |A| && m <= |Ps| && RowInners(A, Ps, n, m) % P == ByExpert(X, tau, route, W, rho, n, m) % P
  {
    hide *;
    PIsPositive();
    NoRowsNoExperts(A, Ps, X, tau, route, W, rho, n);
    if m > 0 {
      var e := m - 1;
      ExpertEquation(A, Ps, X, tau, route, W, rho, n, e);
      TablesAreWide(A, Ps, route, X, tau, W, rho, n);
      RowsAreExperts(A, Ps, X, tau, route, W, rho, n, e);
      RowInnersStep(A, Ps, n, m);
      ByExpertStep(X, tau, route, W, rho, n, m);
      ModAdd(RowInners(A, Ps, n, e), ByExpert(X, tau, route, W, rho, n, e), Inner(A[e], Ps[e], n),
             Doubled(X, Masked(tau, route, e), W[e], rho, n), P);
    }
  }

  lemma NoRowsNoExperts(A: Matrix, Ps: Matrix, X: Matrix, tau: seq<int>, route: seq<nat>, W: seq<Matrix>, rho: seq<int>, n: nat)
    requires |tau| == |route|
    ensures RowInners(A, Ps, n, 0) == ByExpert(X, tau, route, W, rho, n, 0)
  {}

  lemma ExpertEquation(A: Matrix, Ps: Matrix, X: Matrix, tau: seq<int>, route: seq<nat>, W: seq<Matrix>, rho: seq<int>, n: nat, e: nat)
    requires |tau| == |route| && IsSegmentTable(A, route, X, tau, |W|, n) && AreProjections(Ps, W, rho, n) && e < |W|
    ensures e < |A| && e < |Ps| && Inner(A[e], Ps[e], n) % P == Doubled(X, Masked(tau, route, e), W[e], rho, n) % P
  {
    hide *;
    PIsPositive();
    TableRow(A, Ps, route, X, tau, W, rho, n, e);
    ContractionIdentity(X, Masked(tau, route, e), W[e], rho, n);
    ReducedInner(X, Masked(tau, route, e), W[e], rho, n);
  }

  lemma TableRow(A: Matrix, Ps: Matrix, route: seq<nat>, X: Matrix, tau: seq<int>, W: seq<Matrix>, rho: seq<int>, n: nat, e: nat)
    requires |tau| == |route| && IsSegmentTable(A, route, X, tau, |W|, n) && AreProjections(Ps, W, rho, n) && e < |W|
    ensures e < |A| && e < |Ps| && A[e] == Mixed(X, Masked(tau, route, e), n) && Ps[e] == Mixed(W[e], rho, n)
  {}

  lemma RowInnersStep(A: Matrix, B: Matrix, n: nat, m: nat)
    requires 0 < m <= |A| && m <= |B|
    ensures RowInners(A, B, n, m) == RowInners(A, B, n, m - 1) + Inner(A[m - 1], B[m - 1], n)
  {}

  lemma ByExpertStep(X: Matrix, tau: seq<int>, route: seq<nat>, W: seq<Matrix>, rho: seq<int>, n: nat, m: nat)
    requires |tau| == |route| && 0 < m <= |W|
    ensures ByExpert(X, tau, route, W, rho, n, m)
            == ByExpert(X, tau, route, W, rho, n, m - 1) + Doubled(X, Masked(tau, route, m - 1), W[m - 1], rho, n)
  {}

  lemma ReducedInner(X: Matrix, mask: seq<int>, W: Matrix, rho: seq<int>, n: nat)
    ensures Inner(Mixed(X, mask, n), Mixed(W, rho, n), n) % P == Inner(Blend(X, mask, n), Blend(W, rho, n), n) % P
  {
    forall j | 0 <= j < n
      ensures At(Mixed(X, mask, n), j) % P == At(Blend(X, mask, n), j) % P
      ensures At(Mixed(W, rho, n), j) % P == At(Blend(W, rho, n), j) % P
    {
      ModMod(Mix(X, mask, j), P);
      ModMod(Mix(W, rho, j), P);
    }
    InnerCongruent(Mixed(X, mask, n), Blend(X, mask, n), Mixed(W, rho, n), Blend(W, rho, n), n);
  }

  /** Both flat lists, padded to one power of two. */
  function FlatSides(A: Matrix, Ps: Matrix, n: nat): (f: seq<seq<int>>)
    ensures Factors(f, CeilLog(Base(|A|, n)))
  {
    Sides2(Flat(A), Flat(Ps), Base(|A|, n))
  }

  /** The honest routed sumcheck: accepted, and its claim is the routed, doubly weighted output,
      for any route, empty experts included. */
  lemma RoutedAccepted(A: Matrix, Ps: Matrix, X: Matrix, tau: seq<int>, route: seq<nat>, W: seq<Matrix>, rho: seq<int>, n: nat,
                       coins: seq<int>)
    requires |tau| == |route| == |X| && forall t :: 0 <= t < |route| ==> route[t] < |W|
    requires IsSegmentTable(A, route, X, tau, |W|, n) && AreProjections(Ps, W, rho, n)
    requires |coins| >= CeilLog(Base(|A|, n))
    ensures var f := FlatSides(A, Ps, n);
      && ProductVerdict(ProductProof(f, CeilLog(Base(|A|, n)), coins), f) == Accept
      && ProductProof(f, CeilLog(Base(|A|, n)), coins).claim == RoutedDouble(X, tau, route, W, rho, n) % P
  {
    TablesAreWide(A, Ps, route, X, tau, W, rho, n);
    hide *;
    PIsPositive();
    var size := Base(|A|, n);
    FlatSize(A, n);
    FlatSize(Ps, n);
    FlatInner(A, Ps, n, |A|);
    assert A[..|A|] == A && Ps[..|A|] == Ps;
    RowsAreExperts(A, Ps, X, tau, route, W, rho, n, |A|);
    ExpertsCover(X, tau, route, W, rho, n);
    WidenedSum(Flat(A), Flat(Ps), size);
    FlatSidesIs(A, Ps, n);
    HonestProductAccepted(FlatSides(A, Ps, n), CeilLog(size), coins);
  }

  lemma FlatSidesIs(A: Matrix, Ps: Matrix, n: nat)
    ensures FlatSides(A, Ps, n) == Sides2(Flat(A), Flat(Ps), Base(|A|, n)) && Factors(FlatSides(A, Ps, n), CeilLog(Base(|A|, n)))
  {
    hide Sides2, Flat, Base, CeilLog;
  }

  lemma TablesAreWide(A: Matrix, Ps: Matrix, route: seq<nat>, X: Matrix, tau: seq<int>, W: seq<Matrix>, rho: seq<int>, n: nat)
    requires |tau| == |route| && IsSegmentTable(A, route, X, tau, |W|, n) && AreProjections(Ps, W, rho, n)
    ensures AllWide(A, n) && AllWide(Ps, n) && |A| == |Ps| == |W|
  {}

  // --------------------------------------------------------- the prover's own checks

  /** Y is the routed product, reduced. */
  ghost predicate IsRoutedOutput(Y: Matrix, X: Matrix, W: seq<Matrix>, route: seq<nat>, dOut: nat, n: nat)
    requires |route| == |X| && (forall t :: 0 <= t < |X| ==> route[t] < |W|) && forall e :: 0 <= e < |W| ==> |W[e]| == dOut
  {
    && |Y| == |X| && AllWide(Y, dOut)
    && forall t, i :: 0 <= t < |X| && 0 <= i < dOut ==> Y[t][i] % P == Inner(X[t], W[route[t]][i], n) % P
  }

  lemma {:induction false} RoutedSnoc(X: Matrix, tau: seq<int>, route: seq<nat>, W: seq<Matrix>, rho: seq<int>, n: nat, m: nat)
    requires |tau| == |route| == |X| && m < |X| && forall t :: 0 <= t < |route| ==> route[t] < |W|
    ensures RoutedDouble(X[..m + 1], tau[..m + 1], route[..m + 1], W, rho, n)
            == RoutedDouble(X[..m], tau[..m], route[..m], W, rho, n) + Against(X[m], W[route[m]], rho, n) * tau[m]
  {
    hide Against;
    if m > 0 {
      RoutedSnoc(X[1..], tau[1..], route[1..], W, rho, n, m - 1);
      assert X[..m + 1][1..] == X[1..][..m] && tau[..m + 1][1..] == tau[1..][..m] && route[..m + 1][1..] == route[1..][..m];
      assert X[..m][1..] == X[1..][..m - 1] && tau[..m][1..] == tau[1..][..m - 1] && route[..m][1..] == route[1..][..m - 1];
    }
  }

  method RoutedDirect(tau: seq<int>, rho: seq<int>, Y: Matrix, ghost X: Matrix, ghost W: seq<Matrix>, ghost route: seq<nat>,
                      dOut: nat, ghost n: nat) returns (direct: int)
    requires |route| == |X| == |tau| && (forall t :: 0 <= t < |X| ==> route[t] < |W|) && |rho| == dOut
    requires (forall e :: 0 <= e < |W| ==> |W[e]| == dOut) && IsRoutedOutput(Y, X, W, route, dOut, n)
    ensures direct == RoutedDouble(X, tau, route, W, rho, n) % P
  {
    hide RoutedDouble, Against, Inner;
    direct := 0;
    NothingRouted(W, rho, n);
    assert X[..0] == [] && tau[..0] == [] && route[..0] == [];
    for t := 0 to |Y|
      invariant direct == RoutedDouble(X[..t], tau[..t], route[..t], W, rho, n) % P
    {
      direct := OutputRow(direct, tau[t], rho, Y[t], X[t], W[route[t]], n,
                          RoutedDouble(X[..t], tau[..t], route[..t], W, rho, n));
      RoutedSnoc(X, tau, route, W, rho, n, t);
    }
    assert X[..|X|] == X && tau[..|tau|] == tau && route[..|route|] == route;
  }

  lemma NothingRouted(W: seq<Matrix>, rho: seq<int>, n: nat)
    ensures RoutedDouble([], [], [], W, rho, n) == 0 && 0 % P == 0
  {}

  /** [r for r in dst if r.j == j] */
  function AtCoordinate(dst: seq<Record>, j: int): seq<Record> {
    if dst == [] then []
    else if dst[|dst| - 1].j == j then AtCoordinate(dst[..|dst| - 1], j) + [dst[|dst| - 1]]
    else AtCoordinate(dst[..|dst| - 1], j)
  }

  lemma {:induction false} CoordinateIsLane(dst: seq<Record>, kind: int, j: int)
    requires forall i :: 0 <= i < |dst| ==> dst[i].kind == kind
    ensures AtCoordinate(dst, j) == Lane(dst, kind, j)
  {
    if dst != [] {
      CoordinateIsLane(dst[..|dst| - 1], kind, j);
      LaneConcat(dst[..|dst| - 1], [dst[|dst| - 1]], kind, j);
      assert dst == dst[..|dst| - 1] + [dst[|dst| - 1]];
      LaneOne(dst[|dst| - 1], kind, j);
    }
  }

  lemma LaneOne(r: Record, kind: int, j: int)
    requires r.kind == kind
    ensures Lane([r], kind, j) == if r.j == j then [r] else []
  {
    assert Lane([], kind, j) == [];
    assert [r][..0] == [] && [r][1..] == [];
  }

  lemma SortedStream(route: seq<nat>, X: Matrix, n: nat)
    requires Sides(X, |route|, n)
    ensures var dst := Sorted(SourceRecords(0, 1, route, X, n, |route|));
      forall i :: 0 <= i < |dst| ==> dst[i].kind == 1 && 0 <= dst[i].t < |route|
  {
    var src := SourceRecords(0, 1, route, X, n, |route|);
    var dst := Sorted(src);
    SourceFacts(0, 1, route, X, n, |route|);
    SortedFacts(src);
    forall i | 0 <= i < |dst| ensures dst[i].kind == 1 && 0 <= dst[i].t < |route| {
      assert dst[i] in multiset(dst);
      assert dst[i] in multiset(src);
    }
  }

  lemma {:induction false} LaneKeepsTokens(dst: seq<Record>, j: int, n: nat)
    requires forall i :: 0 <= i < |dst| ==> 0 <= dst[i].t < n
    ensures forall i :: 0 <= i < |AtCoordinate(dst, j)| ==> 0 <= AtCoordinate(dst, j)[i].t < n
  {
    if dst != [] { LaneKeepsTokens(dst[..|dst| - 1], j, n); }
  }

  datatype StreamCheck = StreamCheck(permSrc: int, permDst: int, scanOk: bool)

  /** Sort, permutation products, and one scan per coordinate, compared with the direct sums:
      on the prover's own stream every check passes. */
  method CheckStream(route: seq<nat>, X: Matrix, tau: seq<int>, E: nat, A: Matrix, n: nat, beta: int, z: int)
    returns (c: StreamCheck)
    requires Sides(X, |route|, n) && |tau| == |route| && SumsTo(A, route, X, tau, E, n, |route|)
    ensures c.scanOk && c.permSrc == c.permDst
    ensures c.permSrc == CharProduct(SourceRecords(0, 1, route, X, n, |route|), beta, z)
  {
    hide Sorted, SourceRecords, SegmentSum, RecordSum, CharProduct, Accepted, Lane;
    var src := SourceRecords(0, 1, route, X, n, |route|);
    var dst := Sorted(src);
    var permSrc := CharacteristicProduct(src, beta, z);
    var permDst := CharacteristicProduct(dst, beta, z);
    HonestStreamAccepted(0, 1, route, X, n, beta, z);
    SortedStream(route, X, n);
    var ok := true;
    for j := 0 to n
      invariant ok
    {
      var lane := CheckLane(route, X, tau, E, A, n, dst, j);
      ok := ok && lane;
    }
    c := StreamCheck(permSrc, permDst, ok);
  }

  method CheckLane(route: seq<nat>, X: Matrix, tau: seq<int>, E: nat, A: Matrix, n: nat, dst: seq<Record>, j: nat) returns (ok: bool)
    requires Sides(X, |route|, n) && |tau| == |route| && SumsTo(A, route, X, tau, E, n, |route|) && j < n
    requires dst == Sorted(SourceRecords(0, 1, route, X, n, |route|))
    requires forall i :: 0 <= i < |dst| ==> dst[i].kind == 1 && 0 <= dst[i].t < |route|
    ensures ok
  {
    hide Sorted, SourceRecords, SegmentSum, RecordSum, Accepted, Lane;
    var lane := AtCoordinate(dst, j);
    CoordinateIsLane(dst, 1, j);
    LaneKeepsTokens(dst, j, |route|);
    assert forall i :: 0 <= i < |lane| ==> ValidIndex(tau, lane[i].t);
    var trace, sums := BuildLane(lane, E, tau);
    var v := ScanConstraintsOk(trace, E, tau);
    ok := v == Holds;
    for e := 0 to E
      invariant ok
    {
      LaneSumsAreSegmentSums(0, 1, route, X, n, tau, e, j);
      SegmentReduced(A, route, X, tau, E, n, e, j);
      ok := ok && sums[e] == A[e][j];
    }
  }

  lemma SegmentReduced(A: Matrix, route: seq<nat>, X: Matrix, tau: seq<int>, E: nat, n: nat, e: nat, j: nat)
    requires Sides(X, |route|, n) && SumsTo(A, route, X, tau, E, n, |route|) && e < E && j < n
    ensures A[e][j] == SegmentSum(route, X, tau, e, j, |route|) % P
  {
    hide SegmentSum;
  }
}
