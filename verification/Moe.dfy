/** The routed contraction of moe.py end to end: from an accepted stream and scan to the
    per-expert sums, and from those sums to the one scalar identity. */
module Moe {
  import opened NumberTheory
  import opened Field
  import opened Polynomial
  import opened Sums
  import opened Permutation
  import opened Order
  import opened Scan
  import opened Rows

  // ------------------------------------------------ from the stream to the sums

  /** What the scan reads of a record. */
  datatype Token = Token(e: int, t: int, x: int)

  function LaneTokens(lane: seq<Record>): (ts: seq<Token>)
    ensures |ts| == |lane| && forall i :: 0 <= i < |lane| ==> ts[i] == Token(lane[i].e, lane[i].t, lane[i].x)
  {
    seq(|lane|, i requires 0 <= i < |lane| => Token(lane[i].e, lane[i].t, lane[i].x))
  }

  /** The token rows of a trace. */
  function TraceTokens(trace: seq<ScanRow>, m: nat): seq<Token>
    requires m <= |trace|
  {
    if m == 0 then []
    else if trace[m - 1].a == 1
    then TraceTokens(trace, m - 1) + [Token(trace[m - 1].e, trace[m - 1].t, trace[m - 1].x)]
    else TraceTokens(trace, m - 1)
  }

  /** The source tokens of coordinate j. */
  function SourceTokens(route: seq<int>, X: seq<seq<int>>, j: nat, n: nat): (ts: seq<Token>)
    requires n <= |route| && n <= |X| && forall t :: 0 <= t < n ==> j < |X[t]|
    ensures |ts| == n && forall t :: 0 <= t < n ==> ts[t] == Token(route[t], t, X[t][j] % P)
  {
    seq(n, t requires 0 <= t < n => Token(route[t], t, X[t][j] % P))
  }

  function TokenWeight(ts: seq<Token>, e: int, tau: seq<int>): int {
    if ts == [] then 0
    else (if ts[0].e == e then Weigh(tau, ts[0].t, ts[0].x) else 0) + TokenWeight(ts[1..], e, tau)
  }

  lemma {:induction false} TokenWeightConcat(s: seq<Token>, t: seq<Token>, e: int, tau: seq<int>)
    ensures TokenWeight(s + t, e, tau) == TokenWeight(s, e, tau) + TokenWeight(t, e, tau)
  {
    hide Weigh;
    if s == [] {
      assert s + t == t;
    } else {
      assert (s + t)[1..] == s[1..] + t;
      TokenWeightConcat(s[1..], t, e, tau);
    }
  }

  lemma TokenWeightSnoc(s: seq<Token>, x: Token, e: int, tau: seq<int>)
    ensures TokenWeight(s + [x], e, tau)
            == TokenWeight(s, e, tau) + if x.e == e then Weigh(tau, x.t, x.x) else 0
  {
    TokenWeightConcat(s, [x], e, tau);
    assert [x][1..] == [];
  }

  lemma {:induction false} TokenWeightPermutes(s: seq<Token>, t: seq<Token>, e: int, tau: seq<int>)
    requires multiset(s) == multiset(t)
    ensures TokenWeight(s, e, tau) == TokenWeight(t, e, tau)
  {
    hide Weigh;
    if s == [] {
      assert |s| == |multiset(s)| == |multiset(t)| == |t|;
    } else {
      var k := MultisetMatch(s, t);
      TokenWeightPermutes(s[1..], t[..k] + t[k + 1..], e, tau);
      TokenWeightConcat(t[..k], t[k + 1..], e, tau);
      TokenWeightConcat(t[..k], [t[k]] + t[k + 1..], e, tau);
      assert t == t[..k] + ([t[k]] + t[k + 1..]);
      assert ([t[k]] + t[k + 1..])[1..] == t[k + 1..];
    }
  }

  lemma {:induction false} TokenSumIsWeight(trace: seq<ScanRow>, e: int, tau: seq<int>, m: nat)
    requires m <= |trace|
    ensures TokenSum(trace, e, tau, m) == TokenWeight(TraceTokens(trace, m), e, tau)
  {
    hide Weigh;
    if m > 0 {
      TokenSumIsWeight(trace, e, tau, m - 1);
      if trace[m - 1].a == 1 {
        TokenWeightSnoc(TraceTokens(trace, m - 1), Token(trace[m - 1].e, trace[m - 1].t, trace[m - 1].x), e, tau);
      }
    }
  }

  lemma {:induction false} RecordSumIsWeight(lane: seq<Record>, e: int, tau: seq<int>, m: nat)
    requires m <= |lane|
    ensures RecordSum(lane, e, tau, m) == TokenWeight(LaneTokens(lane[..m]), e, tau)
  {
    hide Weigh;
    if m > 0 {
      RecordSumIsWeight(lane, e, tau, m - 1);
      var r := lane[m - 1];
      assert lane[..m] == lane[..m - 1] + [r];
      assert LaneTokens(lane[..m]) == LaneTokens(lane[..m - 1]) + [Token(r.e, r.t, r.x)];
      TokenWeightSnoc(LaneTokens(lane[..m - 1]), Token(r.e, r.t, r.x), e, tau);
    }
  }

  lemma {:induction false} SegmentSumIsWeight(route: seq<int>, X: seq<seq<int>>, tau: seq<int>, e: int, j: nat, n: nat)
    requires n <= |route| && n <= |X| && forall t :: 0 <= t < n ==> j < |X[t]|
    ensures SegmentSum(route, X, tau, e, j, n) % P == TokenWeight(SourceTokens(route, X, j, n), e, tau) % P
  {
    hide Weigh;
    if n > 0 {
      SegmentSumIsWeight(route, X, tau, e, j, n - 1);
      var x := X[n - 1][j];
      assert SourceTokens(route, X, j, n) == SourceTokens(route, X, j, n - 1) + [Token(route[n - 1], n - 1, x % P)];
      TokenWeightSnoc(SourceTokens(route, X, j, n - 1), Token(route[n - 1], n - 1, x % P), e, tau);
      WeighReduced(tau, n - 1, x);
      var a, b := (if route[n - 1] == e then Weigh(tau, n - 1, x) else 0), (if route[n - 1] == e then Weigh(tau, n - 1, x % P) else 0);
      ModAdd(SegmentSum(route, X, tau, e, j, n - 1), TokenWeight(SourceTokens(route, X, j, n - 1), e, tau), a, b, P);
    }
  }

  lemma WeighReduced(tau: seq<int>, t: int, x: int)
    ensures Weigh(tau, t, x) % P == Weigh(tau, t, x % P) % P
  {
    ModMod(x, P);
    ModMul(Index(tau, t), Index(tau, t), x, x % P, P);
  }

  /** Routing soundness: if a scan trace is accepted and its token rows are, in any order,
      the source tokens of coordinate j, then its delimiter labelled e + 1 emits exactly
      the direct segment sum. */
  lemma ScanComputesSegmentSum(route: seq<int>, X: seq<seq<int>>, tau: seq<int>, E: int, j: nat,
                               trace: seq<ScanRow>, e: int, q: nat)
    requires |X| >= |route| && forall t :: 0 <= t < |route| ==> j < |X[t]|
    requires 0 <= e < E && E + 1 < P && forall t :: 0 <= t < |route| ==> 0 <= route[t] < E
    requires Accepted(trace, E, tau)
    requires multiset(TraceTokens(trace, |trace|)) == multiset(SourceTokens(route, X, j, |route|))
    requires q < |trace| && trace[q].d == 1 && trace[q].lab % P == e + 1
    ensures trace[q].emitted == SegmentSum(route, X, tau, e, j, |route|) % P
  {
    TokensAreReal(trace, |trace|, SourceTokens(route, X, j, |route|), E);
    ScanSound(trace, E, tau, q, e);
    TokenSumIsWeight(trace, e, tau, |trace|);
    TokenWeightPermutes(TraceTokens(trace, |trace|), SourceTokens(route, X, j, |route|), e, tau);
    SegmentSumIsWeight(route, X, tau, e, j, |route|);
  }

  lemma {:induction false} TraceTokenIn(trace: seq<ScanRow>, m: nat, q: nat)
    requires q < m <= |trace| && trace[q].a == 1
    ensures Token(trace[q].e, trace[q].t, trace[q].x) in TraceTokens(trace, m)
  {
    if q < m - 1 { TraceTokenIn(trace, m - 1, q); }
  }

  lemma TokensAreReal(trace: seq<ScanRow>, m: nat, source: seq<Token>, E: int)
    requires m == |trace| && multiset(TraceTokens(trace, m)) == multiset(source)
    requires 0 <= E && E + 1 < P && forall i :: 0 <= i < |source| ==> 0 <= source[i].e < E
    ensures RealExperts(trace, E)
  {
    forall q | 0 <= q < |trace| && trace[q].a == 1 ensures 0 <= trace[q].e < E {
      TraceTokenIn(trace, m, q);
      assert Token(trace[q].e, trace[q].t, trace[q].x) in multiset(source);
    }
  }

  // ------------------------------------------------------ the prover's own lanes

  lemma {:induction false} SourceLane(layer: int, kind: int, route: seq<int>, X: seq<seq<int>>, width: nat, j: nat, n: nat)
    requires n <= |route| && n <= |X| && (forall t :: 0 <= t < n ==> |X[t]| >= width) && j < width
    ensures LaneTokens(Lane(SourceRecords(layer, kind, route, X, width, n), kind, j)) == SourceTokens(route, X, j, n)
  {
    if n > 0 {
      SourceLane(layer, kind, route, X, width, j, n - 1);
      hide Lane;
      var s := SourceRecords(layer, kind, route, X, width, n - 1);
      var r := RowRecords(layer, kind, route[n - 1], n - 1, X[n - 1], width);
      LaneConcat(s, r, kind, j);
      RowLane(layer, kind, route[n - 1], n - 1, X[n - 1], width, j);
      SourceTokensSnoc(route, X, j, n);
      LaneTokensConcat(Lane(s, kind, j), [Record(layer, kind, n - 1, route[n - 1], j, X[n - 1][j] % P)]);
    } else {
      assert SourceTokens(route, X, j, 0) == [];
    }
  }

  lemma LaneTokensConcat(a: seq<Record>, b: seq<Record>)
    ensures LaneTokens(a + b) == LaneTokens(a) + LaneTokens(b)
  {}

  lemma SourceTokensSnoc(route: seq<int>, X: seq<seq<int>>, j: nat, n: nat)
    requires 0 < n <= |route| && n <= |X| && forall t :: 0 <= t < n ==> j < |X[t]|
    ensures SourceTokens(route, X, j, n)
            == SourceTokens(route, X, j, n - 1) + [Token(route[n - 1], n - 1, X[n - 1][j] % P)]
  {}

  lemma {:induction false} RowLane(layer: int, kind: int, e: int, t: nat, row: seq<int>, m: nat, j: nat)
    requires m <= |row| && j < |row|
    ensures Lane(RowRecords(layer, kind, e, t, row, m), kind, j)
            == if j < m then [Record(layer, kind, t, e, j, row[j] % P)] else []
  {
    if m > 0 {
      RowLane(layer, kind, e, t, row, m - 1, j);
      var last := Record(layer, kind, t, e, m - 1, row[m - 1] % P);
      assert RowRecords(layer, kind, e, t, row, m) == RowRecords(layer, kind, e, t, row, m - 1) + [last];
      LaneConcat(RowRecords(layer, kind, e, t, row, m - 1), [last], kind, j);
      assert [last][1..] == [];
    }
  }

  lemma {:induction false} TokensPermute(s: seq<Record>, t: seq<Record>)
    requires multiset(s) == multiset(t)
    ensures multiset(LaneTokens(s)) == multiset(LaneTokens(t))
  {
    if s == [] {
      assert |s| == |multiset(s)| == |multiset(t)| == |t|;
      assert LaneTokens(s) == LaneTokens(t) == [];
    } else {
      var k := MultisetMatch(s, t);
      var a, b := LaneTokens(s), LaneTokens(t);
      TokensPermute(s[1..], t[..k] + t[k + 1..]);
      assert a == [a[0]] + LaneTokens(s[1..]);
      assert b[..k] + b[k + 1..] == LaneTokens(t[..k] + t[k + 1..]);
      MultisetRemove(b, k);
    }
  }

  /** For the canonical sort of the prover's own records, the sums build_lane returns are
      the direct segment sums, on every coordinate. */
  lemma LaneSumsAreSegmentSums(layer: int, kind: int, route: seq<int>, X: seq<seq<int>>, width: nat,
                               tau: seq<int>, e: int, j: nat)
    requires |X| >= |route| && (forall t :: 0 <= t < |route| ==> |X[t]| >= width) && j < width
    ensures var lane := Lane(Sorted(SourceRecords(layer, kind, route, X, width, |route|)), kind, j);
            RecordSum(lane, e, tau, |lane|) % P == SegmentSum(route, X, tau, e, j, |route|) % P
  {
    var src := SourceRecords(layer, kind, route, X, width, |route|);
    var lane := Lane(Sorted(src), kind, j);
    SortedFacts(src);
    LaneMultiset(Sorted(src), src, kind, j);
    TokensPermute(lane, Lane(src, kind, j));
    SourceLane(layer, kind, route, X, width, j, |route|);
    assert lane[..|lane|] == lane;
    RecordSumIsWeight(lane, e, tau, |lane|);
    TokenWeightPermutes(LaneTokens(lane), SourceTokens(route, X, j, |route|), e, tau);
    SegmentSumIsWeight(route, X, tau, e, j, |route|);
  }

  // -------------------------------------------------------- the scalar identity

  /** A routed contraction with all its challenges: E experts, J inputs, I outputs. */
  datatype Routed = Routed(route: seq<int>, X: seq<seq<int>>, W: seq<seq<seq<int>>>, tau: seq<int>, rho: seq<int>,
                           J: nat, I: nat) {
    ghost predicate WellFormed() {
      && |X| == |route| == |tau| && |rho| == I
      && (forall t :: 0 <= t < |route| ==> 0 <= route[t] < |W| && |X[t]| == J)
      && (forall e :: 0 <= e < |W| ==> |W[e]| == J && forall j :: 0 <= j < J ==> |W[e][j]| == I)
    }

    function Xat(t: int, j: int): int {
      if 0 <= t < |X| then (if j >= 0 then At(X[t], j) else 0) else 0
    }

    function Wat(e: int, j: int, i: int): int {
      if 0 <= e < |W| && 0 <= j < |W[e]| && i >= 0 then At(W[e][j], i) else 0
    }

    function Tau(t: int): int { if t >= 0 then At(tau, t) else 0 }
    function Rho(i: int): int { if i >= 0 then At(rho, i) else 0 }
    function Expert(t: int): int { if t >= 0 then At(route, t) else 0 }

    /** selected_matmul, unreduced. */
    function Y(t: int, i: int): int {
      SumTo(J, j => Xat(t, j) * Wat(Expert(t), j, i))
    }

    /** project_experts, unreduced. */
    function Projected(e: int, j: int): int {
      SumTo(I, i => Rho(i) * Wat(e, j, i))
    }

    /** segment_sums, unreduced. */
    function Segment(e: int, j: int): int {
      SumTo(|route|, t => if Expert(t) == e then Tau(t) * Xat(t, j) else 0)
    }

    function LhsTerm(t: int, i: int): int { Tau(t) * Rho(i) * Y(t, i) }
    function RhsTerm(e: int, j: int): int { Segment(e, j) * Projected(e, j) }
    function LhsRow(t: int): int { SumTo(I, i => LhsTerm(t, i)) }
    function RhsRow(e: int): int { SumTo(J, j => RhsTerm(e, j)) }
    function Lhs(): int { SumTo(|route|, t => LhsRow(t)) }
    function Rhs(): int { SumTo(|W|, e => RhsRow(e)) }

    /** One token's share of either side. */
    function Share(t: int): int {
      SumTo(J, j => Tau(t) * Xat(t, j) * Projected(Expert(t), j))
    }

    /** Token t's share, if it is routed to expert e. */
    function ShareOf(e: int, t: int): int {
      if Expert(t) == e then Share(t) else 0
    }

    /** What token t adds to expert e's product at coordinate j. */
    function Routes(e: int, t: int, j: int): int {
      (if Expert(t) == e then Tau(t) * Xat(t, j) else 0) * Projected(e, j)
    }
  }

  lemma TokenShare(m: Routed, t: int)
    ensures m.LhsRow(t) == m.Share(t)
  {
    var e := m.Expert(t);
    var f := (i: int, j: int) => m.Tau(t) * m.Xat(t, j) * (m.Rho(i) * m.Wat(e, j, i));
    forall i: int ensures m.LhsTerm(t, i) == SumTo(m.J, j => f(i, j)) {
      var k := m.Tau(t) * m.Rho(i);
      SumScale(m.J, k, j => m.Xat(t, j) * m.Wat(e, j, i));
      forall j: int ensures k * (m.Xat(t, j) * m.Wat(e, j, i)) == f(i, j) {
        FourWay(m.Tau(t), m.Rho(i), m.Xat(t, j), m.Wat(e, j, i));
      }
      var g := j => m.Xat(t, j) * m.Wat(e, j, i);
      SumExt(m.J, j => k * g(j), j => f(i, j));
    }
    SumExt(m.I, i => m.LhsTerm(t, i), i => SumTo(m.J, j => f(i, j)));
    SumSwap(m.I, m.J, f);
    forall j: int ensures SumTo(m.I, i => f(i, j)) == m.Tau(t) * m.Xat(t, j) * m.Projected(e, j) {
      var h := i => m.Rho(i) * m.Wat(e, j, i);
      SumScale(m.I, m.Tau(t) * m.Xat(t, j), h);
      SumExt(m.I, i => f(i, j), i => m.Tau(t) * m.Xat(t, j) * h(i));
    }
    SumExt(m.J, j => SumTo(m.I, i => f(i, j)), j => m.Tau(t) * m.Xat(t, j) * m.Projected(e, j));
  }

  lemma FourWay(a: int, b: int, c: int, d: int)
    ensures a * b * (c * d) == a * c * (b * d)
  {}

  lemma RoutedShare(m: Routed, e: int, t: int)
    ensures SumTo(m.J, j => m.Routes(e, t, j)) == m.ShareOf(e, t)
  {
    if m.Expert(t) == e {
      SumExt(m.J, j => m.Routes(e, t, j), j => m.Tau(t) * m.Xat(t, j) * m.Projected(m.Expert(t), j));
    } else {
      SumZero(m.J, j => m.Routes(e, t, j));
    }
  }

  lemma TermRoutes(m: Routed, e: int, j: int)
    ensures m.RhsTerm(e, j) == SumTo(|m.route|, t => m.Routes(e, t, j))
  {
    var n := |m.route|;
    var f := t => if m.Expert(t) == e then m.Tau(t) * m.Xat(t, j) else 0;
    SumScale(n, m.Projected(e, j), f);
    SumExt(n, t => m.Projected(e, j) * f(t), t => m.Routes(e, t, j));
    SumExt(n, t => if m.Expert(t) == e then m.Tau(t) * m.Xat(t, j) else 0, f);
  }

  lemma ExpertShare(m: Routed, e: int)
    ensures m.RhsRow(e) == SumTo(|m.route|, t => m.ShareOf(e, t))
  {
    var n := |m.route|;
    hide *;
    var g := (j: int, t: int) => m.Routes(e, t, j);
    RowOfTerms(m, e);
    forall j: int ensures m.RhsTerm(e, j) == SumTo(n, t => g(j, t)) {
      TermRoutes(m, e, j);
      SumExt(n, t => m.Routes(e, t, j), t => g(j, t));
    }
    forall t: int ensures SumTo(m.J, j => g(j, t)) == m.ShareOf(e, t) {
      RoutedShare(m, e, t);
      SumExt(m.J, j => g(j, t), j => m.Routes(e, t, j));
    }
    SumExt(m.J, j => m.RhsTerm(e, j), j => SumTo(n, t => g(j, t)));
    SumSwap(m.J, n, g);
    SumExt(n, t => SumTo(m.J, j => g(j, t)), t => m.ShareOf(e, t));
  }

  lemma RowOfTerms(m: Routed, e: int)
    ensures m.RhsRow(e) == SumTo(m.J, j => m.RhsTerm(e, j))
  {}

  lemma SidesAreSums(m: Routed)
    ensures m.Lhs() == SumTo(|m.route|, t => m.LhsRow(t)) && m.Rhs() == SumTo(|m.W|, e => m.RhsRow(e))
  {}

  lemma OnlyItsExpert(m: Routed, t: int)
    requires m.WellFormed() && 0 <= t < |m.route|
    ensures SumTo(|m.W|, e => m.ShareOf(e, t)) == m.Share(t)
  {
    SumOnly(|m.W|, m.Expert(t), e => m.ShareOf(e, t));
  }

  /** The payoff identity: the routed contraction collapses to one scalar, for every
      route, every witness and every tau and rho. */
  lemma PayoffIdentity(m: Routed)
    requires m.WellFormed()
    ensures m.Lhs() == m.Rhs()
  {
    hide *;
    var n, E := |m.route|, |m.W|;
    var h := (e: int, t: int) => m.ShareOf(e, t);
    SidesAreSums(m);
    forall t: int ensures m.LhsRow(t) == m.Share(t) { TokenShare(m, t); }
    SumExt(n, t => m.LhsRow(t), t => m.Share(t));
    forall e: int ensures m.RhsRow(e) == SumTo(n, t => h(e, t)) {
      ExpertShare(m, e);
      SumExt(n, t => h(e, t), t => m.ShareOf(e, t));
    }
    SumExt(E, e => m.RhsRow(e), e => SumTo(n, t => h(e, t)));
    SumSwap(E, n, h);
    forall t | 0 <= t < n ensures SumTo(E, e => h(e, t)) == m.Share(t) {
      OnlyItsExpert(m, t);
      SumExt(E, e => h(e, t), e => m.ShareOf(e, t));
    }
    SumExt(n, t => SumTo(E, e => h(e, t)), t => m.Share(t));
  }

  // --------------------------------------------------- moe_identity_sides, as it runs

  lemma WeightedStep(acc: int, s: int, k: int, y: int, y': int)
    requires acc == s % P && y % P == y' % P
    ensures (acc + k * y) % P == (s + k * y') % P
  {
    ModMod(s, P);
    ModMul(k, k, y, y', P);
    ModAdd(acc, s, k * y, k * y', P);
  }

  /** selected_matmul. */
  function SelectedMatmul(m: Routed): (Y: seq<seq<int>>)
    ensures Sides(Y, |m.route|, m.I)
    ensures forall t, i :: 0 <= t < |m.route| && 0 <= i < m.I ==> Y[t][i] == m.Y(t, i) % P
  {
    seq(|m.route|, t requires 0 <= t < |m.route| => seq(m.I, i requires 0 <= i < m.I => m.Y(t, i) % P))
  }

  /** project_experts. */
  function ProjectExperts(m: Routed): (Pp: seq<seq<int>>)
    ensures Sides(Pp, |m.W|, m.J)
    ensures forall e, j :: 0 <= e < |m.W| && 0 <= j < m.J ==> Pp[e][j] == m.Projected(e, j) % P
  {
    seq(|m.W|, e requires 0 <= e < |m.W| => seq(m.J, j requires 0 <= j < m.J => m.Projected(e, j) % P))
  }

  lemma {:induction false} SegmentIs(m: Routed, e: int, j: nat, n: nat)
    requires m.WellFormed() && n <= |m.route| && j < m.J
    ensures SegmentSum(m.route, m.X, m.tau, e, j, n) == SumTo(n, t => if m.Expert(t) == e then m.Tau(t) * m.Xat(t, j) else 0)
  {
    if n > 0 {
      SegmentIs(m, e, j, n - 1);
      assert m.Expert(n - 1) == m.route[n - 1] && m.Tau(n - 1) == m.tau[n - 1] && m.Xat(n - 1, j) == m.X[n - 1][j];
    }
  }

  method LeftSide(m: Routed) returns (lhs: int)
    requires m.WellFormed()
    ensures lhs == m.Lhs() % P
  {
    var Y := SelectedMatmul(m);
    ghost var rows := (t: int) => m.LhsRow(t);
    SidesAreSums(m);
    hide SumTo, Routed.LhsRow, Routed.LhsTerm, Routed.Y, Routed.Lhs, Routed.WellFormed;
    SumNone(rows);
    lhs := 0;
    for t := 0 to |m.route|
      invariant lhs == SumTo(t, rows) % P
    {
      ghost var before, row := SumTo(t, rows), (i: int) => m.LhsTerm(t, i);
      SumNone(row);
      for i := 0 to m.I
        invariant lhs == (before + SumTo(i, row)) % P
      {
        LhsTermIs(m, t, i);
        ModMod(m.Y(t, i), P);
        WeightedStep(lhs, before + SumTo(i, row), m.Tau(t) * m.Rho(i), Y[t][i], m.Y(t, i));
        lhs := (lhs + m.Tau(t) * m.Rho(i) * Y[t][i]) % P;
        SumMore(i, row);
      }
      LhsRowIs(m, t);
      SumMore(t, rows);
    }
  }

  method RightSide(m: Routed, A: seq<seq<int>>) returns (rhs: int)
    requires m.WellFormed() && Sides(A, |m.W|, m.J)
    requires forall e, j :: 0 <= e < |m.W| && 0 <= j < m.J ==> A[e][j] == m.Segment(e, j) % P
    ensures rhs == m.Rhs() % P
  {
    var Pp := ProjectExperts(m);
    ghost var rows := (e: int) => m.RhsRow(e);
    SidesAreSums(m);
    hide SumTo, Routed.RhsRow, Routed.RhsTerm, Routed.Segment, Routed.Projected, Routed.Rhs, Routed.WellFormed;
    SumNone(rows);
    rhs := 0;
    for e := 0 to |m.W|
      invariant rhs == SumTo(e, rows) % P
    {
      ghost var before, row := SumTo(e, rows), (j: int) => m.RhsTerm(e, j);
      SumNone(row);
      for j := 0 to m.J
        invariant rhs == (before + SumTo(j, row)) % P
      {
        RhsTermStep(m, e, j, rhs, before + SumTo(j, row), A[e][j], Pp[e][j]);
        rhs := (rhs + A[e][j] * Pp[e][j]) % P;
        SumMore(j, row);
      }
      RowOfTerms(m, e);
      SumMore(e, rows);
    }
  }

  lemma SumNone(f: int -> int)
    ensures SumTo(0, f) == 0
  {}

  lemma SumMore(n: nat, f: int -> int)
    ensures SumTo(n + 1, f) == SumTo(n, f) + f(n)
  {}

  lemma LhsTermIs(m: Routed, t: int, i: int)
    ensures m.LhsTerm(t, i) == m.Tau(t) * m.Rho(i) * m.Y(t, i)
  {}

  lemma LhsRowIs(m: Routed, t: int)
    ensures m.LhsRow(t) == SumTo(m.I, i => m.LhsTerm(t, i))
  {}

  lemma RhsTermStep(m: Routed, e: int, j: int, acc: int, s: int, a: int, p: int)
    requires acc == s % P && a == m.Segment(e, j) % P && p == m.Projected(e, j) % P
    ensures (acc + a * p) % P == (s + m.RhsTerm(e, j)) % P
  {
    var x, y := m.Segment(e, j), m.Projected(e, j);
    ModMod(s, P);
    ModMod(x, P);
    ModMod(y, P);
    ModMul(a, x, p, y, P);
    ModAdd(acc, s, a * p, x * y, P);
  }

  /** moe_identity_sides: both sides computed independently come out equal. */
  method IdentitySides(m: Routed) returns (lhs: int, rhs: int)
    requires m.WellFormed() && m.X != [] && m.J == |m.X[0]|
    ensures lhs == m.Lhs() % P && rhs == m.Rhs() % P && lhs == rhs
  {
    lhs := LeftSide(m);
    var A := SegmentSums(m.route, m.X, m.tau, |m.W|);
    forall e, j | 0 <= e < |m.W| && 0 <= j < m.J ensures A[e][j] == m.Segment(e, j) % P {
      SegmentIs(m, e, j, |m.route|);
    }
    rhs := RightSide(m, A);
    PayoffIdentity(m);
  }
}
