/** forward of layergkr/semantics.py, stage by stage, its arbiter check_trace, and the closed
    form of layergkr/count_model.py for the trace it emits. */
module Emitter {
  import opened NumberTheory
  import opened Field
  import opened Polynomial
  import opened Sumcheck
  import opened Lifting
  import opened Gates
  import opened Rows
  import opened Semantics
  import opened Forward
  import opened Flow
  import opened Demands

  /** A named matmul with its weights' shape spelled out. */
  method Project(b: Builder, name: string, X: Matrix, W: Matrix, nOut: nat, nIn: nat) returns (st: Status, Y: Matrix)
    requires b.Sound() && nOut > 0 && Sides(W, nOut, nIn) && AllWide(X, nIn)
    modifies b
    ensures X != [] && |name| < NAME_LIMIT ==>
      b.Ended(old(b.Mark()), st, LinearStatus(b.cfg, X, W, nIn), old(b.Counts()).Plus(MatmulShape(b.cfg, |X|, nOut, nIn)))
    ensures st.Fine? ==> Y == Linear(b.cfg, X, W, nIn) && Asked(b.lookups, RangeTable) >= |X|
    ensures b.matmuls == old(b.matmuls) + [Node(name, X, W, nIn)] && b.moe == old(b.moe)
    ensures Grew(old(b.lookups), NO_QUERIES, b.lookups) && (st.Fine? ==> LinearMet(b.Record(), b.cfg, X, W, nIn))
  {
    hide Builder.Sound, Builder.Counts, MatmulShape, Inner, Flat, RescaleStatus, Grown, Builder.Tidy, Asked, Grew, Extends, Met;
    st, Y := b.Matmul(name, X, W);
  }

  method RouteProject(b: Builder, name: string, X: Matrix, W: seq<Matrix>, route: seq<nat>, dOut: nat, dIn: nat)
    returns (st: Status, Y: Matrix)
    requires b.Sound() && Stack(W, dOut, dIn) && Routed(route, |X|, |W|) && AllWide(X, dIn)
    modifies b
    ensures X != [] && |name| < NAME_LIMIT && |W| == b.cfg.Experts() ==>
      b.Ended(old(b.Mark()), st, RoutedStatus(b.cfg, X, W, route, dOut, dIn), old(b.Counts()).Plus(MoEShape(b.cfg, |X|, |W|, dOut, dIn)))
    ensures st.Fine? ==> Y == RoutedLinear(b.cfg, X, W, route, dOut, dIn)
    ensures st.Fine? ==> QuotientWords(b.cfg.scaleBits, b.cfg.tableBits).Words?
    ensures b.moe == old(b.moe) + [RoutedNode(name, route, X, W, dOut, dIn)] && b.matmuls == old(b.matmuls)
    ensures Grew(old(b.lookups), NO_QUERIES, b.lookups) && (st.Fine? ==> RoutedMet(b.Record(), b.cfg, X, W, route, dOut, dIn))
  {
    hide Builder.Sound, Builder.Counts, MoEShape, Inner, Flat, Grown, Builder.Tidy, QuotientWords, Scaled, Grew, Extends, Met;
    assert |W[0]| == dOut && |W[0][0]| == dIn;
    st, Y := b.MoeMatmul(name, X, W, route);
  }

  // ------------------------------------------------------------------ attention

  function QkvCounts(cfg: ToyConfig, s: Shape): Shape
    requires cfg.Positive()
  {
    s.Plus(MatmulShape(cfg, cfg.S, cfg.d, cfg.d)).Plus(MatmulShape(cfg, cfg.S, cfg.d, cfg.d))
     .Plus(MatmulShape(cfg, cfg.S, cfg.d, cfg.d))
     .Plus(Repeated(cfg.S, MulShape(cfg, cfg.d))).Plus(Repeated(cfg.S, MulShape(cfg, cfg.d)))
  }

  method QkvStage(b: Builder, xn: Matrix, w: LayerWeights) returns (st: Status, q: Matrix, k: Matrix, v: Matrix)
    requires b.Sound() && WellShaped(b.cfg, w) && Sides(xn, b.cfg.S, b.cfg.d)
    modifies b
    ensures b.Ended(old(b.Mark()), st, QkvStatus(b.cfg, xn, w), QkvCounts(b.cfg, old(b.Counts())))
    ensures st.Fine? ==> Asked(b.lookups, RangeTable) >= b.cfg.S
    ensures st.Fine? ==> q == Rope(b.cfg, Linear(b.cfg, xn, w.Wq, b.cfg.d), w.cos, w.sin)
    ensures st.Fine? ==> k == Rope(b.cfg, Linear(b.cfg, xn, w.Wk, b.cfg.d), w.cos, w.sin)
    ensures st.Fine? ==> v == Linear(b.cfg, xn, w.Wv, b.cfg.d)
    ensures st.Fine? ==> b.matmuls == old(b.matmuls) + QkvNodes(b.cfg, xn, w) && b.moe == old(b.moe)
    ensures st.Fine? ==> Grew(old(b.lookups), NO_QUERIES, b.lookups)
    ensures st.Fine? ==> QkvMet(b.Record(), b.cfg, xn, w)
  {
    hide Builder.Sound, Builder.Counts, MatmulShape, MulShape, Repeated, Shape.Plus, Linear, Rotated, Scaled, LinearStatus, RopeStatus,
      First, Builder.Follows, Builder.Tidy, Grown, Asked, Node, Grew, Extends, LinearMet, RopeMet, QkvMet;
    var d := b.cfg.d;
    ghost var m0 := b.Mark();
    q, k, v := [], [], [];
    st, q := Project(b, "Wq", xn, w.Wq, d, d);
    if !st.Fine? { return; }
    ghost var m1 := b.Passed(m0);
    st, k := Project(b, "Wk", xn, w.Wk, d, d);
    b.FollowsThrough(m0, m1);
    if !st.Fine? { return; }
    GrewStep(m0.lookups, m1.lookups, b.lookups);
    ghost var m2 := b.Passed(m0);
    st, v := Project(b, "Wv", xn, w.Wv, d, d);
    b.FollowsThrough(m0, m2);
    if !st.Fine? { return; }
    GrewStep(m0.lookups, m2.lookups, b.lookups);
    ghost var m3 := b.Passed(m0);
    st, q := RopeRows(b, q, w.cos, w.sin, "q");
    b.FollowsThrough(m0, m3);
    if !st.Fine? { return; }
    b.StillAsked(m3, RangeTable);
    GrewStep(m0.lookups, m3.lookups, b.lookups);
    ghost var m4 := b.Passed(m0);
    st, k := RopeRows(b, k, w.cos, w.sin, "k");
    b.FollowsThrough(m0, m4);
    b.StillAsked(m4, RangeTable);
    if st.Fine? {
      GrewStep(m0.lookups, m4.lookups, b.lookups);
      QkvMetBy(m1.log, m2.log, m3.log, m4.log, b.Record(), b.cfg, xn, w);
    }
  }

  function MixCounts(cfg: ToyConfig, s: Shape): Shape
    requires cfg.Positive()
  {
    s.Plus(ScoreShape(cfg)).Plus(SoftmaxShape(cfg)).Plus(MatmulShape(cfg, cfg.S, cfg.d, cfg.S))
     .Plus(MatmulShape(cfg, cfg.S, cfg.d, cfg.d))
  }

  /** Scores, softmax, values and output projection. */
  method MixStage(b: Builder, q: Matrix, k: Matrix, v: Matrix, Wo: Matrix) returns (st: Status, o: Matrix)
    requires b.Sound() && b.cfg.Positive() && |q| == |k| == |v| == b.cfg.S && Sides(Wo, b.cfg.d, b.cfg.d)
    modifies b
    ensures b.Ended(old(b.Mark()), st, MixStatus(b.cfg, b.root, q, k, v, Wo), MixCounts(b.cfg, old(b.Counts())))
    ensures st.Fine? ==> Asked(b.lookups, ExpTable) >= b.cfg.S && Asked(b.lookups, RecipTable) >= b.cfg.S
    ensures st.Fine? ==>
      o == Linear(b.cfg, Linear(b.cfg, Softmax(b.cfg, b.root, Exponentials(b.cfg, b.root, q, k)),
                                Transposed(v, b.cfg.d), b.cfg.S), Wo, b.cfg.d)
    ensures st.Fine? ==> b.matmuls == old(b.matmuls) + MixNodes(b.cfg, b.root, q, k, v, Wo) && b.moe == old(b.moe)
    ensures st.Fine? ==> Grew(old(b.lookups), MixQueries(b.cfg, b.root, q, k), b.lookups)
    ensures st.Fine? ==> MixMet(b.Record(), b.cfg, b.root, q, k, v, Wo)
  {
    hide Builder.Sound, Builder.Counts, MatmulShape, ScoreShape, SoftmaxShape, Shape.Plus, Linear, Softmax, Exponentials, LinearStatus,
      LookStatus, SoftmaxStatus, Builder.Follows, Builder.Tidy, Grown, Asked, Flat, Node, Grew, LookedUp, Scores,
      Extends, LinearMet, ScoreMet, SoftmaxMet, MixMet;
    var cfg := b.cfg;
    ghost var m0 := b.Mark();
    ghost var asked := MixQueries(cfg, b.root, q, k);
    o := [];
    var e, p, a;
    st, e := ScoreStage(b, q, k);
    if !st.Fine? { return; }
    ghost var m1 := b.Passed(m0);
    st, p := SoftmaxStage(b, e);
    b.FollowsThrough(m0, m1);
    if !st.Fine? { return; }
    b.StillAsked(m1, ExpTable);
    GrewThrough(m0.lookups, LookedUp(cfg, b.root, ExpTable, Flat(ModRows(Scores(q, k, cfg.d)))), m1.lookups,
                LookedUp(cfg, b.root, RecipTable, RowSums(e)), b.lookups);
    ghost var m2 := b.Passed(m0);
    st, a := Project(b, "attn_pv", p, Transposed(v, cfg.d), cfg.d, cfg.S);
    b.FollowsThrough(m0, m2);
    if !st.Fine? { return; }
    ghost var m3 := b.Passed(m0);
    b.StillAsked(m2, ExpTable);
    b.StillAsked(m2, RecipTable);
    GrewLast(m0.lookups, asked, m2.lookups, b.lookups);
    st, o := Project(b, "Wo", a, Wo, cfg.d, cfg.d);
    b.FollowsThrough(m0, m3);
    b.StillAsked(m3, ExpTable);
    b.StillAsked(m3, RecipTable);
    GrewLast(m0.lookups, asked, m3.lookups, b.lookups);
    if st.Fine? { MixMetBy(m1.log, m2.log, m3.log, b.Record(), cfg, b.root, q, k, v, Wo); }
  }

  function AttentionCounts(cfg: ToyConfig, s: Shape): Shape
    requires cfg.Positive()
  {
    MixCounts(cfg, QkvCounts(cfg, s.Plus(NormShape(cfg)))).Plus(Repeated(cfg.S, GateShape(cfg.d)))
  }

  method AttentionStage(b: Builder, w: LayerWeights) returns (st: Status, h: Matrix)
    requires b.Sound() && WellShaped(b.cfg, w)
    modifies b
    ensures b.Ended(old(b.Mark()), st, AttentionStatus(b.cfg, b.root, w), AttentionCounts(b.cfg, old(b.Counts())))
    ensures st.Fine? ==> h == Attention(b.cfg, b.root, w)
    ensures st.Fine? ==> Asked(b.lookups, IsqrtTable) >= b.cfg.S && Asked(b.lookups, RangeTable) >= b.cfg.S
    ensures st.Fine? ==> Asked(b.lookups, ExpTable) >= b.cfg.S && Asked(b.lookups, RecipTable) >= b.cfg.S
    ensures st.Fine? ==> QuotientWords(b.cfg.tableBits, b.cfg.tableBits).Words?
    ensures st.Fine? ==> b.matmuls == old(b.matmuls) + AttentionNodes(b.cfg, b.root, w) && b.moe == old(b.moe)
    ensures st.Fine? ==> Grew(old(b.lookups), AttentionQueries(b.cfg, b.root, w), b.lookups)
    ensures st.Fine? ==> AttentionMet(b.Record(), b.cfg, b.root, w)
  {
    hide Builder.Sound, Builder.Counts, MixCounts, QkvCounts, NormShape, Repeated, Shape.Plus;
    hide Linear, Softmax, Exponentials, Normed, Rotated, Scaled, GateShape;
    hide NormStatus, QkvStatus, MixStatus, Builder.Follows, Builder.Tidy, Grown, Asked;
    hide QkvNodes, MixNodes, MixQueries, LookedUp, Grew, Extends, NormMet, QkvMet, MixMet, AddMet, AttentionMet;
    ghost var m0 := b.Mark();
    h := [];
    var xn, q, k, v, o;
    st, xn := Normalise(b, w.x);
    if !st.Fine? { return; }
    ghost var m1 := b.Passed(m0);
    st, q, k, v := QkvStage(b, xn, w);
    b.FollowsThrough(m0, m1);
    if !st.Fine? { return; }
    b.StillAsked(m1, IsqrtTable);
    ghost var normAsked := LookedUp(b.cfg, b.root, IsqrtTable, ModP(SquareSums(w.x, b.cfg.d)));
    GrewLast(m0.lookups, normAsked, m1.lookups, b.lookups);
    ghost var m2 := b.Passed(m0);
    st, o := MixStage(b, q, k, v, w.Wo);
    b.FollowsThrough(m0, m2);
    if !st.Fine? { return; }
    GrewThrough(m0.lookups, normAsked, m2.lookups, MixQueries(b.cfg, b.root, q, k), b.lookups);
    b.StillAsked(m2, IsqrtTable);
    b.StillAsked(m2, RangeTable);
    ghost var m3 := b.Passed(m0);
    h := AddEach(b, w.x, o, b.cfg.d, "res1");
    b.FollowsThrough(m0, m3);
    b.StillAsked(m3, IsqrtTable);
    b.StillAsked(m3, RangeTable);
    b.StillAsked(m3, ExpTable);
    b.StillAsked(m3, RecipTable);
    AttentionMetBy(m1.log, m2.log, m3.log, b.Record(), b.cfg, b.root, w);
  }

  // --------------------------------------------------------------- feed-forward

  function GluShape(cfg: ToyConfig): Shape
    requires cfg.Positive()
  {
    LookShape(cfg, cfg.dff).Plus(MulShape(cfg, cfg.dff))
  }

  method GluStage(b: Builder, g: Matrix, u: Matrix) returns (st: Status, f: Matrix)
    requires b.Sound() && |g| == |u| && AllWide(g, b.cfg.dff) && AllWide(u, b.cfg.dff)
    modifies b`gates, b`lookups, b`n
    ensures b.Ended(old(b.Mark()), st, First(GluStatus(b.cfg, b.root, g, u)), old(b.Counts()).Plus(Repeated(|g|, GluShape(b.cfg))))
    ensures st.Fine? ==> f == SwiGlu(b.cfg, b.root, g, u) && Asked(b.lookups, SiluTable) >= |g|
    ensures st.Fine? ==> Grew(old(b.lookups), LookedUp(b.cfg, b.root, SiluTable, Flat(g)), b.lookups)
    ensures st.Fine? ==> GluMet(b.Record(), b.cfg, b.root, g, u, |g|)
  {
    hide *;
    b.SoundNames();
    EachPositive(b);
    ghost var sts := GluStatus(b.cfg, b.root, g, u);
    assert sts[..0] == [];
    FirstNone();
    ghost var was := b.Mark();
    b.MarkIs();
    WideEach(g, b.cfg.dff);
    WideEach(u, b.cfg.dff);
    f := [];
    PlusNothing(was.counts, GluShape(b.cfg));
    b.EndedIs(was, Fine, First([]), was.counts.Plus(Repeated(0, GluShape(b.cfg))));
    AllNamesThen(b);
    GrewNothing(b.lookups);
    assert g[..0] == [];
    LookedUpNone(b.cfg, b.root, SiluTable);
    GluMetNone(b.Record(), b.cfg, b.root, g, u);
    for t := 0 to |g|
      invariant GluMet(b.Record(), b.cfg, b.root, g, u, t)
      invariant Grew(was.lookups, LookedUp(b.cfg, b.root, SiluTable, Flat(g[..t])), b.lookups)
      invariant |f| == t && Asked(b.lookups, SiluTable) >= t
      invariant forall i :: 0 <= i < t ==> f[i] == Scaled(b.cfg, Times(Nonlinear(b.cfg, b.root, SiluTable, g[i]), u[i]))
      invariant b.Ended(was, Fine, First(sts[..t]), was.counts.Plus(Repeated(t, GluShape(b.cfg))))
    {
      var row;
      ghost var before, log := b.lookups, b.Record();
      st, row := GluRow(b, was, t, sts, g[t], u[t]);
      if !st.Fine? {
        b.EndedIs(was, st, First(sts), was.counts.Plus(Repeated(|g|, GluShape(b.cfg))));
        return;
      }
      f := f + [row];
      GrewThrough(was.lookups, LookedUp(b.cfg, b.root, SiluTable, Flat(g[..t])), before,
                  LookedUp(b.cfg, b.root, SiluTable, g[t]), b.lookups);
      LookedUpMore(b.cfg, b.root, SiluTable, g, t);
      GluMetMore(log, b.Record(), b.cfg, b.root, g, u, t);
    }
    assert g[..|g|] == g;
    assert sts[..|g|] == sts;
    GluRows(b.cfg, b.root, g, u, f);
    st := Fine;
  }

  lemma GluRows(cfg: ToyConfig, root: nat -> nat, g: Matrix, u: Matrix, f: Matrix)
    requires |g| == |u| == |f| && AllWide(g, cfg.dff) && AllWide(u, cfg.dff)
    requires forall i :: 0 <= i < |f| ==> f[i] == Scaled(cfg, Times(Nonlinear(cfg, root, SiluTable, g[i]), u[i]))
    ensures f == SwiGlu(cfg, root, g, u)
  {
    hide Scaled, Times, Nonlinear;
  }

  /** Row t of GluStage: look up, multiply, rescale. */
  method GluRow(b: Builder, ghost was: Mark, ghost t: nat, ghost sts: seq<Status>, g: seq<int>, u: seq<int>)
    returns (st: Status, row: seq<int>)
    requires b.cfg.Positive() && |g| == |u| == b.cfg.dff && t < |sts| && Asked(b.lookups, SiluTable) >= t
    requires sts[t] == Then(LookStatus(b.cfg, g), RescaleStatus(b.cfg, Times(Nonlinear(b.cfg, b.root, SiluTable, g), u)))
    requires b.Ended(was, Fine, First(sts[..t]), was.counts.Plus(Repeated(t, GluShape(b.cfg))))
    modifies b`gates, b`lookups, b`n
    ensures b.Sound() && b.Follows(was) && st == sts[t]
    ensures st.Fine? ==> row == Scaled(b.cfg, Times(Nonlinear(b.cfg, b.root, SiluTable, g), u)) && Asked(b.lookups, SiluTable) >= t + 1
    ensures st.Fine? ==> Grew(old(b.lookups), LookedUp(b.cfg, b.root, SiluTable, g), b.lookups)
    ensures Extends(old(b.Record()), b.Record()) && (st.Fine? ==> GluRowMet(b.Record(), b.cfg, b.root, g, u))
    ensures if st.Fine? then b.Ended(was, Fine, First(sts[..t + 1]), was.counts.Plus(Repeated(t + 1, GluShape(b.cfg))))
            else First(sts) == st
  {
    hide *;
    PositiveWidth(b.cfg);
    b.EndedIs(was, Fine, First(sts[..t]), was.counts.Plus(Repeated(t, GluShape(b.cfg))));
    b.MarkIs();
    ghost var mid := b.Passed(was);
    var sg;
    st, sg := BracketLookup(b, SiluTable, g);
    b.EndedIs(mid, st, LookStatus(b.cfg, g), mid.counts.Plus(LookShape(b.cfg, b.cfg.dff)));
    b.FollowsThrough(was, mid);
    ghost var log := b.Record();
    ThenIs(LookStatus(b.cfg, g), RescaleStatus(b.cfg, Times(Nonlinear(b.cfg, b.root, SiluTable, g), u)));
    row := sg;
    if !st.Fine? {
      FirstStops(sts, t);
      return;
    }
    b.FollowsIs(was);
    ghost var looked := b.lookups;
    st, row := b.MulRescaled(sg, u, "swiglu");
    b.FollowsOn(was, looked, log);
    ExtendsThrough(mid.log, log, b.Record());
    GrownAsked(looked, b.lookups, SiluTable);
    if !st.Fine? {
      FirstStops(sts, t);
      return;
    }
    GrewLast(old(b.lookups), LookedUp(b.cfg, b.root, SiluTable, g), looked, b.lookups);
    GluRowMetBy(log, b.Record(), b.cfg, b.root, g, u);
    FirstMore(sts, t);
    MulIs(b.cfg, b.cfg.dff);
    PlusAssoc(mid.counts, LookShape(b.cfg, b.cfg.dff), MulShape(b.cfg, b.cfg.dff));
    GluIs(b.cfg);
    PlusRepeated(was.counts, t, GluShape(b.cfg));
    b.EndedIs(was, st, First(sts[..t + 1]), was.counts.Plus(Repeated(t + 1, GluShape(b.cfg))));
  }

  lemma PositiveWidth(cfg: ToyConfig)
    requires cfg.Positive()
    ensures cfg.dff > 0
  {}

  lemma ThenIs(a: Status, c: Status)
    ensures Then(a, c) == if a.Fine? then c else a
  {}

  lemma GluIs(cfg: ToyConfig)
    requires cfg.Positive()
    ensures GluShape(cfg) == LookShape(cfg, cfg.dff).Plus(MulShape(cfg, cfg.dff))
  {}

  function FeedCounts(cfg: ToyConfig, s: Shape, e: nat): Shape
    requires cfg.Positive()
  {
    s.Plus(MoEShape(cfg, cfg.S, e, cfg.dff, cfg.d)).Plus(MoEShape(cfg, cfg.S, e, cfg.dff, cfg.d))
     .Plus(Repeated(cfg.S, GluShape(cfg))).Plus(MoEShape(cfg, cfg.S, e, cfg.d, cfg.dff))
     .Plus(Repeated(cfg.S, GateShape(cfg.d)))
  }

  method FeedStage(b: Builder, h: Matrix, experts: seq<Expert>, route: seq<nat>) returns (st: Status, y: Matrix)
    requires b.Sound() && FeedShaped(b.cfg, h, experts, route) && |experts| == b.cfg.Experts()
    modifies b
    ensures b.Ended(old(b.Mark()), st, FeedStatus(b.cfg, b.root, h, experts, route), FeedCounts(b.cfg, old(b.Counts()), |experts|))
    ensures st.Fine? ==> y == FeedForward(b.cfg, b.root, h, experts, route) && Asked(b.lookups, SiluTable) >= b.cfg.S
    ensures st.Fine? ==> QuotientWords(b.cfg.scaleBits, b.cfg.tableBits).Words?
    ensures st.Fine? ==> b.moe == old(b.moe) + FeedNodes(b.cfg, b.root, h, experts, route) && b.matmuls == old(b.matmuls)
    ensures st.Fine? ==> Grew(old(b.lookups), FeedQueries(b.cfg, b.root, h, experts, route), b.lookups)
    ensures st.Fine? ==> FeedMet(b.Record(), b.cfg, b.root, h, experts, route)
  {
    hide Builder.Sound, Builder.Counts, MoEShape, GluShape, Repeated, Shape.Plus, RoutedLinear, SwiGlu, GateShape, Stack;
    hide RoutedNode, LookedUp, Grew, Flat, Extends, RoutedMet, GluMet, AddMet, FeedMet;
    hide RoutedStatus, GluStatus, First, Builder.Follows, Builder.Tidy, Grown, Asked;
    var cfg := b.cfg;
    ghost var m0 := b.Mark();
    y := [];
    var g, u, f, d;
    st, g := RouteProject(b, "moe_gate", h, Gates3(experts), route, cfg.dff, cfg.d);
    if !st.Fine? { return; }
    ghost var m1 := b.Passed(m0);
    st, u := RouteProject(b, "moe_up", h, Ups3(experts), route, cfg.dff, cfg.d);
    b.FollowsThrough(m0, m1);
    if !st.Fine? { return; }
    GrewStep(m0.lookups, m1.lookups, b.lookups);
    ghost var m2 := b.Passed(m0);
    st, f := GluStage(b, g, u);
    b.FollowsThrough(m0, m2);
    if !st.Fine? { return; }
    ghost var asked := LookedUp(cfg, b.root, SiluTable, Flat(g));
    GrewThrough(m0.lookups, NO_QUERIES, m2.lookups, asked, b.lookups);
    ThenNothing(asked);
    ghost var m3 := b.Passed(m0);
    st, d := RouteProject(b, "moe_down", f, Downs3(experts), route, cfg.d, cfg.dff);
    b.FollowsThrough(m0, m3);
    if !st.Fine? { return; }
    b.StillAsked(m3, SiluTable);
    GrewLast(m0.lookups, asked, m3.lookups, b.lookups);
    ghost var m4 := b.Passed(m0);
    y := AddEach(b, h, d, cfg.d, "res2");
    b.FollowsThrough(m0, m4);
    b.StillAsked(m4, SiluTable);
    FeedMetBy(m1.log, m2.log, m3.log, m4.log, b.Record(), cfg, b.root, h, experts, route);
  }

  // ------------------------------------------------------------------- the trace

  datatype LookupUse = LookupUse(table: Table, queries: seq<(int, int)>)

  datatype LayerTrace = LayerTrace(cfg: ToyConfig, xIn: Matrix, yOut: Matrix, matmuls: seq<Matmul>,
                                   moe: seq<MoEMatmul>, gates: seq<Gate>, lookups: seq<LookupUse>, route: seq<nat>)

  /** The shapes check_trace indexes by. */
  ghost predicate MatmulFormed(m: Matmul) {
    Rectangular(m.W) && AllWide(m.X, |m.W[0]|) && |m.Y| == |m.X| && AllWide(m.Y, |m.W|)
  }

  ghost predicate MoEFormed(m: MoEMatmul) {
    && Routed(m.route, |m.X|, |m.W|) && |m.W| > 0 && |m.W[0]| > 0 && Stack(m.W, |m.W[0]|, |m.W[0][0]|)
    && AllWide(m.X, |m.W[0][0]|) && |m.Y| == |m.X| && AllWide(m.Y, |m.W[0]|)
  }

  ghost predicate Formed(tr: LayerTrace) {
    && (forall k :: 0 <= k < |tr.gates| ==> InZoo(tr.gates[k]))
    && (forall k :: 0 <= k < |tr.matmuls| ==> MatmulFormed(tr.matmuls[k]))
    && (forall k :: 0 <= k < |tr.moe| ==> MoEFormed(tr.moe[k]))
  }

  /** Every relation of the trace holds. */
  ghost predicate Holds(tr: LayerTrace) {
    && AllVanish(tr.gates)
    && (forall k :: 0 <= k < |tr.matmuls| ==> MatmulRight(tr.matmuls[k]))
    && (forall k :: 0 <= k < |tr.moe| ==> MoERight(tr.moe[k]))
    && (forall k :: 0 <= k < |tr.lookups| ==> AllRows(tr.lookups[k].table.rows, tr.lookups[k].queries))
  }

  method CheckGate(g: Gate) returns (ok: bool)
    requires InZoo(g)
    ensures ok <==> Vanishes(g)
  {
    for idx := 0 to |g.terms[0].factors[0]|
      invariant forall i :: 0 <= i < idx ==> AtIndex(g.terms, i) % P == 0
    {
      var acc := 0;
      for k := 0 to |g.terms|
        invariant (acc + AtIndex(g.terms[k..], idx)) % P == AtIndex(g.terms, idx) % P && 0 <= acc < P
      {
        var fs, prod := g.terms[k].factors, g.terms[k].coeff % P;
        CoefficientReduced(g.terms[k].coeff, ProdAt(fs, idx));
        for j := 0 to |fs|
          invariant (prod * ProdAt(fs[j..], idx)) % P == (g.terms[k].coeff * ProdAt(fs, idx)) % P
        {
          assert fs[j..][1..] == fs[j + 1..];
          FactorStep(prod, At(fs[j], idx), ProdAt(fs[j + 1..], idx));
          prod := prod * At(fs[j], idx) % P;
        }
        assert g.terms[k..][1..] == g.terms[k + 1..];
        TermStep(acc, prod, g.terms[k].coeff * ProdAt(fs, idx), AtIndex(g.terms[k + 1..], idx));
        acc := (acc + prod) % P;
      }
      ModSmall(acc, P);
      if acc != 0 {
        return false;
      }
    }
    ok := true;
  }

  lemma CoefficientReduced(c: int, p: int)
    ensures (c % P * p) % P == (c * p) % P
  {
    ModMod(c, P);
    ModMul(c % P, c, p, p, P);
  }

  lemma FactorStep(prod: int, f: int, rest: int)
    ensures ((prod * f % P) * rest) % P == (prod * (f * rest)) % P
  {
    CoefficientReduced(prod * f, rest);
    assert (prod * f) * rest == prod * (f * rest);
  }

  lemma TermStep(acc: int, prod: int, term: int, rest: int)
    requires prod % P == term % P
    ensures ((acc + prod) % P + rest) % P == (acc + (term + rest)) % P
  {
    ModMod(acc + prod, P);
    ModAdd((acc + prod) % P, acc + prod, rest, rest, P);
    ModAdd(acc + rest, acc + rest, prod, term, P);
  }

  method InnerSum(a: seq<int>, b: seq<int>, n: nat) returns (sum: int)
    requires n <= |a| && n <= |b|
    ensures sum == Inner(a, b, n)
  {
    sum := 0;
    for j := 0 to n
      invariant sum == Inner(a, b, j)
    {
      sum := sum + a[j] * b[j];
    }
  }

  method CheckMatmul(m: Matmul) returns (ok: bool)
    requires MatmulFormed(m)
    ensures ok <==> MatmulRight(m)
  {
    hide Inner;
    for t := 0 to |m.X|
      invariant forall s, i :: 0 <= s < t && 0 <= i < |m.W| ==> m.Y[s][i] == Inner(m.X[s], m.W[i], |m.W[0]|) % P
    {
      for i := 0 to |m.W|
        invariant forall k :: 0 <= k < i ==> m.Y[t][k] == Inner(m.X[t], m.W[k], |m.W[0]|) % P
      {
        var want := InnerSum(m.X[t], m.W[i], |m.W[0]|);
        if m.Y[t][i] != want % P {
          return false;
        }
      }
    }
    ok := true;
  }

  method CheckMoE(m: MoEMatmul) returns (ok: bool)
    requires MoEFormed(m)
    ensures ok <==> MoERight(m)
  {
    hide Inner;
    var dOut, dIn := |m.W[0]|, |m.W[0][0]|;
    for t := 0 to |m.X|
      invariant forall s, i :: 0 <= s < t && 0 <= i < dOut ==> m.Y[s][i] == Inner(m.X[s], m.W[m.route[s]][i], dIn) % P
    {
      for i := 0 to dOut
        invariant forall k :: 0 <= k < i ==> m.Y[t][k] == Inner(m.X[t], m.W[m.route[t]][k], dIn) % P
      {
        var want := InnerSum(m.X[t], m.W[m.route[t]][i], dIn);
        if m.Y[t][i] != want % P {
          return false;
        }
      }
    }
    ok := true;
  }

  /** The arbiter: accepts exactly the traces in which everything holds. */
  method CheckTrace(tr: LayerTrace) returns (ok: bool)
    requires Formed(tr)
    ensures ok <==> Holds(tr)
  {
    hide Vanishes, MatmulRight, MoERight, IsRow, InZoo, MatmulFormed, MoEFormed;
    for k := 0 to |tr.gates|
      invariant forall i :: 0 <= i < k ==> Vanishes(tr.gates[i])
    {
      var good := CheckGate(tr.gates[k]);
      if !good { return false; }
    }
    for k := 0 to |tr.matmuls|
      invariant forall i :: 0 <= i < k ==> MatmulRight(tr.matmuls[i])
    {
      var good := CheckMatmul(tr.matmuls[k]);
      if !good { return false; }
    }
    for k := 0 to |tr.moe|
      invariant forall i :: 0 <= i < k ==> MoERight(tr.moe[i])
    {
      var good := CheckMoE(tr.moe[k]);
      if !good { return false; }
    }
    for k := 0 to |tr.lookups|
      invariant forall i :: 0 <= i < k ==> AllRows(tr.lookups[i].table.rows, tr.lookups[i].queries)
    {
      var use := tr.lookups[k];
      for i := 0 to |use.queries|
        invariant AllRows(use.table.rows, use.queries[..i])
      {
        if DictGet(use.table.rows, use.queries[i].0) != Some(use.queries[i].1) {
          QueryMisses(use.table.rows, use.queries, i);
          return false;
        }
        QueryHits(use.table.rows, use.queries, i);
      }
      assert use.queries[..|use.queries|] == use.queries;
    }
    ok := true;
  }

  lemma QueryMisses(rows: seq<(int, int)>, qs: seq<(int, int)>, i: nat)
    requires i < |qs| && DictGet(rows, qs[i].0) != Some(qs[i].1)
    ensures !AllRows(rows, qs)
  {
    assert !IsRow(rows, qs[i]);
  }

  lemma QueryHits(rows: seq<(int, int)>, qs: seq<(int, int)>, i: nat)
    requires i < |qs| && DictGet(rows, qs[i].0) == Some(qs[i].1) && AllRows(rows, qs[..i])
    ensures AllRows(rows, qs[..i + 1])
  {
    var prefix := qs[..i + 1];
    forall k | 0 <= k < |prefix| ensures IsRow(rows, prefix[k]) {
      if k < i { assert qs[..i][k] == qs[k]; }
    }
  }

  // --------------------------------------------------------------- the whole layer

  function UseOf(cfg: ToyConfig, root: nat -> nat, lookups: Lookups, name: TableName): (us: seq<LookupUse>)
    requires name in lookups
  {
    if lookups[name] == [] then [] else [LookupUse(TableOf(cfg, root, name), lookups[name])]
  }

  /** The tables that were queried, in their build order. */
  function Uses(cfg: ToyConfig, root: nat -> nat, lookups: Lookups): seq<LookupUse>
    requires AllNames(lookups)
  {
    UseOf(cfg, root, lookups, ExpTable) + UseOf(cfg, root, lookups, SiluTable) + UseOf(cfg, root, lookups, IsqrtTable)
    + UseOf(cfg, root, lookups, RecipTable) + UseOf(cfg, root, lookups, RangeTable)
  }

  function QueryTotal(us: seq<LookupUse>): nat {
    if us == [] then 0 else |us[0].queries| + QueryTotal(us[1..])
  }

  lemma {:induction false} QueryTotalConcat(us: seq<LookupUse>, vs: seq<LookupUse>)
    ensures QueryTotal(us + vs) == QueryTotal(us) + QueryTotal(vs)
  {
    if us == [] {
      assert us + vs == vs;
    } else {
      QueryTotalConcat(us[1..], vs);
      assert (us + vs)[1..] == us[1..] + vs;
    }
  }

  lemma UseTotal(cfg: ToyConfig, root: nat -> nat, lookups: Lookups, name: TableName)
    requires name in lookups
    ensures QueryTotal(UseOf(cfg, root, lookups, name)) == |lookups[name]|
  {}

  lemma UsesTotal(cfg: ToyConfig, root: nat -> nat, lookups: Lookups)
    requires AllNames(lookups)
    ensures QueryTotal(Uses(cfg, root, lookups)) == QueryCount(lookups)
  {
    hide QueryTotal, UseOf;
    var a, b, c, d, e := UseOf(cfg, root, lookups, ExpTable), UseOf(cfg, root, lookups, SiluTable),
      UseOf(cfg, root, lookups, IsqrtTable), UseOf(cfg, root, lookups, RecipTable), UseOf(cfg, root, lookups, RangeTable);
    QueryTotalConcat(a, b);
    QueryTotalConcat(a + b, c);
    QueryTotalConcat(a + b + c, d);
    QueryTotalConcat(a + b + c + d, e);
    UseTotal(cfg, root, lookups, ExpTable);
    UseTotal(cfg, root, lookups, SiluTable);
    UseTotal(cfg, root, lookups, IsqrtTable);
    UseTotal(cfg, root, lookups, RecipTable);
    UseTotal(cfg, root, lookups, RangeTable);
  }

  lemma UsesHit(cfg: ToyConfig, root: nat -> nat, lookups: Lookups)
    requires AllQueriesHit(cfg, root, lookups)
    ensures forall k :: 0 <= k < |Uses(cfg, root, lookups)| ==>
              AllRows(Uses(cfg, root, lookups)[k].table.rows, Uses(cfg, root, lookups)[k].queries)
  {
    hide AllRows, TableOf;
  }

  /** The counts of an emitted trace, as LayerTrace.counts takes them. */
  function TraceCounts(tr: LayerTrace): Shape {
    Shape(|tr.matmuls|, CellsOf(tr.matmuls), |tr.gates|, SlotsOf(tr.gates), QueryTotal(tr.lookups),
          |tr.moe|, MoECellsOf(tr.moe))
  }

  lemma RightMeansFormed(tr: LayerTrace)
    requires Holds(tr)
    ensures Formed(tr)
  {
    hide Inner;
    forall k | 0 <= k < |tr.gates| ensures InZoo(tr.gates[k]) { assert Vanishes(tr.gates[k]); }
    forall k | 0 <= k < |tr.matmuls| ensures MatmulFormed(tr.matmuls[k]) { assert MatmulRight(tr.matmuls[k]); }
    forall k | 0 <= k < |tr.moe| ensures MoEFormed(tr.moe[k]) { assert MoERight(tr.moe[k]); }
  }

  /** Contractions with rows and ordinary names, and S queries at least to every table asked. */
  ghost predicate Supplied(cfg: ToyConfig, tr: LayerTrace) {
    && (forall k :: 0 <= k < |tr.matmuls| ==> tr.matmuls[k].X != [] && |tr.matmuls[k].name| < NAME_LIMIT)
    && (forall k :: 0 <= k < |tr.moe| ==> tr.moe[k].X != [] && |tr.moe[k].name| < NAME_LIMIT && |tr.moe[k].W| == cfg.Experts())
    && |tr.lookups| <= 5
    && forall k :: 0 <= k < |tr.lookups| ==> |tr.lookups[k].queries| >= cfg.S && |tr.lookups[k].table.rows| == cfg.TableSize()
  }

  ghost predicate AllAsked(l: Lookups, n: nat) {
    && Asked(l, ExpTable) >= n && Asked(l, SiluTable) >= n && Asked(l, IsqrtTable) >= n && Asked(l, RecipTable) >= n
    && Asked(l, RangeTable) >= n
  }

  ghost predicate UsesHave(us: seq<LookupUse>, n: nat, size: nat) {
    forall k :: 0 <= k < |us| ==> |us[k].queries| >= n && |us[k].table.rows| == size
  }

  lemma UseHas(cfg: ToyConfig, root: nat -> nat, lookups: Lookups, name: TableName, n: nat)
    requires name in lookups && Asked(lookups, name) >= n
    ensures UsesHave(UseOf(cfg, root, lookups, name), n, cfg.TableSize()) && |UseOf(cfg, root, lookups, name)| <= 1
  {
    hide TableOf;
  }

  lemma UsesJoin(us: seq<LookupUse>, vs: seq<LookupUse>, n: nat, size: nat)
    requires UsesHave(us, n, size) && UsesHave(vs, n, size)
    ensures UsesHave(us + vs, n, size)
  {}

  lemma UsesAsked(cfg: ToyConfig, root: nat -> nat, lookups: Lookups, n: nat)
    requires AllNames(lookups) && AllAsked(lookups, n)
    ensures UsesHave(Uses(cfg, root, lookups), n, cfg.TableSize()) && |Uses(cfg, root, lookups)| <= 5
  {
    hide UseOf, UsesHave, Asked;
    var a, b, c, d, e := UseOf(cfg, root, lookups, ExpTable), UseOf(cfg, root, lookups, SiluTable),
      UseOf(cfg, root, lookups, IsqrtTable), UseOf(cfg, root, lookups, RecipTable), UseOf(cfg, root, lookups, RangeTable);
    UseHas(cfg, root, lookups, ExpTable, n);
    UseHas(cfg, root, lookups, SiluTable, n);
    UseHas(cfg, root, lookups, IsqrtTable, n);
    UseHas(cfg, root, lookups, RecipTable, n);
    UseHas(cfg, root, lookups, RangeTable, n);
    UsesJoin(a, b, n, cfg.TableSize());
    UsesJoin(a + b, c, n, cfg.TableSize());
    UsesJoin(a + b + c, d, n, cfg.TableSize());
    UsesJoin(a + b + c + d, e, n, cfg.TableSize());
  }

  /** Both halves of the layer, for any shape, weights and route. */
  method RunLayer(b: Builder, w: LayerWeights) returns (st: Status, y: Matrix)
    requires b.Sound() && b.Tidy() && AllNames(b.lookups) && WellShaped(b.cfg, w)
    modifies b
    ensures b.Sound() && st == LayerStatus(b.cfg, b.root, w)
    ensures st.Fine? ==> y == LayerOutput(b.cfg, b.root, w)
    ensures st.Fine? ==> b.Tidy() && AllNames(b.lookups) && AllAsked(b.lookups, b.cfg.S)
    ensures st.Fine? ==> b.Counts() == FeedCounts(b.cfg, AttentionCounts(b.cfg, old(b.Counts())), b.cfg.Experts())
    ensures st.Fine? ==> QuotientWords(b.cfg.scaleBits, b.cfg.tableBits).Words? && QuotientWords(b.cfg.tableBits, b.cfg.tableBits).Words?
    ensures st.Fine? ==> LayerRecorded(b, w, old(b.matmuls), old(b.moe), old(b.lookups))
  {
    hide *;
    var cfg := b.cfg;
    ghost var m0 := b.Mark();
    b.MarkIs();
    LayerIs(cfg, b.root, w);
    var h;
    st, h := AttentionStage(b, w);
    b.EndedIs(m0, st, AttentionStatus(cfg, b.root, w), AttentionCounts(cfg, m0.counts));
    ThenIs(AttentionStatus(cfg, b.root, w), FeedStatus(cfg, b.root, Attention(cfg, b.root, w), w.experts, w.route));
    y := h;
    if !st.Fine? { return; }
    ghost var m1 := b.Passed(m0);
    st, y := FeedStage(b, h, w.experts, w.route);
    b.EndedIs(m1, st, FeedStatus(cfg, b.root, h, w.experts, w.route), FeedCounts(cfg, m1.counts, cfg.Experts()));
    b.FollowsThrough(m0, m1);
    b.StillAsked(m1, IsqrtTable);
    b.StillAsked(m1, ExpTable);
    b.StillAsked(m1, RecipTable);
    b.StillAsked(m1, RangeTable);
    b.FollowsIs(m0);
    GrownNames(m0.lookups, b.lookups);
    AllAskedIs(b.lookups, cfg.S);
    if st.Fine? {
      GrewThrough(m0.lookups, AttentionQueries(cfg, b.root, w), m1.lookups, FeedQueries(cfg, b.root, h, w.experts, w.route), b.lookups);
      LayerRecords(cfg, b.root, w);
      AttentionMetStays(m1.log, b.Record(), cfg, b.root, w);
      LayerMetIs(b.Record(), cfg, b.root, w);
      LayerRecordedIs(b, w, old(b.matmuls), old(b.moe), old(b.lookups));
    }
  }

  /** Since those three were so, a whole layer was recorded. */
  ghost predicate LayerRecorded(b: Builder, w: LayerWeights, ms: seq<Matmul>, es: seq<MoEMatmul>, asked: Lookups)
    requires WellShaped(b.cfg, w)
    reads b
  {
    hide *;
    && b.matmuls == ms + AttentionNodes(b.cfg, b.root, w) && b.moe == es + LayerNodes(b.cfg, b.root, w)
    && Grew(asked, LayerQueries(b.cfg, b.root, w), b.lookups) && LayerMet(b.Record(), b.cfg, b.root, w)
  }

  lemma LayerRecordedIs(b: Builder, w: LayerWeights, ms: seq<Matmul>, es: seq<MoEMatmul>, asked: Lookups)
    requires WellShaped(b.cfg, w)
    ensures LayerRecorded(b, w, ms, es, asked) <==>
      (&& b.matmuls == ms + AttentionNodes(b.cfg, b.root, w) && b.moe == es + LayerNodes(b.cfg, b.root, w)
       && Grew(asked, LayerQueries(b.cfg, b.root, w), b.lookups) && LayerMet(b.Record(), b.cfg, b.root, w))
  {
    hide AttentionNodes, LayerNodes, LayerQueries, LayerMet, Grew, WellShaped;
  }

  lemma GrownNames(a: Lookups, b: Lookups)
    requires Grown(a, b)
    ensures AllNames(b)
  {}

  lemma AllAskedIs(l: Lookups, n: nat)
    ensures AllAsked(l, n) <==>
      (Asked(l, ExpTable) >= n && Asked(l, SiluTable) >= n && Asked(l, IsqrtTable) >= n && Asked(l, RecipTable) >= n
       && Asked(l, RangeTable) >= n)
  {
    hide Asked;
  }

  lemma LayerIs(cfg: ToyConfig, root: nat -> nat, w: LayerWeights)
    requires WellShaped(cfg, w)
    ensures var h := Attention(cfg, root, w);
      && FeedShaped(cfg, h, w.experts, w.route) && |w.experts| == cfg.Experts() && cfg.Positive()
      && LayerStatus(cfg, root, w) == Then(AttentionStatus(cfg, root, w), FeedStatus(cfg, root, h, w.experts, w.route))
      && LayerOutput(cfg, root, w) == FeedForward(cfg, root, h, w.experts, w.route)
  {
    var h := Attention(cfg, root, w);
    WeightsFeed(cfg, w, h);
    hide Attention, FeedShaped, AttentionStatus, FeedStatus, FeedForward, Then;
  }

  // ----------------------------------------------------------- the trace's data flow

  /** Five tables in their build order; row x holds x and the table's formula at x. */
  ghost predicate TablesAre(cfg: ToyConfig, root: nat -> nat, us: seq<LookupUse>) {
    var n, s := Pow2(cfg.tableBits), Pow2(cfg.scaleBits);
    && |us| == 5 && us[0].table.name == ExpTable && us[1].table.name == SiluTable && us[2].table.name == IsqrtTable
    && us[3].table.name == RecipTable && us[4].table.name == RangeTable
    && (forall k :: 0 <= k < 5 ==> us[k].table.tableId == k + 1 && |us[k].table.rows| == n)
    && (forall x :: 0 <= x < n ==> us[0].table.rows[x] == (x, (x * x + 1) % s))
    && (forall x :: 0 <= x < n ==> us[1].table.rows[x] == (x, (x * (x + 1) / 2) % s))
    && (forall x :: 0 <= x < n ==> us[2].table.rows[x] == (x, (s / (1 + root(x))) % s))
    && (forall x :: 0 <= x < n ==> us[3].table.rows[x] == (x, (s / (x + 1)) % s))
    && (forall x :: 0 <= x < n ==> us[4].table.rows[x] == (x, 0))
  }

  /** The output is the input plus the rescaled results of the two last projections. */
  ghost predicate Residuals(tr: LayerTrace) {
    var s := Pow2(tr.cfg.scaleBits);
    && |tr.matmuls| == 5 && |tr.moe| == 3
    && Sides(tr.xIn, tr.cfg.S, tr.cfg.d) && Sides(tr.matmuls[4].Y, tr.cfg.S, tr.cfg.d) && Sides(tr.moe[2].Y, tr.cfg.S, tr.cfg.d)
    && Sides(tr.yOut, tr.cfg.S, tr.cfg.d)
    && forall t, j :: 0 <= t < tr.cfg.S && 0 <= j < tr.cfg.d ==>
         tr.yOut[t][j] == (tr.xIn[t][j] + tr.matmuls[4].Y[t][j] / s + tr.moe[2].Y[t][j] / s) % P
  }

  /** What every contraction reads and every query asks, from the results recorded before it; q and k are
      the turned rows, which no contraction records. */
  ghost predicate DataFlow(root: nat -> nat, w: LayerWeights, tr: LayerTrace, q: Matrix, k: Matrix) {
    && Residuals(tr) && TablesAre(tr.cfg, root, tr.lookups)
    && var asked := Queries(tr.lookups[0].queries, tr.lookups[1].queries, tr.lookups[2].queries, tr.lookups[3].queries);
    && Answered(tr.cfg, root, asked)
    && AttentionFlows(tr.cfg, w, tr.matmuls, asked, q, k, tr.moe[0].X)
    && FeedFlows(tr.cfg, w, tr.moe, asked, tr.moe[0].X)
  }

  /** Nothing is computed off the record: each product, sum, mask and division of that flow has its gate over
      its own columns, each division its word gate, each remainder and word its range query. */
  ghost predicate Covered(w: LayerWeights, tr: LayerTrace, q: Matrix, k: Matrix) {
    && |tr.lookups| == 5
    && var log := Log(tr.gates, tr.lookups[4].queries);
    var asked := Queries(tr.lookups[0].queries, tr.lookups[1].queries, tr.lookups[2].queries, tr.lookups[3].queries);
    && QkvCovered(log, tr.cfg, w, tr.matmuls, asked.isqrt) && MixCovered(log, tr.cfg, w, tr.matmuls, asked, q, k)
    && FeedCovered(log, tr.cfg, tr.moe, asked)
  }

  ghost predicate Flows(root: nat -> nat, w: LayerWeights, tr: LayerTrace) {
    exists q, k :: DataFlow(root, w, tr, q, k) && Covered(w, tr, q, k)
  }

  lemma OutputAdds(cfg: ToyConfig, x: Matrix, Y: Matrix, h: Matrix, Z: Matrix, y: Matrix)
    requires Adds(cfg, x, Y, h) && Adds(cfg, h, Z, y)
    ensures Sides(ModRows(y), cfg.S, cfg.d)
    ensures forall t, j :: 0 <= t < cfg.S && 0 <= j < cfg.d ==>
      ModRows(y)[t][j] == (x[t][j] + Y[t][j] / Pow2(cfg.scaleBits) + Z[t][j] / Pow2(cfg.scaleBits)) % P
  {
    hide Pow2;
  }

  lemma UsesTables(cfg: ToyConfig, root: nat -> nat, lookups: Lookups, asked: Queries)
    requires AllNames(lookups) && AllAsked(lookups, 1)
    requires lookups[ExpTable] == asked.exp && lookups[SiluTable] == asked.silu
    requires lookups[IsqrtTable] == asked.isqrt && lookups[RecipTable] == asked.recip
    ensures var us := Uses(cfg, root, lookups);
      && |us| == 5 && TablesAre(cfg, root, us) && us[4].queries == lookups[RangeTable]
      && asked == Queries(us[0].queries, us[1].queries, us[2].queries, us[3].queries)
  {
    hide Pow2;
  }

  /** The trace of a layer that ran to its end. */
  lemma TraceFlows(cfg: ToyConfig, root: nat -> nat, w: LayerWeights, lookups: Lookups, tr: LayerTrace)
    requires WellShaped(cfg, w) && LayerStatus(cfg, root, w).Fine? && AllNames(lookups) && AllAsked(lookups, cfg.S)
    requires lookups[ExpTable] == LayerQueries(cfg, root, w).exp && lookups[SiluTable] == LayerQueries(cfg, root, w).silu
    requires lookups[IsqrtTable] == LayerQueries(cfg, root, w).isqrt && lookups[RecipTable] == LayerQueries(cfg, root, w).recip
    requires tr.cfg == cfg && tr.xIn == w.x && tr.yOut == ModRows(LayerOutput(cfg, root, w)) && tr.lookups == Uses(cfg, root, lookups)
    requires tr.matmuls == AttentionNodes(cfg, root, w) && tr.moe == LayerNodes(cfg, root, w)
    requires LayerMet(Log(tr.gates, lookups[RangeTable]), cfg, root, w)
    ensures Flows(root, w, tr)
  {
    hide QkvCovered, MixCovered, FeedCovered, LayerMet;
    hide LayerQueries, LayerStatus, LayerOutput, Uses, TablesAre, AttentionNodes, LayerNodes, Attention, Answered, Turned,
      NormFlows, Roped, ScoreFlows, SoftmaxFlows, Turns, Rescales, Exact, RoutedExact, GluFlows, ModRows, Pow2;
    LayerFlow(cfg, root, w);
    UsesTables(cfg, root, lookups, LayerQueries(cfg, root, w));
    OutputAdds(cfg, w.x, tr.matmuls[4].Y, tr.moe[0].X, tr.moe[2].Y, LayerOutput(cfg, root, w));
    LayerCovers(Log(tr.gates, lookups[RangeTable]), cfg, root, w);
    assert DataFlow(root, w, tr, Turned(cfg, root, w, w.Wq), Turned(cfg, root, w, w.Wk));
    assert Covered(w, tr, Turned(cfg, root, w, w.Wq), Turned(cfg, root, w, w.Wk));
  }

  /** The layer runs to its end exactly when every quotient of the plain integer layer is in range.
      Then, for any shape, weights and route: the output is that layer's, reduced; the trace holds, so
      the arbiter accepts it; and its counts are the closed form. */
  method ForwardLayer(cfg: ToyConfig, root: nat -> nat, w: LayerWeights) returns (st: Status, tr: LayerTrace)
    requires WellShaped(cfg, w)
    ensures st.Fine? ==> IsPredicted(cfg, tr)
    ensures st == LayerStatus(cfg, root, w)
    ensures st.Fine? ==> tr.cfg == cfg && tr.xIn == w.x && tr.route == w.route
    ensures st.Fine? ==> tr.yOut == ModRows(LayerOutput(cfg, root, w))
    ensures st.Fine? ==> Holds(tr) && Formed(tr) && Supplied(cfg, tr)
    ensures st.Fine? ==> Flows(root, w, tr)
  {
    hide *;
    st, tr := EmitLayer(cfg, root, w);
    if st.Fine? { LayerTracedIs(cfg, root, w, tr); }
  }

  /** All that is promised of the trace. */
  ghost predicate LayerTraced(cfg: ToyConfig, root: nat -> nat, w: LayerWeights, tr: LayerTrace)
    requires WellShaped(cfg, w)
  {
    hide *;
    && tr.cfg == cfg && tr.xIn == w.x && tr.route == w.route && tr.yOut == ModRows(LayerOutput(cfg, root, w))
    && Holds(tr) && Formed(tr) && Supplied(cfg, tr) && Flows(root, w, tr) && IsPredicted(cfg, tr)
  }

  lemma LayerTracedIs(cfg: ToyConfig, root: nat -> nat, w: LayerWeights, tr: LayerTrace)
    requires WellShaped(cfg, w)
    ensures LayerTraced(cfg, root, w, tr) <==>
      (&& tr.cfg == cfg && tr.xIn == w.x && tr.route == w.route && tr.yOut == ModRows(LayerOutput(cfg, root, w))
       && Holds(tr) && Formed(tr) && Supplied(cfg, tr) && Flows(root, w, tr) && IsPredicted(cfg, tr))
  {
    hide ModRows, LayerOutput, Holds, Formed, Supplied, Flows, IsPredicted, WellShaped;
  }

  /** The builder, run over both halves, and what it recorded. */
  method EmitLayer(cfg: ToyConfig, root: nat -> nat, w: LayerWeights) returns (st: Status, tr: LayerTrace)
    requires WellShaped(cfg, w)
    ensures st == LayerStatus(cfg, root, w) && (st.Fine? ==> LayerTraced(cfg, root, w, tr))
  {
    hide *;
    ShapedPositive(cfg, w);
    var b := new Builder(cfg, root);
    tr := LayerTrace(cfg, w.x, [], [], [], [], [], w.route);
    ghost var none := b.lookups;
    var y;
    st, y := RunLayer(b, w);
    if !st.Fine? { return; }
    tr := LayerTrace(cfg, w.x, ModRows(y), b.matmuls, b.moe, b.gates, Uses(cfg, root, b.lookups), w.route);
    TraceOf(b, tr);
    LayerRecordedIs(b, w, [], [], none);
    RecordFlows(b, none, w, tr);
    TracePredicted(cfg, b.Counts(), tr);
    LayerTracedIs(cfg, root, w, tr);
  }

  lemma ShapedPositive(cfg: ToyConfig, w: LayerWeights)
    requires WellShaped(cfg, w)
    ensures cfg.Positive()
  {}

  lemma TracePredicted(cfg: ToyConfig, s: Shape, tr: LayerTrace)
    requires cfg.Positive() && s == FeedCounts(cfg, AttentionCounts(cfg, NOTHING), cfg.Experts()) && TraceCounts(tr) == s
    requires QuotientWords(cfg.scaleBits, cfg.tableBits).Words? && QuotientWords(cfg.tableBits, cfg.tableBits).Words?
    ensures IsPredicted(cfg, tr)
  {
    hide FeedCounts, AttentionCounts, TraceCounts, QuotientWords;
    ClosedForm(cfg, s);
  }

  /** Its counts are the closed form. */
  predicate IsPredicted(cfg: ToyConfig, tr: LayerTrace) {
    cfg.Positive() && Predicted(cfg) == Some(TraceCounts(tr))
  }

  lemma FromEmpty(lookups: Lookups, asked: Queries, none: Lookups)
    requires Grew(none, asked, lookups) && Unasked(none)
    ensures AllNames(lookups) && lookups[ExpTable] == asked.exp && lookups[SiluTable] == asked.silu
    ensures lookups[IsqrtTable] == asked.isqrt && lookups[RecipTable] == asked.recip
  {}

  lemma RecordIs(b: Builder)
    requires AllNames(b.lookups)
    ensures RangeTable in b.lookups && b.Record() == Log(b.gates, b.lookups[RangeTable])
  {}

  lemma RecordFlows(b: Builder, none: Lookups, w: LayerWeights, tr: LayerTrace)
    requires WellShaped(b.cfg, w) && LayerStatus(b.cfg, b.root, w).Fine? && AllNames(b.lookups) && AllAsked(b.lookups, b.cfg.S)
    requires Unasked(none) && Grew(none, LayerQueries(b.cfg, b.root, w), b.lookups)
    requires tr.cfg == b.cfg && tr.xIn == w.x && tr.yOut == ModRows(LayerOutput(b.cfg, b.root, w))
    requires tr.lookups == Uses(b.cfg, b.root, b.lookups) && tr.gates == b.gates && LayerMet(b.Record(), b.cfg, b.root, w)
    requires [] + AttentionNodes(b.cfg, b.root, w) == b.matmuls == tr.matmuls && [] + LayerNodes(b.cfg, b.root, w) == b.moe == tr.moe
    ensures Flows(b.root, w, tr)
  {
    hide *;
    FromEmpty(b.lookups, LayerQueries(b.cfg, b.root, w), none);
    RecordIs(b);
    TraceFlows(b.cfg, b.root, w, b.lookups, tr);
  }

  /** What a builder recorded, as a trace. */
  lemma TraceOf(b: Builder, tr: LayerTrace)
    requires b.Sound() && b.Tidy() && AllNames(b.lookups) && AllAsked(b.lookups, b.cfg.S)
    requires tr.matmuls == b.matmuls && tr.moe == b.moe && tr.gates == b.gates && tr.lookups == Uses(b.cfg, b.root, b.lookups)
    ensures Holds(tr) && Formed(tr) && Supplied(b.cfg, tr) && TraceCounts(tr) == b.Counts()
  {
    hide Vanishes, MatmulRight, MoERight, AllRows, QueryCount, CellsOf, MoECellsOf, SlotsOf, QueryTotal, Uses, Formed, Asked, TableOf;
    UsesHit(b.cfg, b.root, b.lookups);
    UsesTotal(b.cfg, b.root, b.lookups);
    UsesAsked(b.cfg, b.root, b.lookups, b.cfg.S);
    CountsAre(b);
    RightMeansFormed(tr);
  }

  lemma CountsAre(b: Builder)
    ensures b.Counts() == Shape(|b.matmuls|, CellsOf(b.matmuls), |b.gates|, SlotsOf(b.gates), QueryCount(b.lookups),
                                |b.moe|, MoECellsOf(b.moe))
  {}

  /** The emitter against the arbiter, run one after the other. */
  method ForwardThenCheck(cfg: ToyConfig, root: nat -> nat, w: LayerWeights) returns (st: Status, ok: bool)
    requires WellShaped(cfg, w)
    ensures st == LayerStatus(cfg, root, w) && (st.Fine? <==> ok)
  {
    hide Formed, Holds, Predicted, LayerOutput, LayerStatus, Supplied;
    var tr;
    st, tr := ForwardLayer(cfg, root, w);
    ok := false;
    if st.Fine? {
      ok := CheckTrace(tr);
    }
  }

  // ------------------------------------------------------------------ closed forms

  function Formula(kr: nat, kb: nat, S: nat, d: nat, f: nat, e: nat): Shape {
    var rescaled := 9 * S * d + S * S + 3 * S * f;
    var bracketed := 2 * S + S * S + S * f;
    Shape(
      5, 4 * S * d * d + S * S * d,
      13 + 13 * S + (11 + 6 * S),
      15 * S * d + 4 * S * S + 5 * S * f + 2 * S + (rescaled + bracketed),
      9 * S * d + 2 * S * S + 4 * S * f + 2 * S + (kr * rescaled + kb * bracketed) + (2 * S + S * S + S * f),
      3, 3 * e * d * f)
  }

  /** predict_trace_shape: from the geometry alone. */
  function Predicted(cfg: ToyConfig): Option<Shape>
    requires cfg.Positive()
  {
    match (QuotientWords(cfg.scaleBits, cfg.tableBits), QuotientWords(cfg.tableBits, cfg.tableBits))
    case (Words(kr), Words(kb)) => Some(Formula(kr, kb, cfg.S, cfg.d, cfg.dff, cfg.Experts()))
    case _ => None
  }

  /** A shape with only gates, slots and queries. */
  function Plain(gates: int, slots: int, queries: int): Shape {
    NOTHING.(gates := gates, slots := slots, queries := queries)
  }

  lemma {:induction false} RepeatedPlain(n: nat, gates: int, slots: int, queries: int)
    ensures Repeated(n, Plain(gates, slots, queries)) == Plain(n * gates, n * slots, n * queries)
  {
    if n > 0 {
      RepeatedPlain(n - 1, gates, slots, queries);
      OneMore(n, gates);
      OneMore(n, slots);
      OneMore(n, queries);
    }
  }

  lemma OneMore(n: int, x: int)
    ensures (n - 1) * x + x == n * x
  {}

  /** n stages of v*m + k*m + j*m queries each. */
  lemma StageQueries(n: nat, m: nat, u: nat, v: nat, k: nat, j: nat)
    ensures n * (u * m) == u * Base(n, m)
    ensures n * (v * m + Base(k, m) + Base(j, m)) == v * Base(n, m) + Base(k, Base(n, m)) + Base(j, Base(n, m))
  {
    Interchange(n, u, m);
    Interchange(n, v, m);
    Interchange(n, k, m);
    Interchange(n, j, m);
    Distribute(n, v * m, k * m, j * m);
  }

  lemma Interchange(n: int, u: int, m: int)
    ensures n * (u * m) == u * (n * m)
  {}

  lemma Distribute(n: int, x: int, y: int, z: int)
    ensures n * (x + y + z) == n * x + n * y + n * z
  {}

  lemma ZeroWords(m: nat)
    ensures Base(0, m) == 0
  {}

  lemma RepeatedMul(cfg: ToyConfig, n: nat, m: nat, kr: nat)
    requires cfg.Positive() && QuotientWords(cfg.scaleBits, cfg.tableBits) == Words(kr)
    ensures Repeated(n, MulShape(cfg, m)) == Plain(n * 3, 3 * Base(n, m), Base(n, m) + Base(kr, Base(n, m)))
  {
    hide Base, QuotientWords;
    ZeroWords(m);
    ZeroWords(Base(n, m));
    assert MulShape(cfg, m) == Plain(3, 3 * m, 1 * m + Base(kr, m) + Base(0, m));
    RepeatedPlain(n, 3, 3 * m, 1 * m + Base(kr, m) + Base(0, m));
    StageQueries(n, m, 3, 1, kr, 0);
  }

  lemma RepeatedGate(n: nat, m: nat)
    ensures Repeated(n, GateShape(m)) == Plain(n, Base(n, m), 0)
  {
    hide Base;
    ZeroWords(m);
    ZeroWords(Base(n, m));
    assert GateShape(m) == Plain(1, 1 * m, 0 * m + Base(0, m) + Base(0, m));
    RepeatedPlain(n, 1, 1 * m, 0 * m + Base(0, m) + Base(0, m));
    StageQueries(n, m, 1, 0, 0, 0);
  }

  lemma RepeatedGlu(cfg: ToyConfig, n: nat, kr: nat, kb: nat)
    requires cfg.Positive() && QuotientWords(cfg.scaleBits, cfg.tableBits) == Words(kr)
    requires QuotientWords(cfg.tableBits, cfg.tableBits) == Words(kb)
    ensures var m := Base(n, cfg.dff);
      Repeated(n, GluShape(cfg)) == Plain(n * 5, 5 * m, 3 * m + Base(kr, m) + Base(kb, m))
  {
    hide Base, QuotientWords;
    var m := cfg.dff;
    assert GluShape(cfg) == Plain(5, 5 * m, 3 * m + Base(kr, m) + Base(kb, m));
    RepeatedPlain(n, 5, 5 * m, 3 * m + Base(kr, m) + Base(kb, m));
    StageQueries(n, m, 5, 3, kr, kb);
  }

  ghost predicate Sizes(cfg: ToyConfig, kr: nat, kb: nat, a: nat, b: nat, c: nat) {
    && cfg.Positive() && QuotientWords(cfg.scaleBits, cfg.tableBits) == Words(kr)
    && QuotientWords(cfg.tableBits, cfg.tableBits) == Words(kb)
    && a == Base(cfg.S, cfg.d) && b == Base(cfg.S, cfg.S) && c == Base(cfg.S, cfg.dff)
  }

  lemma LookFields(cfg: ToyConfig, kr: nat, kb: nat, a: nat, b: nat, c: nat, m: nat)
    requires Sizes(cfg, kr, kb, a, b, c)
    ensures LookShape(cfg, m) == Plain(2, 2 * m, 2 * m + Base(kb, m))
    ensures RescaleShape(cfg, m) == Plain(2, 2 * m, m + Base(kr, m))
    ensures GateShape(m) == Plain(1, m, 0)
  {
    hide Base, QuotientWords;
  }

  lemma NormFields(cfg: ToyConfig, kr: nat, kb: nat, a: nat, b: nat, c: nat)
    requires Sizes(cfg, kr, kb, a, b, c)
    ensures NormShape(cfg) == Plain(3 + 3 * cfg.S, 4 * a + 2 * cfg.S, 2 * cfg.S + a + Base(kr, a) + Base(kb, cfg.S))
    ensures ScoreShape(cfg) == Plain(3, 3 * b, 2 * b + Base(kb, b))
    ensures SoftmaxShape(cfg) == Plain(2 + 3 * cfg.S, 2 * cfg.S + 3 * b, 2 * cfg.S + b + Base(kr, b) + Base(kb, cfg.S))
  {
    RepeatedMul(cfg, cfg.S, cfg.d, kr);
    RepeatedMul(cfg, cfg.S, cfg.S, kr);
    LookFields(cfg, kr, kb, a, b, c, cfg.S);
    LookFields(cfg, kr, kb, a, b, c, b);
    LookFields(cfg, kr, kb, a, b, c, a);
    hide Base, QuotientWords, Repeated, MulShape, LookShape, GateShape, RescaleShape;
  }

  lemma QkvFields(cfg: ToyConfig, kr: nat, kb: nat, a: nat, b: nat, c: nat, s: Shape)
    requires Sizes(cfg, kr, kb, a, b, c)
    ensures QkvCounts(cfg, s) == s.Plus(Shape(3, 3 * (cfg.S * cfg.d * cfg.d), 6 + 6 * cfg.S, 12 * a,
                                              5 * a + 5 * Base(kr, a), 0, 0))
  {
    RepeatedMul(cfg, cfg.S, cfg.d, kr);
    LookFields(cfg, kr, kb, a, b, c, a);
    hide Base, QuotientWords, Repeated, MulShape, RescaleShape;
    var cells := cfg.S * cfg.d * cfg.d;
    assert MatmulShape(cfg, cfg.S, cfg.d, cfg.d) == Shape(1, cells, 2, 2 * a, a + Base(kr, a), 0, 0);
    hide MatmulShape;
  }

  lemma MixFields(cfg: ToyConfig, kr: nat, kb: nat, a: nat, b: nat, c: nat, s: Shape)
    requires Sizes(cfg, kr, kb, a, b, c)
    ensures MixCounts(cfg, s) == s.Plus(Shape(
      2, cfg.S * cfg.d * cfg.S + cfg.S * cfg.d * cfg.d, 9 + 3 * cfg.S, 4 * a + 6 * b + 2 * cfg.S,
      2 * cfg.S + 2 * a + 3 * b + 2 * Base(kr, a) + Base(kr, b) + Base(kb, b) + Base(kb, cfg.S), 0, 0))
  {
    NormFields(cfg, kr, kb, a, b, c);
    LookFields(cfg, kr, kb, a, b, c, a);
    hide Base, QuotientWords, Repeated, ScoreShape, SoftmaxShape, RescaleShape;
    var cells, mixed := cfg.S * cfg.d * cfg.d, cfg.S * cfg.d * cfg.S;
    assert MatmulShape(cfg, cfg.S, cfg.d, cfg.d) == Shape(1, cells, 2, 2 * a, a + Base(kr, a), 0, 0);
    assert MatmulShape(cfg, cfg.S, cfg.d, cfg.S) == Shape(1, mixed, 2, 2 * a, a + Base(kr, a), 0, 0);
    hide MatmulShape;
  }

  lemma FeedFields(cfg: ToyConfig, kr: nat, kb: nat, a: nat, b: nat, c: nat, s: Shape, e: nat)
    requires Sizes(cfg, kr, kb, a, b, c)
    ensures FeedCounts(cfg, s, e) == s.Plus(Shape(
      0, 0, 6 + 6 * cfg.S, 3 * a + 9 * c, a + 5 * c + Base(kr, a) + 3 * Base(kr, c) + Base(kb, c),
      3, 2 * (e * cfg.dff * cfg.d) + e * cfg.d * cfg.dff))
  {
    RepeatedGate(cfg.S, cfg.d);
    RepeatedGlu(cfg, cfg.S, kr, kb);
    LookFields(cfg, kr, kb, a, b, c, a);
    LookFields(cfg, kr, kb, a, b, c, c);
    hide Base, QuotientWords, Repeated, GluShape, GateShape, RescaleShape;
    var up, down := e * cfg.dff * cfg.d, e * cfg.d * cfg.dff;
    assert MoEShape(cfg, cfg.S, e, cfg.dff, cfg.d) == Shape(0, 0, 2, 2 * c, c + Base(kr, c), 1, up);
    assert MoEShape(cfg, cfg.S, e, cfg.d, cfg.dff) == Shape(0, 0, 2, 2 * a, a + Base(kr, a), 1, down);
    hide MoEShape;
  }

  /** The counts in the products a = S*d, b = S*S, c = S*f. */
  function Expanded(kr: nat, kb: nat, S: nat, d: nat, f: nat, a: nat, b: nat, c: nat, e: nat): Shape {
    Shape(
      5, 4 * (S * d * d) + S * d * S, 24 + 19 * S, 24 * a + 6 * b + 9 * c + 4 * S,
      9 * a + 3 * b + 5 * c + 4 * S + (9 * Base(kr, a) + Base(kr, b) + 3 * Base(kr, c))
      + (2 * Base(kb, S) + Base(kb, b) + Base(kb, c)),
      3, 2 * (e * f * d) + e * d * f)
  }

  /** The counts of all stages in sequence, in the products of the sizes. */
  lemma StageTotals(cfg: ToyConfig, kr: nat, kb: nat, a: nat, b: nat, c: nat)
    requires Sizes(cfg, kr, kb, a, b, c)
    ensures FeedCounts(cfg, AttentionCounts(cfg, NOTHING), cfg.Experts())
            == Expanded(kr, kb, cfg.S, cfg.d, cfg.dff, a, b, c, cfg.Experts())
  {
    NormFields(cfg, kr, kb, a, b, c);
    var s := NOTHING.Plus(NormShape(cfg));
    QkvFields(cfg, kr, kb, a, b, c, s);
    MixFields(cfg, kr, kb, a, b, c, QkvCounts(cfg, s));
    RepeatedGate(cfg.S, cfg.d);
    FeedFields(cfg, kr, kb, a, b, c, AttentionCounts(cfg, NOTHING), cfg.Experts());
    hide Base, QuotientWords, Repeated, NormShape, QkvCounts, MixCounts, FeedCounts, GateShape, ToyConfig.Experts;
  }

  lemma ClosedForm(cfg: ToyConfig, s: Shape)
    requires cfg.Positive() && s == FeedCounts(cfg, AttentionCounts(cfg, NOTHING), cfg.Experts())
    requires QuotientWords(cfg.scaleBits, cfg.tableBits).Words? && QuotientWords(cfg.tableBits, cfg.tableBits).Words?
    ensures Predicted(cfg) == Some(s)
  {
    var kr, kb := QuotientWords(cfg.scaleBits, cfg.tableBits).k, QuotientWords(cfg.tableBits, cfg.tableBits).k;
    var a, b, c := Base(cfg.S, cfg.d), Base(cfg.S, cfg.S), Base(cfg.S, cfg.dff);
    SizesAre(cfg, kr, kb);
    PredictedIs(cfg, kr, kb);
    assert cfg.Positive();
    hide *;
    StageTotals(cfg, kr, kb, a, b, c);
    FormulaIs(kr, kb, cfg.S, cfg.d, cfg.dff, a, b, c, cfg.Experts());
  }

  lemma SizesAre(cfg: ToyConfig, kr: nat, kb: nat)
    requires cfg.Positive() && QuotientWords(cfg.scaleBits, cfg.tableBits) == Words(kr)
    requires QuotientWords(cfg.tableBits, cfg.tableBits) == Words(kb)
    ensures Sizes(cfg, kr, kb, Base(cfg.S, cfg.d), Base(cfg.S, cfg.S), Base(cfg.S, cfg.dff))
  {
    hide QuotientWords;
  }

  lemma PredictedIs(cfg: ToyConfig, kr: nat, kb: nat)
    requires cfg.Positive() && QuotientWords(cfg.scaleBits, cfg.tableBits) == Words(kr)
    requires QuotientWords(cfg.tableBits, cfg.tableBits) == Words(kb)
    ensures Predicted(cfg) == Some(Formula(kr, kb, cfg.S, cfg.d, cfg.dff, cfg.Experts()))
  {
    hide QuotientWords, Formula;
  }

  lemma FormulaIs(kr: nat, kb: nat, S: nat, d: nat, f: nat, a: nat, b: nat, c: nat, e: nat)
    requires a == Base(S, d) && b == Base(S, S) && c == Base(S, f)
    ensures Formula(kr, kb, S, d, f, e) == Expanded(kr, kb, S, d, f, a, b, c, e)
  {
    Scaled3(9, S, d);
    Scaled3(2, S, S);
    Scaled3(15, S, d);
    Scaled3(4, S, S);
    Scaled3(3, S, f);
    Scaled3(4, S, f);
    Scaled3(5, S, f);
    Distribute3(kr, 9, a, b, 3, c);
    Distribute3(kb, 2, S, b, 1, c);
    Commute3(e, d, f);
    Commute3(S, S, d);
    Quarter(S, d);
    WordProducts(kr, a, b, c);
    WordProducts(kb, S, b, c);
  }

  lemma WordProducts(k: nat, a: nat, b: nat, c: nat)
    ensures Base(k, a) == k * a && Base(k, b) == k * b && Base(k, c) == k * c
  {}

  lemma Quarter(S: int, d: int)
    ensures 4 * S * d * d == 4 * (S * d * d)
  {}

  lemma Scaled3(k: int, x: int, y: int)
    ensures k * x * y == k * (x * y)
  {}

  lemma Commute3(x: int, y: int, z: int)
    ensures x * y * z == x * z * y && 3 * x * y * z == 2 * (x * z * y) + x * y * z
  {
    assert 3 * x * y * z == 3 * (x * y * z);
    assert x * y * z == x * z * y;
  }

  lemma Distribute3(k: int, p: int, a: int, b: int, q: int, c: int)
    ensures k * (p * a + b + q * c) == p * (k * a) + k * b + q * (k * c)
  {
    assert k * (p * a) == p * (k * a) && k * (q * c) == q * (k * c);
  }
}
