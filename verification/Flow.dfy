/** What a layer's trace of layergkr/semantics.py records, in order: its contractions and its queries; that
    each of them is fed by the recorded results before it; and that every step in between, which is not
    recorded as such, has its gates and range queries. */
module Flow {
  import opened NumberTheory
  import opened Field
  import opened Polynomial
  import opened Lifting
  import opened Rows
  import opened Semantics
  import opened Forward
  import opened Demands

  function Node(name: string, X: Matrix, W: Matrix, nIn: nat): Matmul {
    MatmulNode(name, X, W, ModRows(Raws(X, W, nIn)))
  }

  function RoutedNode(name: string, route: seq<nat>, X: Matrix, W: seq<Matrix>, dOut: nat, dIn: nat): MoEMatmul
    requires Stack(W, dOut, dIn) && Routed(route, |X|, |W|)
  {
    MoENode(name, route, X, W, ModRows(RoutedRaws(X, W, route, dOut, dIn)))
  }

  function QkvNodes(cfg: ToyConfig, xn: Matrix, w: LayerWeights): seq<Matmul> {
    [Node("Wq", xn, w.Wq, cfg.d), Node("Wk", xn, w.Wk, cfg.d), Node("Wv", xn, w.Wv, cfg.d)]
  }

  function MixNodes(cfg: ToyConfig, root: nat -> nat, q: Matrix, k: Matrix, v: Matrix, Wo: Matrix): seq<Matmul>
    requires |k| == cfg.S
  {
    var p := Softmax(cfg, root, Exponentials(cfg, root, q, k));
    var a := Linear(cfg, p, Transposed(v, cfg.d), cfg.S);
    [Node("attn_pv", p, Transposed(v, cfg.d), cfg.S), Node("Wo", a, Wo, cfg.d)]
  }

  function MixQueries(cfg: ToyConfig, root: nat -> nat, q: Matrix, k: Matrix): Queries {
    LookedUp(cfg, root, ExpTable, Flat(ModRows(Scores(q, k, cfg.d))))
    .Then(LookedUp(cfg, root, RecipTable, RowSums(Exponentials(cfg, root, q, k))))
  }

  function Turned(cfg: ToyConfig, root: nat -> nat, w: LayerWeights, W: Matrix): (r: Matrix)
    requires WellShaped(cfg, w) && |W| == cfg.d
    ensures Sides(r, cfg.S, cfg.d)
  {
    Rope(cfg, Linear(cfg, Normed(cfg, root, w.x), W, cfg.d), w.cos, w.sin)
  }

  function AttentionNodes(cfg: ToyConfig, root: nat -> nat, w: LayerWeights): seq<Matmul>
    requires WellShaped(cfg, w)
  {
    var xn := Normed(cfg, root, w.x);
    QkvNodes(cfg, xn, w)
    + MixNodes(cfg, root, Turned(cfg, root, w, w.Wq), Turned(cfg, root, w, w.Wk), Linear(cfg, xn, w.Wv, cfg.d), w.Wo)
  }

  function AttentionQueries(cfg: ToyConfig, root: nat -> nat, w: LayerWeights): Queries
    requires WellShaped(cfg, w)
  {
    LookedUp(cfg, root, IsqrtTable, ModP(SquareSums(w.x, cfg.d)))
    .Then(MixQueries(cfg, root, Turned(cfg, root, w, w.Wq), Turned(cfg, root, w, w.Wk)))
  }

  function FeedNodes(cfg: ToyConfig, root: nat -> nat, h: Matrix, experts: seq<Expert>, route: seq<nat>): seq<MoEMatmul>
    requires FeedShaped(cfg, h, experts, route)
  {
    var g := RoutedLinear(cfg, h, Gates3(experts), route, cfg.dff, cfg.d);
    var u := RoutedLinear(cfg, h, Ups3(experts), route, cfg.dff, cfg.d);
    [RoutedNode("moe_gate", route, h, Gates3(experts), cfg.dff, cfg.d),
     RoutedNode("moe_up", route, h, Ups3(experts), cfg.dff, cfg.d),
     RoutedNode("moe_down", route, SwiGlu(cfg, root, g, u), Downs3(experts), cfg.d, cfg.dff)]
  }

  function FeedQueries(cfg: ToyConfig, root: nat -> nat, h: Matrix, experts: seq<Expert>, route: seq<nat>): Queries
    requires FeedShaped(cfg, h, experts, route)
  {
    LookedUp(cfg, root, SiluTable, Flat(RoutedLinear(cfg, h, Gates3(experts), route, cfg.dff, cfg.d)))
  }

  function LayerNodes(cfg: ToyConfig, root: nat -> nat, w: LayerWeights): seq<MoEMatmul>
    requires WellShaped(cfg, w)
  {
    WeightsFeed(cfg, w, Attention(cfg, root, w));
    FeedNodes(cfg, root, Attention(cfg, root, w), w.experts, w.route)
  }

  function LayerQueries(cfg: ToyConfig, root: nat -> nat, w: LayerWeights): Queries
    requires WellShaped(cfg, w)
  {
    WeightsFeed(cfg, w, Attention(cfg, root, w));
    AttentionQueries(cfg, root, w).Then(FeedQueries(cfg, root, Attention(cfg, root, w), w.experts, w.route))
  }

  lemma LayerRecords(cfg: ToyConfig, root: nat -> nat, w: LayerWeights)
    requires WellShaped(cfg, w)
    ensures var h := Attention(cfg, root, w);
      && FeedShaped(cfg, h, w.experts, w.route)
      && LayerNodes(cfg, root, w) == FeedNodes(cfg, root, h, w.experts, w.route)
      && LayerQueries(cfg, root, w) == AttentionQueries(cfg, root, w).Then(FeedQueries(cfg, root, h, w.experts, w.route))
  {
    WeightsFeed(cfg, w, Attention(cfg, root, w));
    hide Attention, FeedShaped, FeedNodes, FeedQueries, AttentionQueries, Queries.Then;
  }

  /** Looking up one list after another. */
  lemma LookedUpMore(cfg: ToyConfig, root: nat -> nat, name: TableName, rows: Matrix, t: nat)
    requires t < |rows|
    ensures LookedUp(cfg, root, name, Flat(rows[..t])).Then(LookedUp(cfg, root, name, rows[t]))
            == LookedUp(cfg, root, name, Flat(rows[..t + 1]))
  {
    hide TableEntry;
    assert rows[..t + 1][..t] == rows[..t];
    var u, v := Flat(rows[..t]), rows[t];
    assert Flat(rows[..t + 1]) == u + v;
    assert Lows(cfg, u + v) == Lows(cfg, u) + Lows(cfg, v);
    assert Nonlinear(cfg, root, name, u + v) == Nonlinear(cfg, root, name, u) + Nonlinear(cfg, root, name, v);
    assert Pairs(Lows(cfg, u + v), Nonlinear(cfg, root, name, u + v))
        == Pairs(Lows(cfg, u), Nonlinear(cfg, root, name, u)) + Pairs(Lows(cfg, v), Nonlinear(cfg, root, name, v));
  }

  lemma LookedUpNone(cfg: ToyConfig, root: nat -> nat, name: TableName)
    ensures LookedUp(cfg, root, name, Flat([])) == NO_QUERIES
  {}

  // --------------------------------------------------- what the stages put on record

  ghost predicate LinearMet(log: Log, cfg: ToyConfig, X: Matrix, W: Matrix, nIn: nat) {
    Met(log, cfg.tableBits, Div(cfg.scaleBits, Flat(Raws(X, W, nIn))))
  }

  ghost predicate RoutedMet(log: Log, cfg: ToyConfig, X: Matrix, W: seq<Matrix>, route: seq<nat>, dOut: nat, dIn: nat)
    requires Stack(W, dOut, dIn) && Routed(route, |X|, |W|)
  {
    Met(log, cfg.tableBits, Div(cfg.scaleBits, Flat(RoutedRaws(X, W, route, dOut, dIn))))
  }

  ghost predicate QkvMet(log: Log, cfg: ToyConfig, xn: Matrix, w: LayerWeights)
    requires WellShaped(cfg, w)
  {
    var q, k := Linear(cfg, xn, w.Wq, cfg.d), Linear(cfg, xn, w.Wk, cfg.d);
    && LinearMet(log, cfg, xn, w.Wq, cfg.d) && LinearMet(log, cfg, xn, w.Wk, cfg.d) && LinearMet(log, cfg, xn, w.Wv, cfg.d)
    && RopeMet(log, cfg, q, w.cos, w.sin, |q|) && RopeMet(log, cfg, k, w.cos, w.sin, |k|)
  }

  ghost predicate MixMet(log: Log, cfg: ToyConfig, root: nat -> nat, q: Matrix, k: Matrix, v: Matrix, Wo: Matrix)
    requires |k| == cfg.S
  {
    var e := Exponentials(cfg, root, q, k);
    var p := Softmax(cfg, root, e);
    && ScoreMet(log, cfg, q, k) && SoftmaxMet(log, cfg, root, e)
    && LinearMet(log, cfg, p, Transposed(v, cfg.d), cfg.S)
    && LinearMet(log, cfg, Linear(cfg, p, Transposed(v, cfg.d), cfg.S), Wo, cfg.d)
  }

  /** What the output projection returns. */
  function Mixed(cfg: ToyConfig, root: nat -> nat, w: LayerWeights): (o: Matrix)
    requires WellShaped(cfg, w)
    ensures Sides(o, cfg.S, cfg.d)
  {
    var p := Softmax(cfg, root, Exponentials(cfg, root, Turned(cfg, root, w, w.Wq), Turned(cfg, root, w, w.Wk)));
    var v := Linear(cfg, Normed(cfg, root, w.x), w.Wv, cfg.d);
    Linear(cfg, Linear(cfg, p, Transposed(v, cfg.d), cfg.S), w.Wo, cfg.d)
  }

  ghost predicate AttentionMet(log: Log, cfg: ToyConfig, root: nat -> nat, w: LayerWeights)
    requires WellShaped(cfg, w)
  {
    var xn := Normed(cfg, root, w.x);
    && NormMet(log, cfg, root, w.x) && QkvMet(log, cfg, xn, w)
    && MixMet(log, cfg, root, Turned(cfg, root, w, w.Wq), Turned(cfg, root, w, w.Wk), Linear(cfg, xn, w.Wv, cfg.d), w.Wo)
    && AddMet(log, cfg.tableBits, w.x, Mixed(cfg, root, w), cfg.S)
  }

  /** The first t rows of the gated product. */
  ghost predicate GluMet(log: Log, cfg: ToyConfig, root: nat -> nat, g: Matrix, u: Matrix, t: nat)
    requires |g| == |u| && AllWide(g, cfg.dff) && AllWide(u, cfg.dff) && t <= |g|
  {
    forall i :: 0 <= i < t ==> GluRowMet(log, cfg, root, g[i], u[i])
  }

  ghost predicate GluRowMet(log: Log, cfg: ToyConfig, root: nat -> nat, g: seq<int>, u: seq<int>)
    requires |g| == |u|
  {
    && Met(log, cfg.tableBits, Div(cfg.tableBits, g))
    && Met(log, cfg.tableBits, Mul(Nonlinear(cfg, root, SiluTable, g), u))
    && Met(log, cfg.tableBits, Div(cfg.scaleBits, Times(Nonlinear(cfg, root, SiluTable, g), u)))
  }

  ghost predicate FeedMet(log: Log, cfg: ToyConfig, root: nat -> nat, h: Matrix, experts: seq<Expert>, route: seq<nat>)
    requires FeedShaped(cfg, h, experts, route)
  {
    var g := RoutedLinear(cfg, h, Gates3(experts), route, cfg.dff, cfg.d);
    var u := RoutedLinear(cfg, h, Ups3(experts), route, cfg.dff, cfg.d);
    var f := SwiGlu(cfg, root, g, u);
    && RoutedMet(log, cfg, h, Gates3(experts), route, cfg.dff, cfg.d)
    && RoutedMet(log, cfg, h, Ups3(experts), route, cfg.dff, cfg.d)
    && GluMet(log, cfg, root, g, u, |g|)
    && RoutedMet(log, cfg, f, Downs3(experts), route, cfg.d, cfg.dff)
    && AddMet(log, cfg.tableBits, h, RoutedLinear(cfg, f, Downs3(experts), route, cfg.d, cfg.dff), |h|)
  }

  lemma LinearMetStays(a: Log, b: Log, cfg: ToyConfig, X: Matrix, W: Matrix, nIn: nat)
    requires Extends(a, b) && LinearMet(a, cfg, X, W, nIn)
    ensures LinearMet(b, cfg, X, W, nIn)
  {
    MetStays(a, b, cfg.tableBits, Div(cfg.scaleBits, Flat(Raws(X, W, nIn))));
  }

  lemma RoutedMetStays(a: Log, b: Log, cfg: ToyConfig, X: Matrix, W: seq<Matrix>, route: seq<nat>, dOut: nat, dIn: nat)
    requires Stack(W, dOut, dIn) && Routed(route, |X|, |W|) && Extends(a, b) && RoutedMet(a, cfg, X, W, route, dOut, dIn)
    ensures RoutedMet(b, cfg, X, W, route, dOut, dIn)
  {
    MetStays(a, b, cfg.tableBits, Div(cfg.scaleBits, Flat(RoutedRaws(X, W, route, dOut, dIn))));
  }

  lemma ScaleMetStays(a: Log, b: Log, cfg: ToyConfig, rows: Matrix, c: seq<int>, width: nat)
    requires |c| == |rows| && AllWide(rows, width) && Extends(a, b) && ScaleMet(a, cfg, rows, c, width, |rows|)
    ensures ScaleMet(b, cfg, rows, c, width, |rows|)
  {
    hide Extends, Met;
    AllStay(a, b, cfg.tableBits);
  }

  lemma ScoresMetStay(a: Log, b: Log, cfg: ToyConfig, root: nat -> nat, q: Matrix, k: Matrix)
    requires |q| == |k| == cfg.S && Extends(a, b) && ScoreMet(a, cfg, q, k)
    ensures ScoreMet(b, cfg, q, k)
  {
    hide Extends, Met, CausalMask, Scores;
    AllStay(a, b, cfg.tableBits);
  }

  lemma SoftmaxMetStays(a: Log, b: Log, cfg: ToyConfig, root: nat -> nat, e: Matrix)
    requires AllWide(e, cfg.S) && Extends(a, b) && SoftmaxMet(a, cfg, root, e)
    ensures SoftmaxMet(b, cfg, root, e)
  {
    hide Extends, Met, Nonlinear, RowSums, ScaleMet;
    MetStays(a, b, cfg.tableBits, Div(cfg.tableBits, RowSums(e)));
    ScaleMetStays(a, b, cfg, e, Nonlinear(cfg, root, RecipTable, RowSums(e)), cfg.S);
  }

  lemma QkvMetStays(a: Log, b: Log, cfg: ToyConfig, xn: Matrix, w: LayerWeights)
    requires WellShaped(cfg, w) && Extends(a, b) && QkvMet(a, cfg, xn, w)
    ensures QkvMet(b, cfg, xn, w)
  {
    hide Extends, Met, RopeMet, Linear, LinearMet;
    LinearMetStays(a, b, cfg, xn, w.Wq, cfg.d);
    LinearMetStays(a, b, cfg, xn, w.Wk, cfg.d);
    LinearMetStays(a, b, cfg, xn, w.Wv, cfg.d);
    RopeMetStays(a, b, cfg, Linear(cfg, xn, w.Wq, cfg.d), w.cos, w.sin);
    RopeMetStays(a, b, cfg, Linear(cfg, xn, w.Wk, cfg.d), w.cos, w.sin);
  }

  lemma MixMetStays(a: Log, b: Log, cfg: ToyConfig, root: nat -> nat, q: Matrix, k: Matrix, v: Matrix, Wo: Matrix)
    requires |q| == |k| == cfg.S && Extends(a, b) && MixMet(a, cfg, root, q, k, v, Wo)
    ensures MixMet(b, cfg, root, q, k, v, Wo)
  {
    hide Extends, Met, ScoreMet, SoftmaxMet, LinearMet, Linear, Exponentials, Softmax, Transposed;
    var e := Exponentials(cfg, root, q, k);
    var p := Softmax(cfg, root, e);
    ScoresMetStay(a, b, cfg, root, q, k);
    SoftmaxMetStays(a, b, cfg, root, e);
    LinearMetStays(a, b, cfg, p, Transposed(v, cfg.d), cfg.S);
    LinearMetStays(a, b, cfg, Linear(cfg, p, Transposed(v, cfg.d), cfg.S), Wo, cfg.d);
  }

  lemma AttentionMetStays(a: Log, b: Log, cfg: ToyConfig, root: nat -> nat, w: LayerWeights)
    requires WellShaped(cfg, w) && Extends(a, b) && AttentionMet(a, cfg, root, w)
    ensures AttentionMet(b, cfg, root, w)
  {
    hide Extends, Met, NormMet, QkvMet, MixMet, AddMet, Turned, Normed, Linear, Mixed;
    NormMetStays(a, b, cfg, root, w.x);
    QkvMetStays(a, b, cfg, Normed(cfg, root, w.x), w);
    MixMetStays(a, b, cfg, root, Turned(cfg, root, w, w.Wq), Turned(cfg, root, w, w.Wk),
                Linear(cfg, Normed(cfg, root, w.x), w.Wv, cfg.d), w.Wo);
    AddMetStays(a, b, cfg.tableBits, w.x, Mixed(cfg, root, w));
  }

  lemma AddMetStays(a: Log, b: Log, wb: nat, x: Matrix, y: Matrix)
    requires |x| == |y| && Extends(a, b) && AddMet(a, wb, x, y, |x|)
    ensures AddMet(b, wb, x, y, |x|)
  {
    hide Extends, Met;
    AllStay(a, b, wb);
  }

  lemma GluMetMore(a: Log, b: Log, cfg: ToyConfig, root: nat -> nat, g: Matrix, u: Matrix, t: nat)
    requires |g| == |u| && AllWide(g, cfg.dff) && AllWide(u, cfg.dff) && t < |g| && Extends(a, b)
    requires GluMet(a, cfg, root, g, u, t) && GluRowMet(b, cfg, root, g[t], u[t])
    ensures GluMet(b, cfg, root, g, u, t + 1)
  {
    hide Extends, Met, GluRowMet;
    forall i | 0 <= i < t ensures GluRowMet(b, cfg, root, g[i], u[i]) { GluRowMetStays(a, b, cfg, root, g[i], u[i]); }
  }

  lemma GluRowMetStays(a: Log, b: Log, cfg: ToyConfig, root: nat -> nat, g: seq<int>, u: seq<int>)
    requires |g| == |u| && Extends(a, b) && GluRowMet(a, cfg, root, g, u)
    ensures GluRowMet(b, cfg, root, g, u)
  {
    hide Extends, Met, Nonlinear, Times;
    AllStay(a, b, cfg.tableBits);
  }

  lemma GluMetStays(a: Log, b: Log, cfg: ToyConfig, root: nat -> nat, g: Matrix, u: Matrix)
    requires |g| == |u| && AllWide(g, cfg.dff) && AllWide(u, cfg.dff) && Extends(a, b) && GluMet(a, cfg, root, g, u, |g|)
    ensures GluMet(b, cfg, root, g, u, |g|)
  {
    hide Extends, GluRowMet;
    forall i | 0 <= i < |g| ensures GluRowMet(b, cfg, root, g[i], u[i]) { GluRowMetStays(a, b, cfg, root, g[i], u[i]); }
  }

  lemma GluMetNone(log: Log, cfg: ToyConfig, root: nat -> nat, g: Matrix, u: Matrix)
    requires |g| == |u| && AllWide(g, cfg.dff) && AllWide(u, cfg.dff)
    ensures GluMet(log, cfg, root, g, u, 0)
  {}

  ghost predicate LayerMet(log: Log, cfg: ToyConfig, root: nat -> nat, w: LayerWeights)
    requires WellShaped(cfg, w)
  {
    WeightsFeed(cfg, w, Attention(cfg, root, w));
    AttentionMet(log, cfg, root, w) && FeedMet(log, cfg, root, Attention(cfg, root, w), w.experts, w.route)
  }

  lemma LayerMetIs(log: Log, cfg: ToyConfig, root: nat -> nat, w: LayerWeights)
    requires WellShaped(cfg, w)
    ensures FeedShaped(cfg, Attention(cfg, root, w), w.experts, w.route)
    ensures LayerMet(log, cfg, root, w)
            <==> AttentionMet(log, cfg, root, w) && FeedMet(log, cfg, root, Attention(cfg, root, w), w.experts, w.route)
  {
    WeightsFeed(cfg, w, Attention(cfg, root, w));
    hide Attention, FeedShaped, FeedMet, AttentionMet;
  }

  // -------------------------------------------- each from the moments between its steps

  lemma QkvMetBy(a: Log, b: Log, c: Log, d: Log, e: Log, cfg: ToyConfig, xn: Matrix, w: LayerWeights)
    requires WellShaped(cfg, w) && Extends(a, b) && Extends(b, c) && Extends(c, d) && Extends(d, e)
    requires LinearMet(a, cfg, xn, w.Wq, cfg.d) && LinearMet(b, cfg, xn, w.Wk, cfg.d) && LinearMet(c, cfg, xn, w.Wv, cfg.d)
    requires RopeMet(d, cfg, Linear(cfg, xn, w.Wq, cfg.d), w.cos, w.sin, |Linear(cfg, xn, w.Wq, cfg.d)|)
    requires RopeMet(e, cfg, Linear(cfg, xn, w.Wk, cfg.d), w.cos, w.sin, |Linear(cfg, xn, w.Wk, cfg.d)|)
    ensures QkvMet(e, cfg, xn, w)
  {
    hide Extends, LinearMet, RopeMet, Linear;
    ExtendsThrough(c, d, e);
    ExtendsThrough(b, c, e);
    ExtendsThrough(a, b, e);
    LinearMetStays(a, e, cfg, xn, w.Wq, cfg.d);
    LinearMetStays(b, e, cfg, xn, w.Wk, cfg.d);
    LinearMetStays(c, e, cfg, xn, w.Wv, cfg.d);
    RopeMetStays(d, e, cfg, Linear(cfg, xn, w.Wq, cfg.d), w.cos, w.sin);
  }

  lemma MixMetBy(a: Log, b: Log, c: Log, d: Log, cfg: ToyConfig, root: nat -> nat, q: Matrix, k: Matrix, v: Matrix, Wo: Matrix)
    requires |q| == |k| == cfg.S && Extends(a, b) && Extends(b, c) && Extends(c, d)
    requires ScoreMet(a, cfg, q, k) && SoftmaxMet(b, cfg, root, Exponentials(cfg, root, q, k))
    requires var p := Softmax(cfg, root, Exponentials(cfg, root, q, k));
      && LinearMet(c, cfg, p, Transposed(v, cfg.d), cfg.S)
      && LinearMet(d, cfg, Linear(cfg, p, Transposed(v, cfg.d), cfg.S), Wo, cfg.d)
    ensures MixMet(d, cfg, root, q, k, v, Wo)
  {
    hide Extends, LinearMet, ScoreMet, SoftmaxMet, Linear, Exponentials, Softmax, Transposed;
    ExtendsThrough(b, c, d);
    ExtendsThrough(a, b, d);
    ScoresMetStay(a, d, cfg, root, q, k);
    SoftmaxMetStays(b, d, cfg, root, Exponentials(cfg, root, q, k));
    LinearMetStays(c, d, cfg, Softmax(cfg, root, Exponentials(cfg, root, q, k)), Transposed(v, cfg.d), cfg.S);
  }

  lemma AttentionMetBy(a: Log, b: Log, c: Log, d: Log, cfg: ToyConfig, root: nat -> nat, w: LayerWeights)
    requires WellShaped(cfg, w) && Extends(a, b) && Extends(b, c) && Extends(c, d)
    requires NormMet(a, cfg, root, w.x) && QkvMet(b, cfg, Normed(cfg, root, w.x), w)
    requires MixMet(c, cfg, root, Turned(cfg, root, w, w.Wq), Turned(cfg, root, w, w.Wk),
                    Linear(cfg, Normed(cfg, root, w.x), w.Wv, cfg.d), w.Wo)
    requires AddMet(d, cfg.tableBits, w.x, Mixed(cfg, root, w), cfg.S)
    ensures AttentionMet(d, cfg, root, w)
  {
    hide Extends, NormMet, QkvMet, MixMet, AddMet, Turned, Normed, Linear, Mixed;
    ExtendsThrough(b, c, d);
    ExtendsThrough(a, b, d);
    NormMetStays(a, d, cfg, root, w.x);
    QkvMetStays(b, d, cfg, Normed(cfg, root, w.x), w);
    MixMetStays(c, d, cfg, root, Turned(cfg, root, w, w.Wq), Turned(cfg, root, w, w.Wk),
                Linear(cfg, Normed(cfg, root, w.x), w.Wv, cfg.d), w.Wo);
  }

  lemma GluRowMetBy(a: Log, b: Log, cfg: ToyConfig, root: nat -> nat, g: seq<int>, u: seq<int>)
    requires |g| == |u| && Extends(a, b) && Met(a, cfg.tableBits, Div(cfg.tableBits, g))
    requires Met(b, cfg.tableBits, Mul(Nonlinear(cfg, root, SiluTable, g), u))
    requires Met(b, cfg.tableBits, Div(cfg.scaleBits, Times(Nonlinear(cfg, root, SiluTable, g), u)))
    ensures GluRowMet(b, cfg, root, g, u)
  {
    hide Extends, Met, Nonlinear, Times;
    MetStays(a, b, cfg.tableBits, Div(cfg.tableBits, g));
  }

  lemma FeedMetBy(a: Log, b: Log, c: Log, d: Log, e: Log, cfg: ToyConfig, root: nat -> nat, h: Matrix, experts: seq<Expert>,
                  route: seq<nat>)
    requires FeedShaped(cfg, h, experts, route) && Extends(a, b) && Extends(b, c) && Extends(c, d) && Extends(d, e)
    requires RoutedMet(a, cfg, h, Gates3(experts), route, cfg.dff, cfg.d) && RoutedMet(b, cfg, h, Ups3(experts), route, cfg.dff, cfg.d)
    requires var g := RoutedLinear(cfg, h, Gates3(experts), route, cfg.dff, cfg.d);
      var u := RoutedLinear(cfg, h, Ups3(experts), route, cfg.dff, cfg.d);
      var f := SwiGlu(cfg, root, g, u);
      && GluMet(c, cfg, root, g, u, |g|) && RoutedMet(d, cfg, f, Downs3(experts), route, cfg.d, cfg.dff)
      && AddMet(e, cfg.tableBits, h, RoutedLinear(cfg, f, Downs3(experts), route, cfg.d, cfg.dff), |h|)
    ensures FeedMet(e, cfg, root, h, experts, route)
  {
    hide Extends, RoutedMet, GluMet, AddMet, RoutedLinear, SwiGlu, Stack;
    var g, u := RoutedLinear(cfg, h, Gates3(experts), route, cfg.dff, cfg.d), RoutedLinear(cfg, h, Ups3(experts), route, cfg.dff, cfg.d);
    ExtendsThrough(c, d, e);
    ExtendsThrough(b, c, e);
    ExtendsThrough(a, b, e);
    RoutedMetStays(a, e, cfg, h, Gates3(experts), route, cfg.dff, cfg.d);
    RoutedMetStays(b, e, cfg, h, Ups3(experts), route, cfg.dff, cfg.d);
    GluMetStays(c, e, cfg, root, g, u);
    RoutedMetStays(d, e, cfg, SwiGlu(cfg, root, g, u), Downs3(experts), route, cfg.d, cfg.dff);
  }

  // ------------------------------------------------------ a fine step does not wrap

  lemma FineIsSmall(cfg: ToyConfig, raws: seq<int>)
    requires cfg.Positive() && RescaleStatus(cfg, raws).Fine?
    ensures forall i :: 0 <= i < |raws| ==> 0 <= raws[i] < P
  {
    hide Pow2;
    QuotientWordsExact(cfg.scaleBits, cfg.tableBits);
    var k := QuotientWords(cfg.scaleBits, cfg.tableBits).k;
    forall i | 0 <= i < |raws| ensures 0 <= raws[i] < P {
      assert Scaled(cfg, raws)[i] == raws[i] / cfg.Scale();
      QuotientSmall(raws[i], cfg.scaleBits, cfg.tableBits * k);
    }
  }

  lemma QuotientSmall(x: int, a: nat, b: nat)
    requires 0 <= x / Pow2(a) < Pow2(b) && a + b <= LIFT_BITS
    ensures 0 <= x < P
  {
    hide Pow2;
    LiftRoom(a, b);
    DivisionBounds(x, Pow2(a), Pow2(b));
  }

  lemma DivisionBounds(x: int, s: nat, m: nat)
    requires s > 0 && 0 <= x / s < m
    ensures 0 <= x < s * m
  {
    assert x == s * (x / s) + x % s;
    assert s * (x / s) <= s * (m - 1);
    assert s * (m - 1) == s * m - s;
  }

  /** What is recorded of a contraction whose quotients are in range is the integer contraction. */
  lemma LinearIsExact(cfg: ToyConfig, name: string, X: Matrix, W: Matrix, nIn: nat)
    requires cfg.Positive() && LinearStatus(cfg, X, W, nIn).Fine?
    ensures Node(name, X, W, nIn) == MatmulNode(name, X, W, Raws(X, W, nIn))
    ensures Linear(cfg, X, W, nIn) == ScaledRows(cfg, Raws(X, W, nIn))
  {
    hide Inner, RescaleStatus;
    SmallRows(cfg, Raws(X, W, nIn), |W|);
  }

  lemma SmallRows(cfg: ToyConfig, rows: Matrix, width: nat)
    requires cfg.Positive() && AllWide(rows, width) && RescaleStatus(cfg, Flat(rows)).Fine?
    ensures ModRows(rows) == rows
  {
    hide RescaleStatus, Flat, Base;
    FineIsSmall(cfg, Flat(rows));
    forall t, i | 0 <= t < |rows| && 0 <= i < width ensures ModRows(rows)[t][i] == rows[t][i] {
      FlatRow(rows, width, t);
      assert Flat(rows)[Base(t, width)..Base(t, width) + width][i] == Flat(rows)[Base(t, width) + i];
      ModSmall(rows[t][i], P);
    }
    SameMatrix(ModRows(rows), rows, width);
  }

  lemma RoutedIsExact(cfg: ToyConfig, name: string, route: seq<nat>, X: Matrix, W: seq<Matrix>, dOut: nat, dIn: nat)
    requires cfg.Positive() && Stack(W, dOut, dIn) && Routed(route, |X|, |W|)
    requires RoutedStatus(cfg, X, W, route, dOut, dIn).Fine?
    ensures RoutedNode(name, route, X, W, dOut, dIn) == MoENode(name, route, X, W, RoutedRaws(X, W, route, dOut, dIn))
    ensures RoutedLinear(cfg, X, W, route, dOut, dIn) == ScaledRows(cfg, RoutedRaws(X, W, route, dOut, dIn))
  {
    hide Inner, RescaleStatus;
    SmallRows(cfg, RoutedRaws(X, W, route, dOut, dIn), dOut);
  }

  // ---------------------------------------------------------------- the data flow

  /** Query k, if there is one. */
  function Nth(qs: seq<(int, int)>, k: int): (int, int) {
    if 0 <= k < |qs| then qs[k] else (0, 0)
  }

  /** The n values answered from query k on, added up. */
  function ValueSum(qs: seq<(int, int)>, k: nat, n: nat): int {
    if n == 0 then 0 else ValueSum(qs, k, n - 1) + Nth(qs, k + n - 1).1
  }

  ghost predicate InDomain(cfg: ToyConfig, qs: seq<(int, int)>) {
    forall k :: 0 <= k < |qs| ==> 0 <= qs[k].0 < Pow2(cfg.tableBits)
  }

  /** Every argument is in the tables' domain and every answer is the table's formula there. */
  ghost predicate Answered(cfg: ToyConfig, root: nat -> nat, asked: Queries) {
    var s := Pow2(cfg.scaleBits);
    && InDomain(cfg, asked.exp) && InDomain(cfg, asked.silu) && InDomain(cfg, asked.isqrt) && InDomain(cfg, asked.recip)
    && (forall k :: 0 <= k < |asked.exp| ==> asked.exp[k].1 == (asked.exp[k].0 * asked.exp[k].0 + 1) % s)
    && (forall k :: 0 <= k < |asked.silu| ==> asked.silu[k].1 == (asked.silu[k].0 * (asked.silu[k].0 + 1) / 2) % s)
    && (forall k :: 0 <= k < |asked.isqrt| ==> asked.isqrt[k].1 == (s / (1 + root(asked.isqrt[k].0))) % s)
    && (forall k :: 0 <= k < |asked.recip| ==> asked.recip[k].1 == (s / (asked.recip[k].0 + 1)) % s)
  }

  /** Row t is scaled by the table's value at its sum of squares. */
  ghost predicate NormFlows(cfg: ToyConfig, x: Matrix, isqrt: seq<(int, int)>, xn: Matrix) {
    && Sides(x, cfg.S, cfg.d) && Sides(xn, cfg.S, cfg.d) && |isqrt| == cfg.S
    && (forall t :: 0 <= t < cfg.S ==> isqrt[t].0 == Inner(x[t], x[t], cfg.d) % P % Pow2(cfg.tableBits))
    && forall t, j :: 0 <= t < cfg.S && 0 <= j < cfg.d ==> xn[t][j] == x[t][j] * isqrt[t].1 / Pow2(cfg.scaleBits)
  }

  /** r is the rescaled Y, turned by the constants and rescaled. */
  ghost predicate Roped(cfg: ToyConfig, Y: Matrix, cos: seq<int>, sin: seq<int>, r: Matrix) {
    var s := Pow2(cfg.scaleBits);
    && Sides(Y, cfg.S, cfg.d) && Sides(r, cfg.S, cfg.d) && |cos| == |sin| == cfg.d
    && forall t, j :: 0 <= t < cfg.S && 0 <= j < cfg.d ==>
         r[t][j] == (Y[t][j] / s * cos[j] + Y[t][(j + 1) % cfg.d] / s * sin[j]) / s
  }

  function Causal(t: int, i: int, v: int): int {
    if i <= t then v else 0
  }

  /** Query t*S + i is the score of row t of q against row i of k, zero for the rows to come. */
  ghost predicate ScoreFlows(cfg: ToyConfig, q: Matrix, k: Matrix, exp: seq<(int, int)>) {
    && |q| == |k| == cfg.S && |exp| == cfg.S * cfg.S
    && forall t, i :: 0 <= t < cfg.S && 0 <= i < cfg.S ==>
         Nth(exp, t * cfg.S + i).0 == Causal(t, i, Inner(q[t], k[i], cfg.d)) % P % Pow2(cfg.tableBits)
  }

  /** Row t of p is its answers, scaled by the reciprocal of their sum. */
  ghost predicate SoftmaxFlows(cfg: ToyConfig, exp: seq<(int, int)>, recip: seq<(int, int)>, p: Matrix) {
    && Sides(p, cfg.S, cfg.S) && |recip| == cfg.S
    && (forall t :: 0 <= t < cfg.S ==> recip[t].0 == ValueSum(exp, t * cfg.S, cfg.S) % P % Pow2(cfg.tableBits))
    && forall t, i :: 0 <= t < cfg.S && 0 <= i < cfg.S ==>
         p[t][i] == Nth(exp, t * cfg.S + i).1 * recip[t].1 / Pow2(cfg.scaleBits)
  }

  /** B is A rescaled. */
  ghost predicate Rescales(cfg: ToyConfig, A: Matrix, B: Matrix) {
    && Sides(A, cfg.S, cfg.d) && Sides(B, cfg.S, cfg.d)
    && forall t, j :: 0 <= t < cfg.S && 0 <= j < cfg.d ==> B[t][j] == A[t][j] / Pow2(cfg.scaleBits)
  }

  /** B is A rescaled and transposed. */
  ghost predicate Turns(cfg: ToyConfig, A: Matrix, B: Matrix) {
    && Sides(A, cfg.S, cfg.d) && Sides(B, cfg.d, cfg.S)
    && forall i, j :: 0 <= i < cfg.S && 0 <= j < cfg.d ==> B[j][i] == A[i][j] / Pow2(cfg.scaleBits)
  }

  /** h adds the rescaled Y to x. */
  ghost predicate Adds(cfg: ToyConfig, x: Matrix, Y: Matrix, h: Matrix) {
    && Sides(x, cfg.S, cfg.d) && Sides(Y, cfg.S, cfg.d) && Sides(h, cfg.S, cfg.d)
    && forall t, j :: 0 <= t < cfg.S && 0 <= j < cfg.d ==> h[t][j] == x[t][j] + Y[t][j] / Pow2(cfg.scaleBits)
  }

  /** Query t*dff + j is the rescaled gate; its answer times the rescaled up is f. */
  ghost predicate GluFlows(cfg: ToyConfig, g: Matrix, u: Matrix, silu: seq<(int, int)>, f: Matrix) {
    var s := Pow2(cfg.scaleBits);
    && Sides(g, cfg.S, cfg.dff) && Sides(u, cfg.S, cfg.dff) && Sides(f, cfg.S, cfg.dff) && |silu| == cfg.S * cfg.dff
    && forall t, j :: 0 <= t < cfg.S && 0 <= j < cfg.dff ==>
         && Nth(silu, t * cfg.dff + j).0 == g[t][j] / s % Pow2(cfg.tableBits)
         && f[t][j] == Nth(silu, t * cfg.dff + j).1 * (u[t][j] / s) / s
  }

  /** Names and weights, and results that are the contractions over the integers. */
  ghost predicate NodesAre(w: LayerWeights, ms: seq<Matmul>) {
    && |ms| == 5 && ms[0].name == "Wq" && ms[1].name == "Wk" && ms[2].name == "Wv" && ms[3].name == "attn_pv" && ms[4].name == "Wo"
    && ms[0].W == w.Wq && ms[1].W == w.Wk && ms[2].W == w.Wv && ms[4].W == w.Wo
    && forall m :: 0 <= m < 5 ==> Exact(ms[m].X, ms[m].W, ms[m].Y)
  }

  ghost predicate Exact(X: Matrix, W: Matrix, Y: Matrix) {
    && |W| > 0 && Sides(Y, |X|, |W|)
    && forall t, i :: 0 <= t < |X| && 0 <= i < |W| ==> Y[t][i] == Inner(X[t], W[i], |W[0]|)
  }

  ghost predicate RoutedExact(m: MoEMatmul) {
    && Routed(m.route, |m.X|, |m.W|) && |m.W| > 0 && |m.W[0]| > 0 && Sides(m.Y, |m.X|, |m.W[0]|)
    && (forall e :: 0 <= e < |m.W| ==> |m.W[e]| == |m.W[0]|)
    && forall t, i :: 0 <= t < |m.X| && 0 <= i < |m.W[0]| ==> m.Y[t][i] == Inner(m.X[t], m.W[m.route[t]][i], |m.W[0][0]|)
  }

  ghost predicate ExpertsAre(w: LayerWeights, es: seq<MoEMatmul>) {
    && |es| == 3 && es[0].name == "moe_gate" && es[1].name == "moe_up" && es[2].name == "moe_down"
    && |es[0].W| == |es[1].W| == |es[2].W| == |w.experts|
    && (forall e :: 0 <= e < |w.experts| ==>
          es[0].W[e] == w.experts[e].gate && es[1].W[e] == w.experts[e].up && es[2].W[e] == w.experts[e].down)
    && forall m :: 0 <= m < 3 ==> es[m].route == w.route && RoutedExact(es[m])
  }

  /** The attention half: what each contraction reads and what each query asks, from the results recorded before it. */
  ghost predicate AttentionFlows(cfg: ToyConfig, w: LayerWeights, ms: seq<Matmul>, asked: Queries, q: Matrix, k: Matrix, h: Matrix) {
    && NodesAre(w, ms)
    && ms[0].X == ms[1].X == ms[2].X && NormFlows(cfg, w.x, asked.isqrt, ms[0].X)
    && Roped(cfg, ms[0].Y, w.cos, w.sin, q) && Roped(cfg, ms[1].Y, w.cos, w.sin, k)
    && ScoreFlows(cfg, q, k, asked.exp) && SoftmaxFlows(cfg, asked.exp, asked.recip, ms[3].X)
    && Turns(cfg, ms[2].Y, ms[3].W) && Rescales(cfg, ms[3].Y, ms[4].X)
    && Adds(cfg, w.x, ms[4].Y, h)
  }

  /** The feed-forward half, from h. */
  ghost predicate FeedFlows(cfg: ToyConfig, w: LayerWeights, es: seq<MoEMatmul>, asked: Queries, h: Matrix) {
    && ExpertsAre(w, es) && es[0].X == es[1].X == h && Sides(es[2].Y, cfg.S, cfg.d)
    && GluFlows(cfg, es[0].Y, es[1].Y, asked.silu, es[2].X)
  }

  // ------------------------------------------------------ the stages flow so

  lemma LookedUpAt(cfg: ToyConfig, root: nat -> nat, name: TableName, v: seq<int>, k: nat)
    requires k < |v|
    ensures var qs := Pairs(Lows(cfg, v), Nonlinear(cfg, root, name, v));
      qs[k].0 == v[k] % Pow2(cfg.tableBits) && qs[k].1 == TableEntry(cfg, root, name, qs[k].0) == Nonlinear(cfg, root, name, v)[k]
  {}

  lemma {:induction false} FlatEntry(rows: Matrix, width: nat, t: nat, i: nat)
    requires AllWide(rows, width) && t < |rows| && i < width
    ensures |Flat(rows)| == |rows| * width && t * width + i < |Flat(rows)| && Flat(rows)[t * width + i] == rows[t][i]
  {
    FlatSize(rows, width);
    FlatRow(rows, width, t);
    assert Flat(rows)[Base(t, width)..Base(t, width) + width][i] == Flat(rows)[Base(t, width) + i];
  }

  lemma NormFlow(cfg: ToyConfig, root: nat -> nat, x: Matrix)
    requires cfg.Positive() && Sides(x, cfg.S, cfg.d)
    ensures NormFlows(cfg, x, LookedUp(cfg, root, IsqrtTable, ModP(SquareSums(x, cfg.d))).isqrt, Normed(cfg, root, x))
  {
    hide Inner, TableEntry, Pow2;
    var sq := ModP(SquareSums(x, cfg.d));
    forall t | 0 <= t < cfg.S
      ensures LookedUp(cfg, root, IsqrtTable, sq).isqrt[t] == (sq[t] % Pow2(cfg.tableBits), Nonlinear(cfg, root, IsqrtTable, sq)[t])
    {
      LookedUpAt(cfg, root, IsqrtTable, sq, t);
    }
    forall t, j | 0 <= t < cfg.S && 0 <= j < cfg.d
      ensures Normed(cfg, root, x)[t][j] == x[t][j] * Nonlinear(cfg, root, IsqrtTable, sq)[t] / Pow2(cfg.scaleBits)
    {}
  }

  lemma RopeFlow(cfg: ToyConfig, w: LayerWeights, Y: Matrix, r: Matrix)
    requires WellShaped(cfg, w) && Sides(Y, cfg.S, cfg.d) && r == Rope(cfg, ScaledRows(cfg, Y), w.cos, w.sin)
    ensures Roped(cfg, Y, w.cos, w.sin, r)
  {
    hide Pow2;
  }

  lemma MixAsked(cfg: ToyConfig, root: nat -> nat, q: Matrix, k: Matrix)
    requires Sides(q, cfg.S, cfg.d) && Sides(k, cfg.S, cfg.d)
    ensures var rows, asked := ModRows(Scores(q, k, cfg.d)), MixQueries(cfg, root, q, k);
      && asked.exp == Pairs(Lows(cfg, Flat(rows)), Nonlinear(cfg, root, ExpTable, Flat(rows)))
      && asked.recip == Pairs(Lows(cfg, RowSums(Exponentials(cfg, root, q, k))),
                              Nonlinear(cfg, root, RecipTable, RowSums(Exponentials(cfg, root, q, k))))
      && asked.silu == asked.isqrt == []
  {
    hide Lows, Nonlinear, Flat, ModRows, Scores, RowSums, Exponentials;
  }

  /** The query of row t against row i, and its answer. */
  lemma ScoreAsked(cfg: ToyConfig, root: nat -> nat, q: Matrix, k: Matrix, t: nat, i: nat)
    requires cfg.Positive() && Sides(q, cfg.S, cfg.d) && Sides(k, cfg.S, cfg.d) && t < cfg.S && i < cfg.S
    ensures var asked := MixQueries(cfg, root, q, k).exp;
      && |asked| == cfg.S * cfg.S && t * cfg.S + i < |asked|
      && Nth(asked, t * cfg.S + i).0 == Causal(t, i, Inner(q[t], k[i], cfg.d)) % P % Pow2(cfg.tableBits)
      && Nth(asked, t * cfg.S + i).1 == Exponentials(cfg, root, q, k)[t][i]
  {
    hide Inner, TableEntry, Pow2, MixQueries, Nth, Exponentials, Flat, Nonlinear, Lows, Scores, ModRows, Pairs;
    var rows := ModRows(Scores(q, k, cfg.d));
    ScoreRows(q, k, cfg.d, cfg.S);
    MixAsked(cfg, root, q, k);
    FlatEntry(rows, cfg.S, t, i);
    LookedUpAt(cfg, root, ExpTable, Flat(rows), t * cfg.S + i);
    NthIs(MixQueries(cfg, root, q, k).exp, t * cfg.S + i);
    ExponentialAt(cfg, root, q, k, t, i);
  }

  lemma ScoreRows(q: Matrix, k: Matrix, d: nat, S: nat)
    requires |q| == |k| == S
    ensures var rows := ModRows(Scores(q, k, d));
      Sides(rows, S, S) && forall t, i :: 0 <= t < S && 0 <= i < S ==> rows[t][i] == Causal(t, i, Inner(q[t], k[i], d)) % P
  {
    hide Inner;
  }

  lemma ExponentialAt(cfg: ToyConfig, root: nat -> nat, q: Matrix, k: Matrix, t: nat, i: nat)
    requires |q| == |k| == cfg.S && t < cfg.S && i < cfg.S
    ensures var row := ModRows(Scores(q, k, cfg.d))[t];
      i < |row| && row[i] % cfg.TableSize() >= 0
      && Exponentials(cfg, root, q, k)[t][i] == TableEntry(cfg, root, ExpTable, row[i] % cfg.TableSize())
  {
    hide Inner, TableEntry;
  }

  lemma NthIs(qs: seq<(int, int)>, k: nat)
    requires k < |qs|
    ensures Nth(qs, k) == qs[k]
  {}

  lemma ScoreFlow(cfg: ToyConfig, root: nat -> nat, q: Matrix, k: Matrix)
    requires cfg.Positive() && Sides(q, cfg.S, cfg.d) && Sides(k, cfg.S, cfg.d)
    ensures ScoreFlows(cfg, q, k, MixQueries(cfg, root, q, k).exp)
  {
    hide Inner, TableEntry, Pow2, MixQueries, Nth, Exponentials;
    forall t, i | 0 <= t < cfg.S && 0 <= i < cfg.S
      ensures Nth(MixQueries(cfg, root, q, k).exp, t * cfg.S + i).0
              == Causal(t, i, Inner(q[t], k[i], cfg.d)) % P % Pow2(cfg.tableBits)
    {
      ScoreAsked(cfg, root, q, k, t, i);
    }
    ScoreAsked(cfg, root, q, k, 0, 0);
  }

  lemma {:induction false} RowSumLast(row: seq<int>)
    requires row != []
    ensures RowSum(row) == RowSum(row[..|row| - 1]) + row[|row| - 1]
  {
    if |row| > 1 {
      RowSumLast(row[1..]);
      assert row[1..][..|row| - 2] == row[..|row| - 1][1..];
    } else {
      assert row[1..] == [] && row[..0] == [];
    }
  }

  lemma {:induction false} ValueSumIs(qs: seq<(int, int)>, k: nat, row: seq<int>)
    requires forall i :: 0 <= i < |row| ==> Nth(qs, k + i).1 == row[i]
    ensures ValueSum(qs, k, |row|) == RowSum(row)
  {
    hide Nth;
    if row != [] {
      var m := |row| - 1;
      assert forall i :: 0 <= i < m ==> row[..m][i] == row[i];
      ValueSumIs(qs, k, row[..m]);
      RowSumLast(row);
    }
  }

  lemma SoftmaxAt(cfg: ToyConfig, root: nat -> nat, e: Matrix, t: nat, i: nat)
    requires Sides(e, cfg.S, cfg.S) && t < cfg.S && i < cfg.S
    ensures var recip := Pairs(Lows(cfg, RowSums(e)), Nonlinear(cfg, root, RecipTable, RowSums(e)));
      && |recip| == cfg.S && recip[t].0 == RowSum(e[t]) % P % Pow2(cfg.tableBits)
      && Sides(Softmax(cfg, root, e), cfg.S, cfg.S)
      && Softmax(cfg, root, e)[t][i] == e[t][i] * recip[t].1 / Pow2(cfg.scaleBits)
  {
    hide RowSum, TableEntry, Pow2;
    LookedUpAt(cfg, root, RecipTable, RowSums(e), t);
  }

  lemma SoftmaxFlow(cfg: ToyConfig, root: nat -> nat, q: Matrix, k: Matrix)
    requires cfg.Positive() && Sides(q, cfg.S, cfg.d) && Sides(k, cfg.S, cfg.d)
    ensures var asked := MixQueries(cfg, root, q, k);
      SoftmaxFlows(cfg, asked.exp, asked.recip, Softmax(cfg, root, Exponentials(cfg, root, q, k)))
  {
    hide RowSum, TableEntry, Pow2, MixQueries, Nth, Exponentials, Nonlinear, Lows, RowSums, Softmax, Inner, ValueSum;
    var asked, e := MixQueries(cfg, root, q, k), Exponentials(cfg, root, q, k);
    MixAsked(cfg, root, q, k);
    SoftmaxAt(cfg, root, e, 0, 0);
    forall t | 0 <= t < cfg.S ensures asked.recip[t].0 == ValueSum(asked.exp, t * cfg.S, cfg.S) % P % Pow2(cfg.tableBits) {
      SoftmaxAt(cfg, root, e, t, 0);
      forall i | 0 <= i < cfg.S ensures Nth(asked.exp, t * cfg.S + i).1 == e[t][i] { ScoreAsked(cfg, root, q, k, t, i); }
      ValueSumIs(asked.exp, t * cfg.S, e[t]);
    }
    forall t, i | 0 <= t < cfg.S && 0 <= i < cfg.S
      ensures Softmax(cfg, root, e)[t][i] == Nth(asked.exp, t * cfg.S + i).1 * asked.recip[t].1 / Pow2(cfg.scaleBits)
    {
      ScoreAsked(cfg, root, q, k, t, i);
      SoftmaxAt(cfg, root, e, t, i);
    }
  }

  lemma TurnFlow(cfg: ToyConfig, Y: Matrix)
    requires Sides(Y, cfg.S, cfg.d)
    ensures Turns(cfg, Y, Transposed(ScaledRows(cfg, Y), cfg.d))
  {
    hide Pow2;
  }

  lemma AddFlow(cfg: ToyConfig, x: Matrix, Y: Matrix)
    requires Sides(x, cfg.S, cfg.d) && Sides(Y, cfg.S, cfg.d)
    ensures Sides(ScaledRows(cfg, Y), cfg.S, cfg.d) && Adds(cfg, x, Y, AddRows(x, ScaledRows(cfg, Y), cfg.d))
  {
    hide Pow2;
  }

  lemma ScaleFlow(cfg: ToyConfig, Y: Matrix)
    requires Sides(Y, cfg.S, cfg.d)
    ensures Rescales(cfg, Y, ScaledRows(cfg, Y))
  {
    hide Pow2;
  }

  lemma GluFlow(cfg: ToyConfig, root: nat -> nat, g: Matrix, u: Matrix)
    requires cfg.Positive() && Sides(g, cfg.S, cfg.dff) && Sides(u, cfg.S, cfg.dff)
    ensures var v := ScaledRows(cfg, g);
      && Sides(v, cfg.S, cfg.dff) && Sides(ScaledRows(cfg, u), cfg.S, cfg.dff)
      && GluFlows(cfg, g, u, LookedUp(cfg, root, SiluTable, Flat(v)).silu, SwiGlu(cfg, root, v, ScaledRows(cfg, u)))
  {
    hide Pow2, TableEntry, Flat, Nth;
    var v, r := ScaledRows(cfg, g), ScaledRows(cfg, u);
    var asked, f := LookedUp(cfg, root, SiluTable, Flat(v)).silu, SwiGlu(cfg, root, v, r);
    FlatEntry(v, cfg.dff, 0, 0);
    forall t, j | 0 <= t < cfg.S && 0 <= j < cfg.dff
      ensures Nth(asked, t * cfg.dff + j).0 == g[t][j] / Pow2(cfg.scaleBits) % Pow2(cfg.tableBits)
      ensures f[t][j] == Nth(asked, t * cfg.dff + j).1 * (u[t][j] / Pow2(cfg.scaleBits)) / Pow2(cfg.scaleBits)
    {
      GluAt(cfg, root, v, r, t, j);
    }
  }

  lemma GluAt(cfg: ToyConfig, root: nat -> nat, v: Matrix, r: Matrix, t: nat, j: nat)
    requires cfg.Positive() && Sides(v, cfg.S, cfg.dff) && Sides(r, cfg.S, cfg.dff) && t < cfg.S && j < cfg.dff
    ensures var asked, f := LookedUp(cfg, root, SiluTable, Flat(v)).silu, SwiGlu(cfg, root, v, r);
      && Nth(asked, t * cfg.dff + j).0 == v[t][j] % Pow2(cfg.tableBits)
      && f[t][j] == Nth(asked, t * cfg.dff + j).1 * r[t][j] / Pow2(cfg.scaleBits)
  {
    hide Pow2, TableEntry, Flat, Nonlinear, Nth, Lows;
    FlatEntry(v, cfg.dff, t, j);
    LookedUpAt(cfg, root, SiluTable, Flat(v), t * cfg.dff + j);
    LookedUpAt(cfg, root, SiluTable, v[t], j);
    NthIs(LookedUp(cfg, root, SiluTable, Flat(v)).silu, t * cfg.dff + j);
  }

  // ------------------------------------------------------------ the layer flows so

  /** Of a fine attention half each contraction is fine. */
  lemma AttentionFine(cfg: ToyConfig, root: nat -> nat, w: LayerWeights)
    requires WellShaped(cfg, w) && AttentionStatus(cfg, root, w).Fine?
    ensures var xn := Normed(cfg, root, w.x);
      var p := Softmax(cfg, root, Exponentials(cfg, root, Turned(cfg, root, w, w.Wq), Turned(cfg, root, w, w.Wk)));
      var v := Transposed(Linear(cfg, xn, w.Wv, cfg.d), cfg.d);
      && LinearStatus(cfg, xn, w.Wq, cfg.d).Fine? && LinearStatus(cfg, xn, w.Wk, cfg.d).Fine?
      && LinearStatus(cfg, xn, w.Wv, cfg.d).Fine? && LinearStatus(cfg, p, v, cfg.S).Fine?
      && LinearStatus(cfg, Linear(cfg, p, v, cfg.S), w.Wo, cfg.d).Fine?
  {
    hide LinearStatus, NormStatus, RopeStatus, LookStatus, SoftmaxStatus, First, Normed, Linear, Softmax, Exponentials, Rope,
      Transposed, Flat, Scores, ModRows;
  }

  /** A fine contraction: its node's entries, and its result from them. */
  lemma NodeFlows(cfg: ToyConfig, name: string, X: Matrix, W: Matrix, nOut: nat, nIn: nat)
    requires cfg.Positive() && |X| == cfg.S && Sides(W, nOut, nIn) && nOut > 0 && LinearStatus(cfg, X, W, nIn).Fine?
    ensures var m := Node(name, X, W, nIn);
      && m.name == name && m.X == X && m.W == W && Exact(m.X, m.W, m.Y) && Sides(m.Y, cfg.S, nOut)
      && Linear(cfg, X, W, nIn) == ScaledRows(cfg, m.Y)
  {
    hide LinearStatus, Inner, ScaledRows;
    LinearIsExact(cfg, name, X, W, nIn);
  }

  lemma AttentionFlow(cfg: ToyConfig, root: nat -> nat, w: LayerWeights)
    requires WellShaped(cfg, w) && AttentionStatus(cfg, root, w).Fine?
    ensures AttentionFlows(cfg, w, AttentionNodes(cfg, root, w), AttentionQueries(cfg, root, w),
                           Turned(cfg, root, w, w.Wq), Turned(cfg, root, w, w.Wk), Attention(cfg, root, w))
  {
    hide NormFlows, Roped, ScoreFlows, SoftmaxFlows, Turns, Rescales, Adds, Exact, Node, Normed, Linear, Softmax, Exponentials,
      MixQueries, AttentionStatus, Rope, Transposed, AddRows, ModP, SquareSums, LinearStatus, ScaledRows;
    var d, xn := cfg.d, Normed(cfg, root, w.x);
    var q, k, v := Turned(cfg, root, w, w.Wq), Turned(cfg, root, w, w.Wk), Linear(cfg, xn, w.Wv, d);
    var p := Softmax(cfg, root, Exponentials(cfg, root, q, k));
    var a := Linear(cfg, p, Transposed(v, d), cfg.S);
    var ms := AttentionNodes(cfg, root, w);
    AttentionFine(cfg, root, w);
    NormFlow(cfg, root, w.x);
    NodeFlows(cfg, "Wq", xn, w.Wq, d, d);
    NodeFlows(cfg, "Wk", xn, w.Wk, d, d);
    NodeFlows(cfg, "Wv", xn, w.Wv, d, d);
    NodeFlows(cfg, "attn_pv", p, Transposed(v, d), d, cfg.S);
    NodeFlows(cfg, "Wo", a, w.Wo, d, d);
    RopeFlow(cfg, w, ms[0].Y, q);
    RopeFlow(cfg, w, ms[1].Y, k);
    ScoreFlow(cfg, root, q, k);
    SoftmaxFlow(cfg, root, q, k);
    TurnFlow(cfg, ms[2].Y);
    ScaleFlow(cfg, ms[3].Y);
    AddFlow(cfg, w.x, ms[4].Y);
    MixAsked(cfg, root, q, k);
    AskedInTurn(cfg, root, w);
  }

  lemma AskedInTurn(cfg: ToyConfig, root: nat -> nat, w: LayerWeights)
    requires WellShaped(cfg, w)
    ensures var asked, mix := AttentionQueries(cfg, root, w), MixQueries(cfg, root, Turned(cfg, root, w, w.Wq), Turned(cfg, root, w, w.Wk));
      && asked.isqrt == LookedUp(cfg, root, IsqrtTable, ModP(SquareSums(w.x, cfg.d))).isqrt
      && asked.exp == mix.exp && asked.recip == mix.recip && asked.silu == []
  {
    hide Turned, Lows, Nonlinear, ModP, SquareSums, Flat, Scores, ModRows, RowSums, Exponentials;
  }

  lemma FeedFine(cfg: ToyConfig, root: nat -> nat, h: Matrix, experts: seq<Expert>, route: seq<nat>)
    requires FeedShaped(cfg, h, experts, route) && FeedStatus(cfg, root, h, experts, route).Fine?
    ensures var g := RoutedLinear(cfg, h, Gates3(experts), route, cfg.dff, cfg.d);
      var u := RoutedLinear(cfg, h, Ups3(experts), route, cfg.dff, cfg.d);
      && RoutedStatus(cfg, h, Gates3(experts), route, cfg.dff, cfg.d).Fine?
      && RoutedStatus(cfg, h, Ups3(experts), route, cfg.dff, cfg.d).Fine?
      && RoutedStatus(cfg, SwiGlu(cfg, root, g, u), Downs3(experts), route, cfg.d, cfg.dff).Fine?
  {
    hide RoutedStatus, GluStatus, First, RoutedLinear, SwiGlu, Stack;
  }

  lemma RoutedFlows(cfg: ToyConfig, name: string, route: seq<nat>, X: Matrix, W: seq<Matrix>, dOut: nat, dIn: nat)
    requires cfg.Positive() && |X| == cfg.S && Stack(W, dOut, dIn) && Routed(route, |X|, |W|)
    requires RoutedStatus(cfg, X, W, route, dOut, dIn).Fine?
    ensures var m := RoutedNode(name, route, X, W, dOut, dIn);
      && m.name == name && m.X == X && m.W == W && m.route == route && RoutedExact(m) && Sides(m.Y, cfg.S, dOut)
      && RoutedLinear(cfg, X, W, route, dOut, dIn) == ScaledRows(cfg, m.Y)
  {
    hide RoutedStatus, Inner, ScaledRows;
    RoutedIsExact(cfg, name, route, X, W, dOut, dIn);
  }

  lemma FeedFlow(cfg: ToyConfig, root: nat -> nat, w: LayerWeights, h: Matrix)
    requires WellShaped(cfg, w) && FeedShaped(cfg, h, w.experts, w.route) && FeedStatus(cfg, root, h, w.experts, w.route).Fine?
    ensures var es := FeedNodes(cfg, root, h, w.experts, w.route);
      && FeedFlows(cfg, w, es, FeedQueries(cfg, root, h, w.experts, w.route), h)
      && Adds(cfg, h, es[2].Y, FeedForward(cfg, root, h, w.experts, w.route))
  {
    hide GluFlows, Adds, RoutedExact, RoutedNode, RoutedLinear, SwiGlu, AddRows, FeedStatus, RoutedStatus, Stack, LookedUp, Flat, ScaledRows;
    var e, r := w.experts, w.route;
    var g, u := RoutedLinear(cfg, h, Gates3(e), r, cfg.dff, cfg.d), RoutedLinear(cfg, h, Ups3(e), r, cfg.dff, cfg.d);
    var f := SwiGlu(cfg, root, g, u);
    var es := FeedNodes(cfg, root, h, e, r);
    FeedFine(cfg, root, h, e, r);
    RoutedFlows(cfg, "moe_gate", r, h, Gates3(e), cfg.dff, cfg.d);
    RoutedFlows(cfg, "moe_up", r, h, Ups3(e), cfg.dff, cfg.d);
    RoutedFlows(cfg, "moe_down", r, f, Downs3(e), cfg.d, cfg.dff);
    GluFlow(cfg, root, es[0].Y, es[1].Y);
    AddFlow(cfg, h, es[2].Y);
  }

  // ---------------------------------------------------------------- the answers

  lemma AnsweredThen(cfg: ToyConfig, root: nat -> nat, a: Queries, b: Queries)
    requires Answered(cfg, root, a) && Answered(cfg, root, b)
    ensures Answered(cfg, root, a.Then(b))
  {
    hide Pow2;
  }

  lemma LookedUpAnswered(cfg: ToyConfig, root: nat -> nat, name: TableName, v: seq<int>)
    ensures Answered(cfg, root, LookedUp(cfg, root, name, v))
  {
    hide Pow2;
    forall k | 0 <= k < |v| ensures var qs := Pairs(Lows(cfg, v), Nonlinear(cfg, root, name, v));
      0 <= qs[k].0 < Pow2(cfg.tableBits) && qs[k].1 == TableEntry(cfg, root, name, qs[k].0)
    {
      LookedUpAt(cfg, root, name, v, k);
    }
  }

  lemma LayerAnswered(cfg: ToyConfig, root: nat -> nat, w: LayerWeights)
    requires WellShaped(cfg, w)
    ensures Answered(cfg, root, LayerQueries(cfg, root, w))
  {
    hide Answered, LookedUp, Turned, Exponentials, Scores, RoutedLinear, Attention, SquareSums, Flat, Queries.Then, FeedShaped;
    var q, k, h := Turned(cfg, root, w, w.Wq), Turned(cfg, root, w, w.Wk), Attention(cfg, root, w);
    LayerRecords(cfg, root, w);
    LookedUpAnswered(cfg, root, IsqrtTable, ModP(SquareSums(w.x, cfg.d)));
    LookedUpAnswered(cfg, root, ExpTable, Flat(ModRows(Scores(q, k, cfg.d))));
    LookedUpAnswered(cfg, root, RecipTable, RowSums(Exponentials(cfg, root, q, k)));
    AnsweredThen(cfg, root, LookedUp(cfg, root, ExpTable, Flat(ModRows(Scores(q, k, cfg.d)))),
                 LookedUp(cfg, root, RecipTable, RowSums(Exponentials(cfg, root, q, k))));
    AnsweredThen(cfg, root, LookedUp(cfg, root, IsqrtTable, ModP(SquareSums(w.x, cfg.d))), MixQueries(cfg, root, q, k));
    FeedAnswered(cfg, root, h, w.experts, w.route);
    AnsweredThen(cfg, root, AttentionQueries(cfg, root, w), FeedQueries(cfg, root, h, w.experts, w.route));
  }

  lemma FeedAnswered(cfg: ToyConfig, root: nat -> nat, h: Matrix, experts: seq<Expert>, route: seq<nat>)
    requires FeedShaped(cfg, h, experts, route)
    ensures Answered(cfg, root, FeedQueries(cfg, root, h, experts, route))
  {
    hide Answered, LookedUp, RoutedLinear;
    LookedUpAnswered(cfg, root, SiluTable, Flat(RoutedLinear(cfg, h, Gates3(experts), route, cfg.dff, cfg.d)));
  }

  /** The whole layer, when every quotient is in range. */
  lemma LayerFlow(cfg: ToyConfig, root: nat -> nat, w: LayerWeights)
    requires WellShaped(cfg, w) && LayerStatus(cfg, root, w).Fine?
    ensures var ms, es, asked := AttentionNodes(cfg, root, w), LayerNodes(cfg, root, w), LayerQueries(cfg, root, w);
      var h := Attention(cfg, root, w);
      && AttentionFlows(cfg, w, ms, asked, Turned(cfg, root, w, w.Wq), Turned(cfg, root, w, w.Wk), h)
      && FeedFlows(cfg, w, es, asked, h) && Answered(cfg, root, asked)
      && Adds(cfg, h, es[2].Y, LayerOutput(cfg, root, w))
  {
    hide AttentionFlows, FeedFlows, Answered, Adds, Attention, FeedForward, AttentionStatus, FeedStatus, AttentionNodes, FeedNodes,
      AttentionQueries, FeedQueries, Turned, FeedShaped, LayerNodes, LayerQueries;
    var h := Attention(cfg, root, w);
    WeightsFeed(cfg, w, h);
    AttentionFlow(cfg, root, w);
    FeedFlow(cfg, root, w, h);
    LayerAnswered(cfg, root, w);
    LayerRecords(cfg, root, w);
    SplitAsked(cfg, root, w);
    SameAsked(cfg, w, AttentionNodes(cfg, root, w), AttentionQueries(cfg, root, w), LayerQueries(cfg, root, w),
              Turned(cfg, root, w, w.Wq), Turned(cfg, root, w, w.Wk), h);
    SameFed(cfg, w, LayerNodes(cfg, root, w), FeedQueries(cfg, root, h, w.experts, w.route), LayerQueries(cfg, root, w), h);
  }

  lemma SplitAsked(cfg: ToyConfig, root: nat -> nat, w: LayerWeights)
    requires WellShaped(cfg, w) && FeedShaped(cfg, Attention(cfg, root, w), w.experts, w.route)
    ensures var asked, a := LayerQueries(cfg, root, w), AttentionQueries(cfg, root, w);
      && asked.exp == a.exp && asked.isqrt == a.isqrt && asked.recip == a.recip
      && asked.silu == FeedQueries(cfg, root, Attention(cfg, root, w), w.experts, w.route).silu
  {
    hide Attention, FeedShaped, AttentionQueries, Lows, Nonlinear, RoutedLinear, WellShaped, LayerQueries;
    LayerRecords(cfg, root, w);
    AskedInTurn(cfg, root, w);
  }

  lemma SameAsked(cfg: ToyConfig, w: LayerWeights, ms: seq<Matmul>, a: Queries, b: Queries, q: Matrix, k: Matrix, h: Matrix)
    requires a.exp == b.exp && a.isqrt == b.isqrt && a.recip == b.recip && AttentionFlows(cfg, w, ms, a, q, k, h)
    ensures AttentionFlows(cfg, w, ms, b, q, k, h)
  {
    hide NodesAre, NormFlows, Roped, ScoreFlows, SoftmaxFlows, Turns, Rescales, Adds;
    assert |ms| == 5 by { assert NodesAre(w, ms); NodesFive(w, ms); }
  }

  lemma NodesFive(w: LayerWeights, ms: seq<Matmul>)
    requires NodesAre(w, ms)
    ensures |ms| == 5
  {}

  lemma SameFed(cfg: ToyConfig, w: LayerWeights, es: seq<MoEMatmul>, a: Queries, b: Queries, h: Matrix)
    requires a.silu == b.silu && FeedFlows(cfg, w, es, a, h)
    ensures FeedFlows(cfg, w, es, b, h)
  {}

  // ----------------------------------------------------------------- coverage

  function Cell(m: Matrix, t: int, j: int): int {
    if 0 <= t < |m| && 0 <= j < |m[t]| then m[t][j] else 0
  }

  function RowAt(m: Matrix, t: int): seq<int> {
    if 0 <= t < |m| then m[t] else []
  }

  /** The column of sums of squares. */
  function Squares(cfg: ToyConfig, x: Matrix): seq<int> {
    seq(cfg.S, t => Inner(RowAt(x, t), RowAt(x, t), cfg.d) % P)
  }

  function Repeat(v: int, n: nat): seq<int> { seq(n, _ => v) }

  /** The n answers from query k on. */
  function Answers(qs: seq<(int, int)>, k: nat, n: nat): (r: seq<int>)
    ensures |r| == n
  {
    seq(n, j => Nth(qs, k + j).1)
  }

  /** Row t of a result, rescaled; from entry `first` on, round the row. */
  function Quotients(Y: Matrix, t: int, n: nat, first: nat, s: nat): (r: seq<int>)
    requires s > 0
    ensures |r| == n
  {
    seq(n, j requires 0 <= j < n => Cell(Y, t, (j + first) % n) / s)
  }

  function MaskColumn(S: nat): seq<int>
    requires S > 0
  {
    seq(S * S, k => Causal(k / S, k % S, 1))
  }

  function ScoreColumn(cfg: ToyConfig, q: Matrix, k: Matrix): seq<int>
    requires cfg.S > 0
  {
    seq(cfg.S * cfg.S, n => Causal(n / cfg.S, n % cfg.S, Inner(RowAt(q, n / cfg.S), RowAt(k, n % cfg.S), cfg.d)) % P)
  }

  function SumColumn(cfg: ToyConfig, exp: seq<(int, int)>): seq<int> {
    seq(cfg.S, t requires 0 <= t => ValueSum(exp, Base(t, cfg.S), cfg.S) % P)
  }

  /** The product of a and b and its rescale are on record. */
  ghost predicate ProductCovered(log: Log, cfg: ToyConfig, a: seq<int>, b: seq<int>) {
    |a| == |b| && Met(log, cfg.tableBits, Mul(a, b)) && Met(log, cfg.tableBits, Div(cfg.scaleBits, Times(a, b)))
  }

  ghost predicate RopeCovered(log: Log, cfg: ToyConfig, w: LayerWeights, Y: Matrix, t: nat) {
    var s := Pow2(cfg.scaleBits);
    var a, b := Quotients(Y, t, cfg.d, 0, s), Quotients(Y, t, cfg.d, 1, s);
    && |w.cos| == |w.sin| == cfg.d
    && Met(log, cfg.tableBits, Sum(ModP(Times(a, w.cos)), ModP(Times(b, w.sin))))
    && Met(log, cfg.tableBits, Div(cfg.scaleBits, Plus(Times(a, w.cos), Times(b, w.sin))))
  }

  /** Every step up to the turned rows has its gates and range queries. */
  ghost predicate QkvCovered(log: Log, cfg: ToyConfig, w: LayerWeights, ms: seq<Matmul>, isqrt: seq<(int, int)>) {
    var wb := cfg.tableBits;
    && |w.x| == cfg.S && |ms| == 5
    && Met(log, wb, Mul(Flat(w.x), Flat(w.x))) && Met(log, wb, Div(wb, Squares(cfg, w.x)))
    && (forall t :: 0 <= t < cfg.S ==> ProductCovered(log, cfg, w.x[t], Repeat(Nth(isqrt, t).1, cfg.d)))
    && (forall m :: 0 <= m < 3 ==> Met(log, wb, Div(cfg.scaleBits, Flat(ms[m].Y))))
    && (forall t :: 0 <= t < cfg.S ==> RopeCovered(log, cfg, w, ms[0].Y, t) && RopeCovered(log, cfg, w, ms[1].Y, t))
  }

  /** So has every step from the scores to the residual. */
  ghost predicate MixCovered(log: Log, cfg: ToyConfig, w: LayerWeights, ms: seq<Matmul>, asked: Queries, q: Matrix, k: Matrix) {
    var wb := cfg.tableBits;
    && cfg.S > 0 && |w.x| == cfg.S && |ms| == 5
    && Met(log, wb, Binary(MaskColumn(cfg.S))) && Met(log, wb, Div(wb, ScoreColumn(cfg, q, k)))
    && Met(log, wb, Div(wb, SumColumn(cfg, asked.exp)))
    && (forall t :: 0 <= t < cfg.S ==>
          ProductCovered(log, cfg, Answers(asked.exp, Base(t, cfg.S), cfg.S), Repeat(Nth(asked.recip, t).1, cfg.S)))
    && (forall m :: 3 <= m < 5 ==> Met(log, wb, Div(cfg.scaleBits, Flat(ms[m].Y))))
    && (forall t :: 0 <= t < cfg.S ==> Met(log, wb, Sum(w.x[t], Quotients(ms[4].Y, t, cfg.d, 0, Pow2(cfg.scaleBits)))))
  }

  /** The bracket of row t of the rescaled gate is on record. */
  ghost predicate GateCovered(log: Log, cfg: ToyConfig, Y: Matrix, t: nat) {
    Met(log, cfg.tableBits, Div(cfg.tableBits, Quotients(Y, t, cfg.dff, 0, Pow2(cfg.scaleBits))))
  }

  /** Every step of the feed-forward half has its gates and range queries. */
  ghost predicate FeedCovered(log: Log, cfg: ToyConfig, es: seq<MoEMatmul>, asked: Queries) {
    var wb, s := cfg.tableBits, Pow2(cfg.scaleBits);
    && |es| == 3 && |es[0].X| == cfg.S
    && (forall m :: 0 <= m < 3 ==> Met(log, wb, Div(cfg.scaleBits, Flat(es[m].Y))))
    && (forall t :: 0 <= t < cfg.S ==> GateCovered(log, cfg, es[0].Y, t))
    && (forall t :: 0 <= t < cfg.S ==>
          ProductCovered(log, cfg, Answers(asked.silu, Base(t, cfg.dff), cfg.dff), Quotients(es[1].Y, t, cfg.dff, 0, s)))
    && (forall t :: 0 <= t < cfg.S ==> Met(log, wb, Sum(es[0].X[t], Quotients(es[2].Y, t, cfg.d, 0, s))))
  }

  lemma SquaresAre(cfg: ToyConfig, x: Matrix)
    requires Sides(x, cfg.S, cfg.d)
    ensures Squares(cfg, x) == ModP(SquareSums(x, cfg.d))
  {
    hide Inner;
  }

  lemma RepeatIs(v: int, n: nat)
    ensures Repeat(v, n) == Same(v, n)
  {}

  lemma QuotientsAre(cfg: ToyConfig, Y: Matrix, t: nat, n: nat)
    requires t < |Y| && |Y[t]| == n
    ensures Quotients(Y, t, n, 0, cfg.Scale()) == ScaledRows(cfg, Y)[t]
    ensures Quotients(Y, t, n, 1, cfg.Scale()) == Shifted(ScaledRows(cfg, Y)[t])
  {
    hide Pow2;
    forall j | 0 <= j < n ensures Quotients(Y, t, n, 0, cfg.Scale())[j] == ScaledRows(cfg, Y)[t][j] { ModSmall(j, n); }
  }

  lemma RotatedIs(row: seq<int>, cos: seq<int>, sin: seq<int>)
    requires |cos| == |sin| == |row|
    ensures Rotated(row, cos, sin) == Plus(Times(row, cos), Times(Shifted(row), sin))
  {
    forall j | 0 <= j < |row| ensures Rotated(row, cos, sin)[j] == Plus(Times(row, cos), Times(Shifted(row), sin))[j] {
      RotatedAt(row, cos, sin, j);
    }
  }

  lemma RopeCovers(log: Log, cfg: ToyConfig, w: LayerWeights, Y: Matrix)
    requires WellShaped(cfg, w) && Sides(Y, cfg.S, cfg.d) && RopeMet(log, cfg, ScaledRows(cfg, Y), w.cos, w.sin, cfg.S)
    ensures forall t :: 0 <= t < cfg.S ==> RopeCovered(log, cfg, w, Y, t)
  {
    hide Met, Pow2, Rotated, Shifted, Scaled, Quotients, Times, ModP, Plus;
    var rows := ScaledRows(cfg, Y);
    forall t | 0 <= t < cfg.S ensures RopeCovered(log, cfg, w, Y, t) {
      assert |rows[t]| == cfg.d by { assert rows[t] == Scaled(cfg, Y[t]); }
      QuotientsAre(cfg, Y, t, cfg.d);
      RotatedIs(rows[t], w.cos, w.sin);
    }
  }

  lemma DivideIndex(S: nat, n: nat)
    requires S > 0 && n < S * S
    ensures 0 <= n / S < S && 0 <= n % S < S && n == n / S * S + n % S
  {
    assert n == S * (n / S) + n % S;
    if n / S >= S { TimesAtLeastBoth(S, n / S); }
  }

  lemma TimesAtLeastBoth(a: nat, b: nat)
    requires a <= b
    ensures a * a <= a * b
  {}

  lemma MaskIs(S: nat)
    requires S > 0
    ensures MaskColumn(S) == Flat(CausalMask(S))
  {
    hide Flat;
    var m := CausalMask(S);
    FlatEntry(m, S, 0, 0);
    forall n | 0 <= n < S * S ensures MaskColumn(S)[n] == Flat(m)[n] {
      DivideIndex(S, n);
      FlatEntry(m, S, n / S, n % S);
    }
  }

  lemma ScoresAre(cfg: ToyConfig, q: Matrix, k: Matrix)
    requires cfg.S > 0 && |q| == |k| == cfg.S
    ensures ScoreColumn(cfg, q, k) == Flat(ModRows(Scores(q, k, cfg.d)))
  {
    hide Flat, Inner, Scores, ModRows;
    var rows := ModRows(Scores(q, k, cfg.d));
    ScoreRows(q, k, cfg.d, cfg.S);
    FlatEntry(rows, cfg.S, 0, 0);
    forall n | 0 <= n < cfg.S * cfg.S ensures ScoreColumn(cfg, q, k)[n] == Flat(rows)[n] {
      DivideIndex(cfg.S, n);
      FlatEntry(rows, cfg.S, n / cfg.S, n % cfg.S);
      ScoreCell(cfg, q, k, n, n / cfg.S, n % cfg.S);
    }
  }

  lemma ScoreCell(cfg: ToyConfig, q: Matrix, k: Matrix, n: nat, t: nat, i: nat)
    requires cfg.S > 0 && |q| == |k| == cfg.S && n < cfg.S * cfg.S && t == n / cfg.S < cfg.S && i == n % cfg.S < cfg.S
    ensures ScoreColumn(cfg, q, k)[n] == Causal(t, i, Inner(q[t], k[i], cfg.d)) % P
  {
    hide Inner;
  }

  lemma AnswersAre(cfg: ToyConfig, root: nat -> nat, q: Matrix, k: Matrix, t: nat)
    requires cfg.Positive() && Sides(q, cfg.S, cfg.d) && Sides(k, cfg.S, cfg.d) && t < cfg.S
    ensures Answers(MixQueries(cfg, root, q, k).exp, Base(t, cfg.S), cfg.S) == Exponentials(cfg, root, q, k)[t]
    ensures ValueSum(MixQueries(cfg, root, q, k).exp, Base(t, cfg.S), cfg.S) == RowSum(Exponentials(cfg, root, q, k)[t])
  {
    hide MixQueries, Exponentials, Nth, Inner, ValueSum, RowSum;
    var exp, e := MixQueries(cfg, root, q, k).exp, Exponentials(cfg, root, q, k);
    forall i | 0 <= i < cfg.S ensures Nth(exp, t * cfg.S + i).1 == e[t][i] { ScoreAsked(cfg, root, q, k, t, i); }
    ValueSumIs(exp, t * cfg.S, e[t]);
  }

  lemma SumsAre(cfg: ToyConfig, root: nat -> nat, q: Matrix, k: Matrix)
    requires cfg.Positive() && Sides(q, cfg.S, cfg.d) && Sides(k, cfg.S, cfg.d)
    ensures SumColumn(cfg, MixQueries(cfg, root, q, k).exp) == RowSums(Exponentials(cfg, root, q, k))
  {
    hide MixQueries, Exponentials, ValueSum, RowSum, Answers;
    forall t | 0 <= t < cfg.S
      ensures SumColumn(cfg, MixQueries(cfg, root, q, k).exp)[t] == RowSums(Exponentials(cfg, root, q, k))[t]
    {
      AnswersAre(cfg, root, q, k, t);
    }
  }

  lemma GluAnswerAt(cfg: ToyConfig, root: nat -> nat, v: Matrix, t: nat, j: nat)
    requires cfg.Positive() && Sides(v, cfg.S, cfg.dff) && t < cfg.S && j < cfg.dff
    ensures Nth(LookedUp(cfg, root, SiluTable, Flat(v)).silu, Base(t, cfg.dff) + j).1 == Nonlinear(cfg, root, SiluTable, v[t])[j]
  {
    hide Pow2, TableEntry, Flat, Nonlinear, Nth, Lows;
    FlatEntry(v, cfg.dff, t, j);
    LookedUpAt(cfg, root, SiluTable, Flat(v), t * cfg.dff + j);
    LookedUpAt(cfg, root, SiluTable, v[t], j);
    NthIs(LookedUp(cfg, root, SiluTable, Flat(v)).silu, t * cfg.dff + j);
  }

  lemma GluAnswersAre(cfg: ToyConfig, root: nat -> nat, v: Matrix, t: nat)
    requires cfg.Positive() && Sides(v, cfg.S, cfg.dff) && t < cfg.S
    ensures Answers(LookedUp(cfg, root, SiluTable, Flat(v)).silu, Base(t, cfg.dff), cfg.dff) == Nonlinear(cfg, root, SiluTable, v[t])
  {
    hide Pow2, TableEntry, Flat, Nonlinear, Nth, Lows, Base, LookedUp;
    forall j | 0 <= j < cfg.dff
      ensures Nth(LookedUp(cfg, root, SiluTable, Flat(v)).silu, Base(t, cfg.dff) + j).1 == Nonlinear(cfg, root, SiluTable, v[t])[j]
    {
      GluAnswerAt(cfg, root, v, t, j);
    }
  }

  lemma ScaleCovers(log: Log, cfg: ToyConfig, rows: Matrix, c: seq<int>, width: nat, t: nat, a: seq<int>)
    requires |c| == |rows| && AllWide(rows, width) && ScaleMet(log, cfg, rows, c, width, |rows|) && t < |rows| && a == rows[t]
    ensures ProductCovered(log, cfg, a, Repeat(c[t], width))
  {
    hide Met, Repeat, Same, Times;
    RepeatIs(c[t], width);
    SameLength(c[t], width);
  }

  lemma IsqrtAt(cfg: ToyConfig, root: nat -> nat, x: Matrix, t: nat)
    requires t < |x|
    ensures var v := ModP(SquareSums(x, cfg.d));
      Nth(LookedUp(cfg, root, IsqrtTable, v).isqrt, t).1 == Nonlinear(cfg, root, IsqrtTable, v)[t]
  {
    hide SquareSums, ModP, Lows, Nonlinear, TableEntry, Nth;
    LookedUpAt(cfg, root, IsqrtTable, ModP(SquareSums(x, cfg.d)), t);
    NthIs(LookedUp(cfg, root, IsqrtTable, ModP(SquareSums(x, cfg.d))).isqrt, t);
  }

  lemma NormCovers(log: Log, cfg: ToyConfig, root: nat -> nat, x: Matrix)
    requires cfg.Positive() && Sides(x, cfg.S, cfg.d) && NormMet(log, cfg, root, x)
    ensures var isqrt := LookedUp(cfg, root, IsqrtTable, ModP(SquareSums(x, cfg.d))).isqrt;
      && Met(log, cfg.tableBits, Mul(Flat(x), Flat(x))) && Met(log, cfg.tableBits, Div(cfg.tableBits, Squares(cfg, x)))
      && forall t :: 0 <= t < cfg.S ==> ProductCovered(log, cfg, x[t], Repeat(Nth(isqrt, t).1, cfg.d))
  {
    hide Met, ScaleMet, ProductCovered, Nonlinear, LookedUp, SquareSums, ModP, Squares, Flat, Repeat, Nth;
    SquaresAre(cfg, x);
    var v := ModP(SquareSums(x, cfg.d));
    forall t | 0 <= t < cfg.S ensures ProductCovered(log, cfg, x[t], Repeat(Nth(LookedUp(cfg, root, IsqrtTable, v).isqrt, t).1, cfg.d)) {
      IsqrtAt(cfg, root, x, t);
      ScaleCovers(log, cfg, x, Nonlinear(cfg, root, IsqrtTable, v), cfg.d, t, x[t]);
    }
  }

  /** A fine contraction's node, on record as it is recorded. */
  lemma LinearCovers(log: Log, cfg: ToyConfig, name: string, X: Matrix, W: Matrix, nIn: nat)
    requires cfg.Positive() && LinearStatus(cfg, X, W, nIn).Fine? && LinearMet(log, cfg, X, W, nIn)
    ensures Met(log, cfg.tableBits, Div(cfg.scaleBits, Flat(Node(name, X, W, nIn).Y)))
  {
    hide LinearStatus, Raws, Flat, Met;
    LinearIsExact(cfg, name, X, W, nIn);
  }

  lemma QkvCovers(log: Log, cfg: ToyConfig, root: nat -> nat, w: LayerWeights)
    requires WellShaped(cfg, w) && AttentionStatus(cfg, root, w).Fine? && NormMet(log, cfg, root, w.x)
    requires QkvMet(log, cfg, Normed(cfg, root, w.x), w)
    ensures QkvCovered(log, cfg, w, AttentionNodes(cfg, root, w), AttentionQueries(cfg, root, w).isqrt)
  {
    hide Met, NormMet, RopeMet, LinearMet, ProductCovered, RopeCovered, Node, Normed, Linear, AttentionStatus, LinearStatus, Flat, Squares,
      Repeat, MixQueries, Nth, AttentionQueries, ModP, SquareSums, LookedUp, Softmax, Exponentials, Turned, Transposed, ScaledRows;
    var d, xn := cfg.d, Normed(cfg, root, w.x);
    AttentionFine(cfg, root, w);
    AskedInTurn(cfg, root, w);
    NormCovers(log, cfg, root, w.x);
    LinearCovers(log, cfg, "Wq", xn, w.Wq, d);
    LinearCovers(log, cfg, "Wk", xn, w.Wk, d);
    LinearCovers(log, cfg, "Wv", xn, w.Wv, d);
    NodeFlows(cfg, "Wq", xn, w.Wq, d, d);
    NodeFlows(cfg, "Wk", xn, w.Wk, d, d);
    RopeCovers(log, cfg, w, Node("Wq", xn, w.Wq, d).Y);
    RopeCovers(log, cfg, w, Node("Wk", xn, w.Wk, d).Y);
    var ms := AttentionNodes(cfg, root, w);
    assert ms[0] == Node("Wq", xn, w.Wq, d) && ms[1] == Node("Wk", xn, w.Wk, d) && ms[2] == Node("Wv", xn, w.Wv, d);
    forall m | 0 <= m < 3 ensures Met(log, cfg.tableBits, Div(cfg.scaleBits, Flat(ms[m].Y))) {}
  }

  lemma SoftmaxCovers(log: Log, cfg: ToyConfig, root: nat -> nat, q: Matrix, k: Matrix)
    requires cfg.Positive() && Sides(q, cfg.S, cfg.d) && Sides(k, cfg.S, cfg.d)
    requires SoftmaxMet(log, cfg, root, Exponentials(cfg, root, q, k))
    ensures var asked := MixQueries(cfg, root, q, k);
      && Met(log, cfg.tableBits, Div(cfg.tableBits, SumColumn(cfg, asked.exp)))
      && forall t :: 0 <= t < cfg.S ==>
           ProductCovered(log, cfg, Answers(asked.exp, Base(t, cfg.S), cfg.S), Repeat(Nth(asked.recip, t).1, cfg.S))
  {
    hide Met, SoftmaxMet, ProductCovered, SumColumn, Answers, MixQueries, Repeat, Nth, Base;
    SumsAre(cfg, root, q, k);
    SumsMet(log, cfg, root, Exponentials(cfg, root, q, k));
    forall t | 0 <= t < cfg.S
      ensures var asked := MixQueries(cfg, root, q, k);
        ProductCovered(log, cfg, Answers(asked.exp, Base(t, cfg.S), cfg.S), Repeat(Nth(asked.recip, t).1, cfg.S))
    {
      SoftmaxRowCovers(log, cfg, root, q, k, t);
    }
  }

  lemma SumsMet(log: Log, cfg: ToyConfig, root: nat -> nat, e: Matrix)
    requires AllWide(e, cfg.S) && SoftmaxMet(log, cfg, root, e)
    ensures Met(log, cfg.tableBits, Div(cfg.tableBits, RowSums(e)))
    ensures ScaleMet(log, cfg, e, Nonlinear(cfg, root, RecipTable, RowSums(e)), cfg.S, |e|)
  {
    hide Met, ScaleMet;
  }

  lemma SoftmaxRowCovers(log: Log, cfg: ToyConfig, root: nat -> nat, q: Matrix, k: Matrix, t: nat)
    requires cfg.Positive() && Sides(q, cfg.S, cfg.d) && Sides(k, cfg.S, cfg.d) && t < cfg.S
    requires SoftmaxMet(log, cfg, root, Exponentials(cfg, root, q, k))
    ensures var asked := MixQueries(cfg, root, q, k);
      ProductCovered(log, cfg, Answers(asked.exp, Base(t, cfg.S), cfg.S), Repeat(Nth(asked.recip, t).1, cfg.S))
  {
    hide Met, ScaleMet, SoftmaxMet, ProductCovered, Nonlinear, Answers, Exponentials, MixQueries, Repeat, Nth, Lows, Scores, ModRows, Flat, Base;
    var e, asked := Exponentials(cfg, root, q, k), MixQueries(cfg, root, q, k);
    MixAsked(cfg, root, q, k);
    AnswersAre(cfg, root, q, k, t);
    LookedUpAt(cfg, root, RecipTable, RowSums(e), t);
    NthIs(asked.recip, t);
    SumsMet(log, cfg, root, e);
    ScaleCovers(log, cfg, e, Nonlinear(cfg, root, RecipTable, RowSums(e)), cfg.S, t, e[t]);
  }

  lemma AddCovers(log: Log, cfg: ToyConfig, x: Matrix, Y: Matrix)
    requires Sides(x, cfg.S, cfg.d) && Sides(Y, cfg.S, cfg.d) && AddMet(log, cfg.tableBits, x, ScaledRows(cfg, Y), cfg.S)
    ensures forall t :: 0 <= t < cfg.S ==> Met(log, cfg.tableBits, Sum(x[t], Quotients(Y, t, cfg.d, 0, Pow2(cfg.scaleBits))))
  {
    hide Met, Scaled, Quotients, Pow2;
    forall t | 0 <= t < cfg.S ensures Met(log, cfg.tableBits, Sum(x[t], Quotients(Y, t, cfg.d, 0, Pow2(cfg.scaleBits)))) {
      QuotientsAre(cfg, Y, t, cfg.d);
    }
  }

  lemma MixCovers(log: Log, cfg: ToyConfig, root: nat -> nat, w: LayerWeights)
    requires WellShaped(cfg, w) && AttentionStatus(cfg, root, w).Fine? && AttentionMet(log, cfg, root, w)
    ensures MixCovered(log, cfg, w, AttentionNodes(cfg, root, w), AttentionQueries(cfg, root, w),
                       Turned(cfg, root, w, w.Wq), Turned(cfg, root, w, w.Wk))
  {
    hide Met, NormMet, QkvMet, SoftmaxMet, LinearMet, AddMet, ProductCovered, Node, Normed, Linear, AttentionStatus, LinearStatus, Flat,
      Repeat, MixQueries, Nth, AttentionQueries, Softmax, Exponentials, Turned, Transposed, ScaledRows, MaskColumn, ScoreColumn, SumColumn,
      Answers, Quotients, Scores, ModRows, CausalMask, Pow2, Base;
    var d, xn := cfg.d, Normed(cfg, root, w.x);
    var q, k, v := Turned(cfg, root, w, w.Wq), Turned(cfg, root, w, w.Wk), Linear(cfg, xn, w.Wv, d);
    var p := Softmax(cfg, root, Exponentials(cfg, root, q, k));
    var a := Linear(cfg, p, Transposed(v, d), cfg.S);
    AttentionFine(cfg, root, w);
    AskedInTurn(cfg, root, w);
    MaskIs(cfg.S);
    ScoresAre(cfg, q, k);
    SoftmaxCovers(log, cfg, root, q, k);
    LinearCovers(log, cfg, "attn_pv", p, Transposed(v, d), cfg.S);
    LinearCovers(log, cfg, "Wo", a, w.Wo, d);
    NodeFlows(cfg, "Wo", a, w.Wo, d, d);
    AddCovers(log, cfg, w.x, Node("Wo", a, w.Wo, d).Y);
  }

  lemma RoutedCovers(log: Log, cfg: ToyConfig, name: string, route: seq<nat>, X: Matrix, W: seq<Matrix>, dOut: nat, dIn: nat)
    requires cfg.Positive() && Stack(W, dOut, dIn) && Routed(route, |X|, |W|) && RoutedStatus(cfg, X, W, route, dOut, dIn).Fine?
    requires RoutedMet(log, cfg, X, W, route, dOut, dIn)
    ensures Met(log, cfg.tableBits, Div(cfg.scaleBits, Flat(RoutedNode(name, route, X, W, dOut, dIn).Y)))
  {
    hide RoutedStatus, RoutedRaws, Flat, Met, Stack;
    RoutedIsExact(cfg, name, route, X, W, dOut, dIn);
  }

  lemma GluCovers(log: Log, cfg: ToyConfig, root: nat -> nat, G: Matrix, U: Matrix)
    requires cfg.Positive() && Sides(G, cfg.S, cfg.dff) && Sides(U, cfg.S, cfg.dff)
    requires Sides(ScaledRows(cfg, G), cfg.S, cfg.dff) && Sides(ScaledRows(cfg, U), cfg.S, cfg.dff)
    requires GluMet(log, cfg, root, ScaledRows(cfg, G), ScaledRows(cfg, U), cfg.S)
    ensures var silu, s := LookedUp(cfg, root, SiluTable, Flat(ScaledRows(cfg, G))).silu, Pow2(cfg.scaleBits);
      && (forall t :: 0 <= t < cfg.S ==> GateCovered(log, cfg, G, t))
      && forall t :: 0 <= t < cfg.S ==>
           ProductCovered(log, cfg, Answers(silu, Base(t, cfg.dff), cfg.dff), Quotients(U, t, cfg.dff, 0, s))
  {
    hide Met, LookedUp, Nonlinear, Quotients, Answers, Flat, Times, Pow2, Scaled, Base;
    var silu := LookedUp(cfg, root, SiluTable, Flat(ScaledRows(cfg, G))).silu;
    forall t | 0 <= t < cfg.S
      ensures GateCovered(log, cfg, G, t)
      ensures ProductCovered(log, cfg, Answers(silu, Base(t, cfg.dff), cfg.dff), Quotients(U, t, cfg.dff, 0, Pow2(cfg.scaleBits)))
    {
      assert GluRowMet(log, cfg, root, ScaledRows(cfg, G)[t], ScaledRows(cfg, U)[t]);
      QuotientsAre(cfg, G, t, cfg.dff);
      QuotientsAre(cfg, U, t, cfg.dff);
      GluAnswersAre(cfg, root, ScaledRows(cfg, G), t);
    }
  }

  lemma FeedCovers(log: Log, cfg: ToyConfig, root: nat -> nat, w: LayerWeights, h: Matrix)
    requires WellShaped(cfg, w) && FeedShaped(cfg, h, w.experts, w.route) && FeedStatus(cfg, root, h, w.experts, w.route).Fine?
    requires FeedMet(log, cfg, root, h, w.experts, w.route)
    ensures FeedCovered(log, cfg, FeedNodes(cfg, root, h, w.experts, w.route), FeedQueries(cfg, root, h, w.experts, w.route))
  {
    hide Met, RoutedMet, GluMet, AddMet, ProductCovered, GateCovered, RoutedNode, RoutedLinear, SwiGlu, FeedStatus, RoutedStatus, Stack, LookedUp, Flat,
      ScaledRows, Quotients, Answers, Pow2, Base;
    var e, r := w.experts, w.route;
    var g, u := RoutedLinear(cfg, h, Gates3(e), r, cfg.dff, cfg.d), RoutedLinear(cfg, h, Ups3(e), r, cfg.dff, cfg.d);
    var f := SwiGlu(cfg, root, g, u);
    var es := FeedNodes(cfg, root, h, e, r);
    FeedFine(cfg, root, h, e, r);
    RoutedFlows(cfg, "moe_gate", r, h, Gates3(e), cfg.dff, cfg.d);
    RoutedFlows(cfg, "moe_up", r, h, Ups3(e), cfg.dff, cfg.d);
    RoutedFlows(cfg, "moe_down", r, f, Downs3(e), cfg.d, cfg.dff);
    RoutedCovers(log, cfg, "moe_gate", r, h, Gates3(e), cfg.dff, cfg.d);
    RoutedCovers(log, cfg, "moe_up", r, h, Ups3(e), cfg.dff, cfg.d);
    RoutedCovers(log, cfg, "moe_down", r, f, Downs3(e), cfg.d, cfg.dff);
    GluCovers(log, cfg, root, es[0].Y, es[1].Y);
    AddCovers(log, cfg, h, es[2].Y);
    assert es[0].X == h && |es| == 3;
    forall m | 0 <= m < 3 ensures Met(log, cfg.tableBits, Div(cfg.scaleBits, Flat(es[m].Y))) {}
  }

  /** Every step of the layer is on record. */
  lemma LayerCovers(log: Log, cfg: ToyConfig, root: nat -> nat, w: LayerWeights)
    requires WellShaped(cfg, w) && LayerStatus(cfg, root, w).Fine? && LayerMet(log, cfg, root, w)
    ensures var ms, es, asked := AttentionNodes(cfg, root, w), LayerNodes(cfg, root, w), LayerQueries(cfg, root, w);
      && QkvCovered(log, cfg, w, ms, asked.isqrt)
      && MixCovered(log, cfg, w, ms, asked, Turned(cfg, root, w, w.Wq), Turned(cfg, root, w, w.Wk))
      && FeedCovered(log, cfg, es, asked)
  {
    hide QkvCovered, MixCovered, FeedCovered, Attention, AttentionStatus, FeedStatus, AttentionNodes, FeedNodes, AttentionQueries,
      FeedQueries, Turned, FeedShaped, LayerNodes, LayerQueries, NormMet, QkvMet, MixMet, AddMet, FeedMet;
    var h := Attention(cfg, root, w);
    WeightsFeed(cfg, w, h);
    LayerRecords(cfg, root, w);
    LayerMetIs(log, cfg, root, w);
    SplitAsked(cfg, root, w);
    QkvCovers(log, cfg, root, w);
    MixCovers(log, cfg, root, w);
    FeedCovers(log, cfg, root, w, h);
    SameMix(log, cfg, w, AttentionNodes(cfg, root, w), AttentionQueries(cfg, root, w), LayerQueries(cfg, root, w),
            Turned(cfg, root, w, w.Wq), Turned(cfg, root, w, w.Wk));
    SameFeed(log, cfg, LayerNodes(cfg, root, w), FeedQueries(cfg, root, h, w.experts, w.route), LayerQueries(cfg, root, w));
  }

  lemma SameMix(log: Log, cfg: ToyConfig, w: LayerWeights, ms: seq<Matmul>, a: Queries, b: Queries, q: Matrix, k: Matrix)
    requires a.exp == b.exp && a.recip == b.recip && MixCovered(log, cfg, w, ms, a, q, k)
    ensures MixCovered(log, cfg, w, ms, b, q, k)
  {
    hide Met, ProductCovered, Base, Answers, Repeat;
  }

  lemma SameFeed(log: Log, cfg: ToyConfig, es: seq<MoEMatmul>, a: Queries, b: Queries)
    requires a.silu == b.silu && FeedCovered(log, cfg, es, a)
    ensures FeedCovered(log, cfg, es, b)
  {
    hide Met, ProductCovered, Base, Answers, Repeat;
  }
}
