/** The transformer layer of layergkr/semantics.py: what it computes as plain integer functions,
    and the emitting program, which returns exactly that together with a trace that holds. */
module Forward {
  import opened NumberTheory
  import opened Field
  import opened Polynomial
  import opened Sumcheck
  import opened Lifting
  import opened Gates
  import opened Rows
  import opened Semantics
  import opened Demands

  datatype Expert = Expert(gate: Matrix, up: Matrix, down: Matrix)

  datatype LayerWeights = LayerWeights(x: Matrix, Wq: Matrix, Wk: Matrix, Wv: Matrix, Wo: Matrix,
                                       cos: seq<int>, sin: seq<int>, experts: seq<Expert>, route: seq<nat>)

  ghost predicate WellShaped(cfg: ToyConfig, w: LayerWeights) {
    && cfg.Positive() && Sides(w.x, cfg.S, cfg.d)
    && Sides(w.Wq, cfg.d, cfg.d) && Sides(w.Wk, cfg.d, cfg.d) && Sides(w.Wv, cfg.d, cfg.d) && Sides(w.Wo, cfg.d, cfg.d)
    && |w.cos| == cfg.d && |w.sin| == cfg.d && |w.experts| == cfg.Experts() && Routed(w.route, cfg.S, cfg.Experts())
    && forall e :: 0 <= e < |w.experts| ==>
         && Sides(w.experts[e].gate, cfg.dff, cfg.d) && Sides(w.experts[e].up, cfg.dff, cfg.d)
         && Sides(w.experts[e].down, cfg.d, cfg.dff)
  }

  // ------------------------------------------------------- what the layer computes

  function Same(v: int, n: nat): seq<int> { seq(n, _ => v) }

  function SquareSums(x: Matrix, d: nat): (s: seq<int>)
    ensures |s| == |x| && forall t :: 0 <= t < |x| ==> s[t] == Inner(x[t], x[t], d)
  {
    seq(|x|, t requires 0 <= t < |x| => Inner(x[t], x[t], d))
  }

  /** A table value of the low part. */
  function Nonlinear(cfg: ToyConfig, root: nat -> nat, name: TableName, v: seq<int>): (r: seq<int>)
    ensures |r| == |v|
  {
    Looked(cfg, root, name, Lows(cfg, v))
  }

  /** Row t scaled by the common factor c[t]. */
  function ScaleRows(cfg: ToyConfig, rows: Matrix, c: seq<int>, width: nat): (r: Matrix)
    requires |c| == |rows| && AllWide(rows, width)
    ensures |r| == |rows| && AllWide(r, width)
    ensures forall t :: 0 <= t < |r| ==> r[t] == Scaled(cfg, Times(rows[t], Same(c[t], width)))
  {
    seq(|rows|, t requires 0 <= t < |rows| => Scaled(cfg, Times(rows[t], Same(c[t], width))))
  }

  function Normed(cfg: ToyConfig, root: nat -> nat, x: Matrix): (xn: Matrix)
    requires AllWide(x, cfg.d)
    ensures |xn| == |x| && AllWide(xn, cfg.d)
  {
    ScaleRows(cfg, x, Nonlinear(cfg, root, IsqrtTable, ModP(SquareSums(x, cfg.d))), cfg.d)
  }

  function Linear(cfg: ToyConfig, X: Matrix, W: Matrix, nIn: nat): (Y: Matrix)
    ensures |Y| == |X| && AllWide(Y, |W|)
  {
    ScaledRows(cfg, Raws(X, W, nIn))
  }

  /** row[j]*cos[j] + row[(j+1) % d]*sin[j] */
  function Rotated(row: seq<int>, cos: seq<int>, sin: seq<int>): (r: seq<int>)
    requires |cos| == |sin| == |row|
    ensures |r| == |row|
    ensures forall j :: 0 <= j < |row| ==> r[j] == row[j] * cos[j] + row[(j + 1) % |row|] * sin[j]
  {
    seq(|row|, j requires 0 <= j < |row| => row[j] * cos[j] + row[(j + 1) % |row|] * sin[j])
  }

  function Shifted(row: seq<int>): (r: seq<int>)
    ensures |r| == |row|
  {
    seq(|row|, j requires 0 <= j < |row| => row[(j + 1) % |row|])
  }

  function Rope(cfg: ToyConfig, rows: Matrix, cos: seq<int>, sin: seq<int>): (r: Matrix)
    requires |cos| == |sin| && AllWide(rows, |cos|)
    ensures |r| == |rows| && AllWide(r, |cos|)
    ensures forall t :: 0 <= t < |rows| ==> r[t] == Scaled(cfg, Rotated(rows[t], cos, sin))
  {
    seq(|rows|, t requires 0 <= t < |rows| => Scaled(cfg, Rotated(rows[t], cos, sin)))
  }

  /** Causal: only i <= t is contracted. */
  function Scores(q: Matrix, k: Matrix, d: nat): (s: Matrix)
    ensures |s| == |q| && AllWide(s, |k|)
    ensures forall t, i :: 0 <= t < |q| && 0 <= i < |k| ==> s[t][i] == if i <= t then Inner(q[t], k[i], d) else 0
  {
    seq(|q|, t requires 0 <= t < |q| => seq(|k|, i requires 0 <= i < |k| => if i <= t then Inner(q[t], k[i], d) else 0))
  }

  function NonlinearRows(cfg: ToyConfig, root: nat -> nat, name: TableName, rows: Matrix): (r: Matrix)
    ensures |r| == |rows| && forall t :: 0 <= t < |r| ==> r[t] == Nonlinear(cfg, root, name, rows[t])
  {
    seq(|rows|, t requires 0 <= t < |rows| => Nonlinear(cfg, root, name, rows[t]))
  }

  function RowSum(row: seq<int>): int {
    if row == [] then 0 else row[0] + RowSum(row[1..])
  }

  function RowSums(rows: Matrix): (s: seq<int>)
    ensures |s| == |rows| && forall t :: 0 <= t < |s| ==> s[t] == RowSum(rows[t]) % P
  {
    seq(|rows|, t requires 0 <= t < |rows| => RowSum(rows[t]) % P)
  }

  function Exponentials(cfg: ToyConfig, root: nat -> nat, q: Matrix, k: Matrix): (e: Matrix)
    ensures |e| == |q| && AllWide(e, |k|)
  {
    NonlinearRows(cfg, root, ExpTable, ModRows(Scores(q, k, cfg.d)))
  }

  function Softmax(cfg: ToyConfig, root: nat -> nat, e: Matrix): (p: Matrix)
    requires AllWide(e, cfg.S)
    ensures |p| == |e| && AllWide(p, cfg.S)
  {
    ScaleRows(cfg, e, Nonlinear(cfg, root, RecipTable, RowSums(e)), cfg.S)
  }

  function Transposed(v: Matrix, d: nat): (r: Matrix)
    ensures |r| == d && AllWide(r, |v|)
    ensures forall j, i :: 0 <= j < d && 0 <= i < |v| ==> r[j][i] == At(v[i], j)
  {
    seq(d, j requires 0 <= j < d => seq(|v|, i requires 0 <= i < |v| => At(v[i], j)))
  }

  function AddRows(a: Matrix, b: Matrix, width: nat): (r: Matrix)
    requires |a| == |b| && AllWide(a, width) && AllWide(b, width)
    ensures |r| == |a| && AllWide(r, width) && forall t :: 0 <= t < |r| ==> r[t] == Plus(a[t], b[t])
  {
    seq(|a|, t requires 0 <= t < |a| => Plus(a[t], b[t]))
  }

  function Attention(cfg: ToyConfig, root: nat -> nat, w: LayerWeights): (h: Matrix)
    requires WellShaped(cfg, w)
    ensures Sides(h, cfg.S, cfg.d)
  {
    var xn := Normed(cfg, root, w.x);
    var q := Rope(cfg, Linear(cfg, xn, w.Wq, cfg.d), w.cos, w.sin);
    var k := Rope(cfg, Linear(cfg, xn, w.Wk, cfg.d), w.cos, w.sin);
    var v := Linear(cfg, xn, w.Wv, cfg.d);
    var p := Softmax(cfg, root, Exponentials(cfg, root, q, k));
    var a := Linear(cfg, p, Transposed(v, cfg.d), cfg.S);
    AddRows(w.x, Linear(cfg, a, w.Wo, cfg.d), cfg.d)
  }

  function Gates3(experts: seq<Expert>): (W: seq<Matrix>)
    ensures |W| == |experts| && forall e :: 0 <= e < |W| ==> W[e] == experts[e].gate
  { seq(|experts|, e requires 0 <= e < |experts| => experts[e].gate) }

  function Ups3(experts: seq<Expert>): (W: seq<Matrix>)
    ensures |W| == |experts| && forall e :: 0 <= e < |W| ==> W[e] == experts[e].up
  { seq(|experts|, e requires 0 <= e < |experts| => experts[e].up) }

  function Downs3(experts: seq<Expert>): (W: seq<Matrix>)
    ensures |W| == |experts| && forall e :: 0 <= e < |W| ==> W[e] == experts[e].down
  { seq(|experts|, e requires 0 <= e < |experts| => experts[e].down) }

  function RoutedLinear(cfg: ToyConfig, X: Matrix, W: seq<Matrix>, route: seq<nat>, dOut: nat, dIn: nat): (Y: Matrix)
    requires Stack(W, dOut, dIn) && Routed(route, |X|, |W|)
    ensures |Y| == |X| && AllWide(Y, dOut)
  {
    ScaledRows(cfg, RoutedRaws(X, W, route, dOut, dIn))
  }

  /** silu[gate] * up, row by row. */
  function SwiGlu(cfg: ToyConfig, root: nat -> nat, g: Matrix, u: Matrix): (f: Matrix)
    requires |g| == |u| && AllWide(g, cfg.dff) && AllWide(u, cfg.dff)
    ensures |f| == |g| && AllWide(f, cfg.dff)
    ensures forall t :: 0 <= t < |f| ==> f[t] == Scaled(cfg, Times(Nonlinear(cfg, root, SiluTable, g[t]), u[t]))
  {
    seq(|g|, t requires 0 <= t < |g| => Scaled(cfg, Times(Nonlinear(cfg, root, SiluTable, g[t]), u[t])))
  }

  ghost predicate FeedShaped(cfg: ToyConfig, h: Matrix, experts: seq<Expert>, route: seq<nat>) {
    && cfg.Positive() && Sides(h, cfg.S, cfg.d) && Routed(route, cfg.S, |experts|)
    && Stack(Gates3(experts), cfg.dff, cfg.d) && Stack(Ups3(experts), cfg.dff, cfg.d)
    && Stack(Downs3(experts), cfg.d, cfg.dff)
  }

  function FeedForward(cfg: ToyConfig, root: nat -> nat, h: Matrix, experts: seq<Expert>, route: seq<nat>): (y: Matrix)
    requires FeedShaped(cfg, h, experts, route)
    ensures Sides(y, cfg.S, cfg.d)
  {
    var g := RoutedLinear(cfg, h, Gates3(experts), route, cfg.dff, cfg.d);
    var u := RoutedLinear(cfg, h, Ups3(experts), route, cfg.dff, cfg.d);
    var f := SwiGlu(cfg, root, g, u);
    AddRows(h, RoutedLinear(cfg, f, Downs3(experts), route, cfg.d, cfg.dff), cfg.d)
  }

  lemma WeightsFeed(cfg: ToyConfig, w: LayerWeights, h: Matrix)
    requires WellShaped(cfg, w) && Sides(h, cfg.S, cfg.d)
    ensures FeedShaped(cfg, h, w.experts, w.route)
  {}

  /** The layer's output, as integers. */
  function LayerOutput(cfg: ToyConfig, root: nat -> nat, w: LayerWeights): Matrix
    requires WellShaped(cfg, w)
  {
    var h := Attention(cfg, root, w);
    WeightsFeed(cfg, w, h);
    FeedForward(cfg, root, h, w.experts, w.route)
  }

  // ------------------------------------------------------- when a step is refused

  /** The first refusal decides. */
  function Then(a: Status, b: Status): Status {
    if a.Fine? then b else a
  }

  function First(sts: seq<Status>): Status {
    if sts == [] then Fine else Then(First(sts[..|sts| - 1]), sts[|sts| - 1])
  }

  lemma {:induction false} FirstStops(sts: seq<Status>, t: nat)
    requires t < |sts| && First(sts[..t]) == Fine && sts[t] != Fine
    ensures First(sts) == sts[t]
  {
    var n := |sts| - 1;
    if t < n {
      assert sts[..n][..t] == sts[..t];
      FirstStops(sts[..n], t);
    }
  }

  lemma FirstNone()
    ensures First([]) == Fine
  {}

  lemma FirstMore(sts: seq<Status>, t: nat)
    requires t < |sts| && First(sts[..t]) == Fine && sts[t] == Fine
    ensures First(sts[..t + 1]) == Fine
  {
    assert sts[..t + 1][..t] == sts[..t];
  }

  function LookStatus(cfg: ToyConfig, v: seq<int>): Status
    requires cfg.Positive()
  {
    QuotientStatus(cfg, Highs(cfg, v), cfg.tableBits)
  }

  function LinearStatus(cfg: ToyConfig, X: Matrix, W: Matrix, nIn: nat): Status
    requires cfg.Positive()
  {
    RescaleStatus(cfg, Flat(Raws(X, W, nIn)))
  }

  function EachStatus(cfg: ToyConfig, rows: Matrix, c: seq<int>, width: nat): (s: seq<Status>)
    requires cfg.Positive() && |c| == |rows| && AllWide(rows, width)
    ensures |s| == |rows|
    ensures forall t :: 0 <= t < |s| ==> s[t] == RescaleStatus(cfg, Times(rows[t], Same(c[t], width)))
  {
    seq(|rows|, t requires 0 <= t < |rows| => RescaleStatus(cfg, Times(rows[t], Same(c[t], width))))
  }

  function NormStatus(cfg: ToyConfig, root: nat -> nat, x: Matrix): Status
    requires cfg.Positive() && AllWide(x, cfg.d)
  {
    var sq := ModP(SquareSums(x, cfg.d));
    Then(LookStatus(cfg, sq), First(EachStatus(cfg, x, Nonlinear(cfg, root, IsqrtTable, sq), cfg.d)))
  }

  function RopeStatus(cfg: ToyConfig, rows: Matrix, cos: seq<int>, sin: seq<int>): (s: seq<Status>)
    requires cfg.Positive() && |cos| == |sin| && AllWide(rows, |cos|)
    ensures |s| == |rows| && forall t :: 0 <= t < |s| ==> s[t] == RescaleStatus(cfg, Rotated(rows[t], cos, sin))
  {
    seq(|rows|, t requires 0 <= t < |rows| => RescaleStatus(cfg, Rotated(rows[t], cos, sin)))
  }

  function QkvStatus(cfg: ToyConfig, xn: Matrix, w: LayerWeights): Status
    requires WellShaped(cfg, w) && AllWide(xn, cfg.d)
  {
    Then(LinearStatus(cfg, xn, w.Wq, cfg.d), Then(LinearStatus(cfg, xn, w.Wk, cfg.d), Then(LinearStatus(cfg, xn, w.Wv, cfg.d),
      Then(First(RopeStatus(cfg, Linear(cfg, xn, w.Wq, cfg.d), w.cos, w.sin)),
           First(RopeStatus(cfg, Linear(cfg, xn, w.Wk, cfg.d), w.cos, w.sin))))))
  }

  function SoftmaxStatus(cfg: ToyConfig, root: nat -> nat, e: Matrix): Status
    requires cfg.Positive() && AllWide(e, cfg.S)
  {
    Then(LookStatus(cfg, RowSums(e)), First(EachStatus(cfg, e, Nonlinear(cfg, root, RecipTable, RowSums(e)), cfg.S)))
  }

  function MixStatus(cfg: ToyConfig, root: nat -> nat, q: Matrix, k: Matrix, v: Matrix, Wo: Matrix): Status
    requires cfg.Positive() && |q| == |k| == |v| == cfg.S
  {
    var e := Exponentials(cfg, root, q, k);
    var p := Softmax(cfg, root, e);
    Then(LookStatus(cfg, Flat(ModRows(Scores(q, k, cfg.d)))), Then(SoftmaxStatus(cfg, root, e),
      Then(LinearStatus(cfg, p, Transposed(v, cfg.d), cfg.S),
           LinearStatus(cfg, Linear(cfg, p, Transposed(v, cfg.d), cfg.S), Wo, cfg.d))))
  }

  function AttentionStatus(cfg: ToyConfig, root: nat -> nat, w: LayerWeights): Status
    requires WellShaped(cfg, w)
  {
    var xn := Normed(cfg, root, w.x);
    var q := Rope(cfg, Linear(cfg, xn, w.Wq, cfg.d), w.cos, w.sin);
    var k := Rope(cfg, Linear(cfg, xn, w.Wk, cfg.d), w.cos, w.sin);
    Then(NormStatus(cfg, root, w.x), Then(QkvStatus(cfg, xn, w),
      MixStatus(cfg, root, q, k, Linear(cfg, xn, w.Wv, cfg.d), w.Wo)))
  }

  function GluStatus(cfg: ToyConfig, root: nat -> nat, g: Matrix, u: Matrix): (s: seq<Status>)
    requires cfg.Positive() && |g| == |u| && AllWide(g, cfg.dff) && AllWide(u, cfg.dff)
    ensures |s| == |g|
    ensures forall t :: 0 <= t < |s| ==>
      s[t] == Then(LookStatus(cfg, g[t]), RescaleStatus(cfg, Times(Nonlinear(cfg, root, SiluTable, g[t]), u[t])))
  {
    seq(|g|, t requires 0 <= t < |g| =>
      Then(LookStatus(cfg, g[t]), RescaleStatus(cfg, Times(Nonlinear(cfg, root, SiluTable, g[t]), u[t]))))
  }

  function RoutedStatus(cfg: ToyConfig, X: Matrix, W: seq<Matrix>, route: seq<nat>, dOut: nat, dIn: nat): Status
    requires cfg.Positive() && Stack(W, dOut, dIn) && Routed(route, |X|, |W|)
  {
    RescaleStatus(cfg, Flat(RoutedRaws(X, W, route, dOut, dIn)))
  }

  function FeedStatus(cfg: ToyConfig, root: nat -> nat, h: Matrix, experts: seq<Expert>, route: seq<nat>): Status
    requires FeedShaped(cfg, h, experts, route)
  {
    var g := RoutedLinear(cfg, h, Gates3(experts), route, cfg.dff, cfg.d);
    var u := RoutedLinear(cfg, h, Ups3(experts), route, cfg.dff, cfg.d);
    Then(RoutedStatus(cfg, h, Gates3(experts), route, cfg.dff, cfg.d), Then(RoutedStatus(cfg, h, Ups3(experts), route, cfg.dff, cfg.d),
      Then(First(GluStatus(cfg, root, g, u)), RoutedStatus(cfg, SwiGlu(cfg, root, g, u), Downs3(experts), route, cfg.d, cfg.dff))))
  }

  /** How forward ends, from the plain integers alone: fine exactly when every quotient of the
      layer is in its range. */
  function LayerStatus(cfg: ToyConfig, root: nat -> nat, w: LayerWeights): Status
    requires WellShaped(cfg, w)
  {
    var h := Attention(cfg, root, w);
    WeightsFeed(cfg, w, h);
    Then(AttentionStatus(cfg, root, w), FeedStatus(cfg, root, h, w.experts, w.route))
  }

  // -------------------------------------------------------------------- the stages

  function MulShape(cfg: ToyConfig, m: nat): Shape
    requires cfg.Positive()
  {
    GateShape(m).Plus(RescaleShape(cfg, m))
  }

  /** Bracket, then look up. */
  function LookShape(cfg: ToyConfig, m: nat): Shape
    requires cfg.Positive()
  {
    BracketShape(cfg, m).Plus(QueryShape(m))
  }

  /** What looking v up asks: the low parts, with the table's values. */
  function LookedUp(cfg: ToyConfig, root: nat -> nat, name: TableName, v: seq<int>): Queries {
    QueriesTo(name, Pairs(Lows(cfg, v), Nonlinear(cfg, root, name, v)))
  }

  method BracketLookup(b: Builder, name: TableName, v: seq<int>) returns (st: Status, r: seq<int>)
    requires b.Sound()
    modifies b`gates, b`lookups, b`n
    ensures |r| == |v| && b.Ended(old(b.Mark()), st, LookStatus(b.cfg, v), old(b.Counts()).Plus(LookShape(b.cfg, |v|)))
    ensures st.Fine? ==> Asked(b.lookups, name) >= Asked(old(b.lookups), name) + |v|
    ensures st.Fine? ==> r == Nonlinear(b.cfg, b.root, name, v)
    ensures st.Fine? ==> Grew(old(b.lookups), LookedUp(b.cfg, b.root, name, v), b.lookups)
    ensures st.Fine? ==> Met(b.Record(), b.cfg.tableBits, Div(b.cfg.tableBits, v))
    ensures st.Fine? ==> QuotientWords(b.cfg.tableBits, b.cfg.tableBits).Words?
  {
    hide Builder.Sound, Builder.Counts, BracketShape, QueryShape, Highs, Grown, Asked, Builder.Follows, Builder.Tidy, Extends, Met;
    ghost var was := b.Mark();
    var los;
    st, los := b.Bracket(v);
    r := v;
    b.FollowsIs(was);
    if st.Fine? {
      LowsFit(b.cfg, v);
      ghost var mid, log := b.lookups, b.Record();
      r := b.Lookup(name, los);
      MetStays(log, b.Record(), b.cfg.tableBits, Div(b.cfg.tableBits, v));
      GrewThrough(was.lookups, NO_QUERIES, mid, LookedUp(b.cfg, b.root, name, v), b.lookups);
      ThenNothing(LookedUp(b.cfg, b.root, name, v));
      b.FollowsOn(was, mid, log);
      GrownAsked(was.lookups, mid, name);
    }
    b.EndedIs(was, st, LookStatus(b.cfg, v), was.counts.Plus(LookShape(b.cfg, |v|)));
  }

  lemma LowsFit(cfg: ToyConfig, v: seq<int>)
    ensures Fits(Lows(cfg, v), cfg.TableSize())
  {}

  /** The first t rows are multiplied by their factors and rescaled on the record. */
  ghost predicate ScaleMet(log: Log, cfg: ToyConfig, rows: Matrix, c: seq<int>, width: nat, t: nat)
    requires |c| == |rows| && t <= |rows|
  {
    forall i :: 0 <= i < t ==>
      Met(log, cfg.tableBits, Mul(rows[i], Same(c[i], width)))
      && Met(log, cfg.tableBits, Div(cfg.scaleBits, Times(rows[i], Same(c[i], width))))
  }

  lemma ScaleMetMore(a: Log, b: Log, cfg: ToyConfig, rows: Matrix, c: seq<int>, width: nat, t: nat)
    requires |c| == |rows| && t < |rows| && ScaleMet(a, cfg, rows, c, width, t) && Extends(a, b)
    requires Met(b, cfg.tableBits, Mul(rows[t], Same(c[t], width)))
    requires |rows[t]| == width && Met(b, cfg.tableBits, Div(cfg.scaleBits, Times(rows[t], Same(c[t], width))))
    ensures ScaleMet(b, cfg, rows, c, width, t + 1)
  {
    hide Extends, Met;
    AllStay(a, b, cfg.tableBits);
  }

  lemma ScaleMetNone(log: Log, cfg: ToyConfig, rows: Matrix, c: seq<int>, width: nat)
    requires |c| == |rows|
    ensures ScaleMet(log, cfg, rows, c, width, 0)
  {}

  /** One product-and-rescale per row, with a common factor for the row. */
  method ScaleEach(b: Builder, rows: Matrix, c: seq<int>, width: nat, tag: string) returns (st: Status, r: Matrix)
    requires b.Sound() && |c| == |rows| && AllWide(rows, width)
    modifies b`gates, b`lookups, b`n
    ensures b.Ended(old(b.Mark()), st, First(EachStatus(b.cfg, rows, c, width)),
                    old(b.Counts()).Plus(Repeated(|rows|, MulShape(b.cfg, width))))
    ensures st.Fine? ==> r == ScaleRows(b.cfg, rows, c, width) && Grew(old(b.lookups), NO_QUERIES, b.lookups)
    ensures st.Fine? ==> ScaleMet(b.Record(), b.cfg, rows, c, width, |rows|)
  {
    hide *;
    b.SoundNames();
    EachPositive(b);
    ghost var sts := EachStatus(b.cfg, rows, c, width);
    assert sts[..0] == [];
    FirstNone();
    ghost var was := b.Mark();
    r := [];
    PlusNothing(was.counts, MulShape(b.cfg, width));
    b.MarkIs();
    WideEach(rows, width);
    SameLengths(width);
    b.EndedIs(was, Fine, First([]), was.counts.Plus(Repeated(0, MulShape(b.cfg, width))));
    AllNamesThen(b);
    GrewNothing(b.lookups);
    ScaleMetNone(b.Record(), b.cfg, rows, c, width);
    for t := 0 to |rows|
      invariant Grew(old(b.lookups), NO_QUERIES, b.lookups) && ScaleMet(b.Record(), b.cfg, rows, c, width, t)
      invariant |r| == t && b.Ended(was, Fine, First(sts[..t]), was.counts.Plus(Repeated(t, MulShape(b.cfg, width))))
      invariant forall i :: 0 <= i < t ==> r[i] == Scaled(b.cfg, Times(rows[i], Same(c[i], width)))
    {
      var row;
      ghost var before, log := b.lookups, b.Record();
      st, row := ScaleRow(b, was, t, sts, rows[t], c[t], width, tag);
      if !st.Fine? {
        b.EndedIs(was, st, First(sts), was.counts.Plus(Repeated(|rows|, MulShape(b.cfg, width))));
        return;
      }
      GrewStep(old(b.lookups), before, b.lookups);
      ScaleMetMore(log, b.Record(), b.cfg, rows, c, width, t);
      r := r + [row];
    }
    assert sts[..|rows|] == sts;
    ScaledEach(b.cfg, rows, c, width, r);
    st := Fine;
  }

  /** Row t of ScaleEach. */
  method ScaleRow(b: Builder, ghost was: Mark, ghost t: nat, ghost sts: seq<Status>, row: seq<int>, c: int, width: nat, tag: string)
    returns (st: Status, r: seq<int>)
    requires b.cfg.Positive() && |row| == width && t < |sts| && sts[t] == RescaleStatus(b.cfg, Times(row, Same(c, width)))
    requires b.Ended(was, Fine, First(sts[..t]), was.counts.Plus(Repeated(t, MulShape(b.cfg, width))))
    modifies b`gates, b`lookups, b`n
    ensures r == Scaled(b.cfg, Times(row, Same(c, width))) && b.Sound() && b.Follows(was) && st == sts[t]
    ensures Grew(old(b.lookups), NO_QUERIES, b.lookups) && Extends(old(b.Record()), b.Record())
    ensures st.Fine? ==> Met(b.Record(), b.cfg.tableBits, Mul(row, Same(c, width)))
    ensures st.Fine? ==> Met(b.Record(), b.cfg.tableBits, Div(b.cfg.scaleBits, Times(row, Same(c, width))))
    ensures if st.Fine? then b.Ended(was, Fine, First(sts[..t + 1]), was.counts.Plus(Repeated(t + 1, MulShape(b.cfg, width))))
            else First(sts) == st
  {
    hide *;
    b.EndedIs(was, Fine, First(sts[..t]), was.counts.Plus(Repeated(t, MulShape(b.cfg, width))));
    b.FollowsIs(was);
    ghost var mid, log := b.lookups, b.Record();
    SameLength(c, width);
    st, r := b.MulRescaled(row, Same(c, width), tag);
    b.FollowsOn(was, mid, log);
    if st.Fine? {
      FirstMore(sts, t);
      MulIs(b.cfg, width);
      PlusRepeated(was.counts, t, MulShape(b.cfg, width));
    } else {
      FirstStops(sts, t);
    }
    b.EndedIs(was, st, First(sts[..t + 1]), was.counts.Plus(Repeated(t + 1, MulShape(b.cfg, width))));
  }

  lemma AllNamesThen(b: Builder)
    requires b.Sound()
    ensures AllNames(b.lookups)
  {}

  lemma GrewStep(a: Lookups, b: Lookups, c: Lookups)
    requires Grew(a, NO_QUERIES, b) && Grew(b, NO_QUERIES, c)
    ensures Grew(a, NO_QUERIES, c)
  {
    GrewThrough(a, NO_QUERIES, b, NO_QUERIES, c);
    ThenNothing(NO_QUERIES);
  }

  lemma GrewLast(a: Lookups, q: Queries, b: Lookups, c: Lookups)
    requires Grew(a, q, b) && Grew(b, NO_QUERIES, c)
    ensures Grew(a, q, c)
  {
    GrewThrough(a, q, b, NO_QUERIES, c);
    ThenNothing(q);
  }

  lemma SameLength(v: int, n: nat)
    ensures |Same(v, n)| == n
  {}

  lemma SameLengths(n: nat)
    ensures forall v :: |Same(v, n)| == n
  {}

  lemma EachPositive(b: Builder)
    requires b.Sound()
    ensures b.cfg.Positive()
  {}

  lemma WideEach(rows: Matrix, n: nat)
    requires AllWide(rows, n)
    ensures forall t :: 0 <= t < |rows| ==> |rows[t]| == n
  {}

  lemma ScaledEach(cfg: ToyConfig, rows: Matrix, c: seq<int>, width: nat, r: Matrix)
    requires |c| == |rows| && AllWide(rows, width) && |r| == |rows|
    requires forall i :: 0 <= i < |r| ==> r[i] == Scaled(cfg, Times(rows[i], Same(c[i], width)))
    ensures r == ScaleRows(cfg, rows, c, width)
  {
    hide Scaled, Times, Same;
  }

  lemma MulIs(cfg: ToyConfig, m: nat)
    requires cfg.Positive()
    ensures MulShape(cfg, m) == GateShape(m).Plus(RescaleShape(cfg, m))
  {}

  lemma PlusNothing(s: Shape, u: Shape)
    ensures s.Plus(Repeated(0, u)) == s
  {}

  lemma PlusRepeated(s: Shape, t: nat, u: Shape)
    ensures s.Plus(Repeated(t, u)).Plus(u) == s.Plus(Repeated(t + 1, u))
  {}

  lemma PlusAssoc(s: Shape, t: Shape, u: Shape)
    ensures s.Plus(t).Plus(u) == s.Plus(t.Plus(u))
  {}

  function NormShape(cfg: ToyConfig): Shape
    requires cfg.Positive()
  {
    GateShape(Base(cfg.S, cfg.d)).Plus(LookShape(cfg, cfg.S)).Plus(Repeated(cfg.S, MulShape(cfg, cfg.d)))
  }

  ghost predicate NormMet(log: Log, cfg: ToyConfig, root: nat -> nat, x: Matrix) {
    && Met(log, cfg.tableBits, Mul(Flat(x), Flat(x)))
    && Met(log, cfg.tableBits, Div(cfg.tableBits, ModP(SquareSums(x, cfg.d))))
    && ScaleMet(log, cfg, x, Nonlinear(cfg, root, IsqrtTable, ModP(SquareSums(x, cfg.d))), cfg.d, |x|)
  }

  lemma NormMetStays(a: Log, b: Log, cfg: ToyConfig, root: nat -> nat, x: Matrix)
    requires Extends(a, b) && NormMet(a, cfg, root, x)
    ensures NormMet(b, cfg, root, x)
  {
    hide Extends, Met, SquareSums, Nonlinear, Flat;
    AllStay(a, b, cfg.tableBits);
  }

  lemma NormMetBy(a: Log, b: Log, c: Log, cfg: ToyConfig, root: nat -> nat, x: Matrix)
    requires Extends(a, b) && Extends(b, c) && Met(a, cfg.tableBits, Mul(Flat(x), Flat(x)))
    requires Met(b, cfg.tableBits, Div(cfg.tableBits, ModP(SquareSums(x, cfg.d))))
    requires ScaleMet(c, cfg, x, Nonlinear(cfg, root, IsqrtTable, ModP(SquareSums(x, cfg.d))), cfg.d, |x|)
    ensures NormMet(c, cfg, root, x)
  {
    hide Extends, Met, ScaleMet, Flat, SquareSums, Nonlinear, ModP;
    ExtendsThrough(a, b, c);
    MetStays(a, c, cfg.tableBits, Mul(Flat(x), Flat(x)));
    MetStays(b, c, cfg.tableBits, Div(cfg.tableBits, ModP(SquareSums(x, cfg.d))));
  }

  method Normalise(b: Builder, x: Matrix) returns (st: Status, xn: Matrix)
    requires b.Sound() && Sides(x, b.cfg.S, b.cfg.d)
    modifies b`gates, b`lookups, b`n
    ensures b.Ended(old(b.Mark()), st, NormStatus(b.cfg, b.root, x), old(b.Counts()).Plus(NormShape(b.cfg)))
    ensures st.Fine? ==> Asked(b.lookups, IsqrtTable) >= b.cfg.S
    ensures st.Fine? ==> xn == Normed(b.cfg, b.root, x)
    ensures st.Fine? ==> Grew(old(b.lookups), LookedUp(b.cfg, b.root, IsqrtTable, ModP(SquareSums(x, b.cfg.d))), b.lookups)
    ensures st.Fine? ==> QuotientWords(b.cfg.tableBits, b.cfg.tableBits).Words?
    ensures st.Fine? ==> NormMet(b.Record(), b.cfg, b.root, x)
  {
    b.SoundNames();
    hide Builder.Sound, Builder.Counts, Shape.Plus, LookShape, MulShape, Repeated, Base, Nonlinear, Inner, LookStatus, EachStatus, First,
      Extends, Met, ScaleMet, NormMet, Kept, Vanishes, Hadamard, Flat, SquareSums, Grown, Asked, Builder.Follows, Builder.Tidy, Grew;
    ghost var s := b.Counts();
    ghost var m0 := b.Mark();
    var cfg := b.cfg;
    var flat := Flat(x);
    FlatSize(x, cfg.d);
    SquareGateHolds(flat);
    b.Emit(Hadamard(Named("rms_sq"), flat, flat, ModP(Times(flat, flat))));
    b.FollowsIs(m0);
    SquareMet(b.Record(), cfg.tableBits, flat);
    ghost var m1 := b.Passed(m0);
    var inv;
    st, inv := BracketLookup(b, IsqrtTable, ModP(SquareSums(x, cfg.d)));
    b.FollowsThrough(m0, m1);
    b.FollowsIs(m1);
    if !st.Fine? {
      return st, [];
    }
    ghost var m2 := b.Passed(m0);
    st, xn := ScaleEach(b, x, inv, cfg.d, "rms");
    b.FollowsThrough(m0, m2);
    b.FollowsIs(m2);
    b.StillAsked(m2, IsqrtTable);
    if st.Fine? {
      GrewLast(m0.lookups, LookedUp(cfg, b.root, IsqrtTable, ModP(SquareSums(x, cfg.d))), m2.lookups, b.lookups);
      NormMetBy(m1.log, m2.log, b.Record(), cfg, b.root, x);
    }
    PlusAssoc(s, GateShape(|flat|), LookShape(cfg, cfg.S));
    PlusAssoc(s, GateShape(|flat|).Plus(LookShape(cfg, cfg.S)), Repeated(cfg.S, MulShape(cfg, cfg.d)));
  }

  lemma SquareMet(log: Log, wb: nat, v: seq<int>)
    requires Kept(log, Hadamard(Named("rms_sq"), v, v, ModP(Times(v, v))).terms)
    ensures Met(log, wb, Mul(v, v))
  {
    hide Kept, DivBy, SumBy;
    assert MulBy(log, v, v, ModP(Times(v, v)));
  }

  lemma SquareGateHolds(v: seq<int>)
    ensures Vanishes(Hadamard(Named("rms_sq"), v, v, ModP(Times(v, v))))
    ensures Size(Hadamard(Named("rms_sq"), v, v, ModP(Times(v, v)))) == |v|
  {
    hide AtIndex;
    ProductGateHolds(Named("rms_sq"), v, v);
  }

  /** The first t rows are rotated and rescaled on the record. */
  ghost predicate RopeMet(log: Log, cfg: ToyConfig, rows: Matrix, cos: seq<int>, sin: seq<int>, t: nat)
    requires |cos| == |sin| && AllWide(rows, |cos|) && t <= |rows|
  {
    forall i :: 0 <= i < t ==>
      Met(log, cfg.tableBits, Sum(ModP(Times(rows[i], cos)), ModP(Times(Shifted(rows[i]), sin))))
      && Met(log, cfg.tableBits, Div(cfg.scaleBits, Rotated(rows[i], cos, sin)))
  }

  lemma RopeMetMore(a: Log, b: Log, cfg: ToyConfig, rows: Matrix, cos: seq<int>, sin: seq<int>, t: nat)
    requires |cos| == |sin| && AllWide(rows, |cos|) && t < |rows| && RopeMet(a, cfg, rows, cos, sin, t) && Extends(a, b)
    requires Met(b, cfg.tableBits, Sum(ModP(Times(rows[t], cos)), ModP(Times(Shifted(rows[t]), sin))))
    requires Met(b, cfg.tableBits, Div(cfg.scaleBits, Rotated(rows[t], cos, sin)))
    ensures RopeMet(b, cfg, rows, cos, sin, t + 1)
  {
    hide Extends, Met, ModP, Times, Shifted, Rotated;
    AllStay(a, b, cfg.tableBits);
  }

  lemma RopeMetNone(log: Log, cfg: ToyConfig, rows: Matrix, cos: seq<int>, sin: seq<int>)
    requires |cos| == |sin| && AllWide(rows, |cos|)
    ensures RopeMet(log, cfg, rows, cos, sin, 0)
  {}

  lemma RopeMetStays(a: Log, b: Log, cfg: ToyConfig, rows: Matrix, cos: seq<int>, sin: seq<int>)
    requires |cos| == |sin| && AllWide(rows, |cos|) && RopeMet(a, cfg, rows, cos, sin, |rows|) && Extends(a, b)
    ensures RopeMet(b, cfg, rows, cos, sin, |rows|)
  {
    hide Extends, Met, ModP, Times, Shifted, Rotated;
    AllStay(a, b, cfg.tableBits);
  }

  lemma RotationMet(log: Log, wb: nat, id: NodeId, row: seq<int>, cos: seq<int>, sin: seq<int>)
    requires |cos| == |sin| == |row|
    requires Kept(log, Affine(id, [1, 1], [ModP(Times(row, cos)), ModP(Times(Shifted(row), sin))], ModP(Rotated(row, cos, sin))).terms)
    ensures Met(log, wb, Sum(ModP(Times(row, cos)), ModP(Times(Shifted(row), sin))))
  {
    hide *;
    var a, c, y := ModP(Times(row, cos)), ModP(Times(Shifted(row), sin)), ModP(Rotated(row, cos, sin));
    RotationSizes(row, cos, sin);
    forall i | 0 <= i < |row| ensures Adding(a[i], c[i], y[i]) { RotationAdds(row, cos, sin, i); }
    PairMet(log, wb, id, a, c, y);
  }

  ghost predicate Adding(a: int, b: int, c: int) {
    c == (a + b) % P
  }

  lemma RotationAdds(row: seq<int>, cos: seq<int>, sin: seq<int>, i: nat)
    requires |cos| == |sin| == |row| && i < |row|
    ensures Adding(ModP(Times(row, cos))[i], ModP(Times(Shifted(row), sin))[i], ModP(Rotated(row, cos, sin))[i])
  {
    hide Times, Shifted, Rotated;
    RotatedAt(row, cos, sin, i);
    SumOfReduced(Times(row, cos)[i], Times(Shifted(row), sin)[i]);
  }

  lemma PairMet(log: Log, wb: nat, id: NodeId, a: seq<int>, c: seq<int>, y: seq<int>)
    requires |a| == |c| == |y| && forall i :: 0 <= i < |y| ==> Adding(a[i], c[i], y[i])
    requires Kept(log, Affine(id, [1, 1], [a, c], y).terms)
    ensures Met(log, wb, Sum(a, c))
  {
    hide Kept, DivBy, MulBy;
    SumTerms(id, a, c, y);
    assert SumBy(log, a, c, y);
  }

  lemma SumOfReduced(a: int, b: int)
    ensures (a % P + b % P) % P == (a + b) % P
  {
    ModMod(a, P);
    ModMod(b, P);
    ModAdd(a % P, a, b % P, b, P);
  }

  /** The rows of q or k, rotated in place one after the other. */
  method RopeRows(b: Builder, mat0: Matrix, cos: seq<int>, sin: seq<int>, tag: string) returns (st: Status, mat: Matrix)
    requires b.Sound() && |cos| == |sin| && AllWide(mat0, |cos|)
    modifies b`gates, b`lookups, b`n
    ensures b.Ended(old(b.Mark()), st, First(RopeStatus(b.cfg, mat0, cos, sin)),
                    old(b.Counts()).Plus(Repeated(|mat0|, MulShape(b.cfg, |cos|))))
    ensures st.Fine? ==> mat == Rope(b.cfg, mat0, cos, sin) && Grew(old(b.lookups), NO_QUERIES, b.lookups)
    ensures st.Fine? ==> RopeMet(b.Record(), b.cfg, mat0, cos, sin, |mat0|)
  {
    hide *;
    b.SoundNames();
    EachPositive(b);
    ghost var sts := RopeStatus(b.cfg, mat0, cos, sin);
    assert sts[..0] == [];
    FirstNone();
    ghost var was := b.Mark();
    b.MarkIs();
    mat := mat0;
    PlusNothing(was.counts, MulShape(b.cfg, |cos|));
    WideEach(mat0, |cos|);
    b.EndedIs(was, Fine, First([]), was.counts.Plus(Repeated(0, MulShape(b.cfg, |cos|))));
    AllNamesThen(b);
    GrewNothing(b.lookups);
    RopeMetNone(b.Record(), b.cfg, mat0, cos, sin);
    for t := 0 to |mat0|
      invariant |mat| == |mat0| && Grew(old(b.lookups), NO_QUERIES, b.lookups) && RopeMet(b.Record(), b.cfg, mat0, cos, sin, t)
      invariant b.Ended(was, Fine, First(sts[..t]), was.counts.Plus(Repeated(t, MulShape(b.cfg, |cos|))))
      invariant forall i :: 0 <= i < t ==> mat[i] == Scaled(b.cfg, Rotated(mat0[i], cos, sin))
      invariant forall i :: t <= i < |mat0| ==> mat[i] == mat0[i]
    {
      var out;
      ghost var before, log := b.lookups, b.Record();
      st, out := RopeRow(b, was, t, sts, mat[t], cos, sin, Indexed("rope_" + tag, t));
      if !st.Fine? {
        b.EndedIs(was, st, First(sts), was.counts.Plus(Repeated(|mat0|, MulShape(b.cfg, |cos|))));
        return;
      }
      GrewStep(old(b.lookups), before, b.lookups);
      RopeMetMore(log, b.Record(), b.cfg, mat0, cos, sin, t);
      mat := mat[t := out];
    }
    assert sts[..|mat0|] == sts;
    RopedRows(b.cfg, mat0, cos, sin, mat);
    st := Fine;
  }

  lemma RopedRows(cfg: ToyConfig, mat0: Matrix, cos: seq<int>, sin: seq<int>, mat: Matrix)
    requires |cos| == |sin| && AllWide(mat0, |cos|) && |mat| == |mat0|
    requires forall i :: 0 <= i < |mat| ==> mat[i] == Scaled(cfg, Rotated(mat0[i], cos, sin))
    ensures mat == Rope(cfg, mat0, cos, sin)
  {
    hide Scaled, Rotated;
  }

  /** Row t of RopeRows: its two products and their sum, rescaled. */
  method RopeRow(b: Builder, ghost was: Mark, ghost t: nat, ghost sts: seq<Status>, row: seq<int>, cos: seq<int>, sin: seq<int>,
                 id: NodeId) returns (st: Status, out: seq<int>)
    requires b.cfg.Positive() && |cos| == |sin| == |row| && t < |sts| && sts[t] == RescaleStatus(b.cfg, Rotated(row, cos, sin))
    requires b.Ended(was, Fine, First(sts[..t]), was.counts.Plus(Repeated(t, MulShape(b.cfg, |cos|))))
    modifies b`gates, b`lookups, b`n
    ensures out == Scaled(b.cfg, Rotated(row, cos, sin)) && b.Sound() && b.Follows(was) && st == sts[t]
    ensures Grew(old(b.lookups), NO_QUERIES, b.lookups) && Extends(old(b.Record()), b.Record())
    ensures st.Fine? ==> Met(b.Record(), b.cfg.tableBits, Sum(ModP(Times(row, cos)), ModP(Times(Shifted(row), sin))))
    ensures st.Fine? ==> Met(b.Record(), b.cfg.tableBits, Div(b.cfg.scaleBits, Rotated(row, cos, sin)))
    ensures if st.Fine? then b.Ended(was, Fine, First(sts[..t + 1]), was.counts.Plus(Repeated(t + 1, MulShape(b.cfg, |cos|))))
            else First(sts) == st
  {
    hide *;
    b.EndedIs(was, Fine, First(sts[..t]), was.counts.Plus(Repeated(t, MulShape(b.cfg, |cos|))));
    b.FollowsIs(was);
    ghost var mid, log := b.lookups, b.Record();
    var rot := Rotated(row, cos, sin);
    RotationGateHolds(id, row, cos, sin);
    RotationSizes(row, cos, sin);
    b.Emit(Affine(id, [1, 1], [ModP(Times(row, cos)), ModP(Times(Shifted(row), sin))], ModP(rot)));
    RotationMet(b.Record(), b.cfg.tableBits, id, row, cos, sin);
    ghost var turned := b.Record();
    st, out := b.Rescale(rot);
    ExtendsThrough(log, turned, b.Record());
    b.FollowsOn(was, mid, log);
    if st.Fine? {
      MetStays(turned, b.Record(), b.cfg.tableBits, Sum(ModP(Times(row, cos)), ModP(Times(Shifted(row), sin))));
      FirstMore(sts, t);
      RopeCounts(was.counts, t, b.cfg, |cos|);
    } else {
      FirstStops(sts, t);
    }
    b.EndedIs(was, st, First(sts[..t + 1]), was.counts.Plus(Repeated(t + 1, MulShape(b.cfg, |cos|))));
  }

  lemma RopeCounts(s: Shape, t: nat, cfg: ToyConfig, m: nat)
    requires cfg.Positive()
    ensures s.Plus(Repeated(t, MulShape(cfg, m))).Plus(GateShape(m)).Plus(RescaleShape(cfg, m))
            == s.Plus(Repeated(t + 1, MulShape(cfg, m)))
  {}

  lemma RotationGateHolds(id: NodeId, row: seq<int>, cos: seq<int>, sin: seq<int>)
    requires |cos| == |sin| == |row|
    ensures var g := Affine(id, [1, 1], [ModP(Times(row, cos)), ModP(Times(Shifted(row), sin))], ModP(Rotated(row, cos, sin)));
      Vanishes(g) && Size(g) == |row|
  {
    hide *;
    PIsPositive();
    var a, c, y := ModP(Times(row, cos)), ModP(Times(Shifted(row), sin)), ModP(Rotated(row, cos, sin));
    forall i | 0 <= i < |a| ensures AtIndex(Affine(id, [1, 1], [a, c], y).terms, i) % P == 0 {
      RotationParts(row, cos, sin, i);
      AffineValue(id, [1, 1], [a, c], y, i);
      TwoWeighted(a, c, i);
    }
    RotationSizes(row, cos, sin);
    PairVanishes(id, a, c, y);
  }

  lemma RotationSizes(row: seq<int>, cos: seq<int>, sin: seq<int>)
    requires |cos| == |sin| == |row|
    ensures |ModP(Times(row, cos))| == |ModP(Times(Shifted(row), sin))| == |ModP(Rotated(row, cos, sin))| == |row|
  {}

  lemma RotationParts(row: seq<int>, cos: seq<int>, sin: seq<int>, i: nat)
    requires |cos| == |sin| == |row| && i < |row|
    ensures (At(ModP(Times(row, cos)), i) + At(ModP(Times(Shifted(row), sin)), i)
             - At(ModP(Rotated(row, cos, sin)), i)) % P == 0
  {
    hide Times, Shifted, Rotated;
    RotatedAt(row, cos, sin, i);
    ReducedSum(Times(row, cos)[i], Times(Shifted(row), sin)[i], Rotated(row, cos, sin)[i]);
  }

  lemma RotatedAt(row: seq<int>, cos: seq<int>, sin: seq<int>, i: nat)
    requires |cos| == |sin| == |row| && i < |row|
    ensures Rotated(row, cos, sin)[i] == Times(row, cos)[i] + Times(Shifted(row), sin)[i]
  {
    assert Times(Shifted(row), sin)[i] == Shifted(row)[i] * sin[i];
  }

  lemma PairVanishes(id: NodeId, a: seq<int>, c: seq<int>, y: seq<int>)
    requires |a| == |c| == |y|
    requires forall i :: 0 <= i < |a| ==> AtIndex(Affine(id, [1, 1], [a, c], y).terms, i) % P == 0
    ensures var g := Affine(id, [1, 1], [a, c], y); Vanishes(g) && Size(g) == |a|
  {
    hide AtIndex;
    assert Affine(id, [1, 1], [a, c], y).terms[0] == Term(1 % P, [a]);
  }

  lemma ReducedSum(a: int, b: int, c: int)
    requires c == a + b
    ensures (a % P + b % P - c % P) % P == 0
  {
    ModMod(a, P);
    ModMod(b, P);
    ModMod(c, P);
    ModAdd(a % P, a, b % P, b, P);
    DiffZero(a % P + b % P, c % P, P);
  }

  function ScoreShape(cfg: ToyConfig): Shape
    requires cfg.Positive()
  {
    GateShape(Base(cfg.S, cfg.S)).Plus(LookShape(cfg, Base(cfg.S, cfg.S)))
  }

  function CausalMask(S: nat): (m: Matrix)
    ensures |m| == S && AllWide(m, S)
    ensures forall t, i :: 0 <= t < S && 0 <= i < S ==> m[t][i] == if i <= t then 1 else 0
  {
    seq(S, t requires 0 <= t < S => seq(S, i requires 0 <= i < S => if i <= t then 1 else 0))
  }

  ghost predicate ZeroOne(v: seq<int>) {
    forall i :: 0 <= i < |v| ==> v[i] == 0 || v[i] == 1
  }

  lemma MaskGateHolds(S: nat)
    ensures var g := Booleanity(Named("causal_mask"), Flat(CausalMask(S)));
      Vanishes(g) && Size(g) == Base(S, S)
  {
    hide AtIndex, Base;
    var v := Flat(CausalMask(S));
    FlatSize(CausalMask(S), S);
    FlatZeroOne(CausalMask(S));
    forall i | 0 <= i < |v| ensures AtIndex(Booleanity(Named("causal_mask"), v).terms, i) % P == 0 {
      BooleanityValue(Named("causal_mask"), v, i);
      ModSmall(0, P);
    }
  }

  lemma {:induction false} FlatZeroOne(rows: Matrix)
    requires forall t :: 0 <= t < |rows| ==> ZeroOne(rows[t])
    ensures ZeroOne(Flat(rows))
  {
    if rows != [] { FlatZeroOne(rows[..|rows| - 1]); }
  }

  /** The looked-up flat list, cut into rows by e[t*S + i]. */
  method LookupRows(b: Builder, name: TableName, rows: Matrix, width: nat) returns (st: Status, e: Matrix)
    requires b.Sound() && AllWide(rows, width)
    modifies b`gates, b`lookups, b`n
    ensures b.Ended(old(b.Mark()), st, LookStatus(b.cfg, Flat(rows)), old(b.Counts()).Plus(LookShape(b.cfg, Base(|rows|, width))))
    ensures st.Fine? ==> Asked(b.lookups, name) >= Asked(old(b.lookups), name) + Base(|rows|, width)
    ensures st.Fine? ==> e == NonlinearRows(b.cfg, b.root, name, rows)
    ensures st.Fine? ==> Grew(old(b.lookups), LookedUp(b.cfg, b.root, name, Flat(rows)), b.lookups)
    ensures st.Fine? ==> Met(b.Record(), b.cfg.tableBits, Div(b.cfg.tableBits, Flat(rows)))
  {
    hide *;
    FlatSize(rows, width);
    var v;
    st, v := BracketLookup(b, name, Flat(rows));
    e := [];
    if st.Fine? {
      e := CutRows(b.cfg, b.root, name, rows, |rows|, width, v);
    }
  }

  method CutRows(ghost cfg: ToyConfig, ghost root: nat -> nat, ghost name: TableName, ghost rows: Matrix, count: nat, width: nat,
                 v: seq<int>) returns (e: Matrix)
    requires AllWide(rows, width) && count == |rows| && v == Nonlinear(cfg, root, name, Flat(rows))
    requires |v| == Base(count, width)
    ensures e == NonlinearRows(cfg, root, name, rows)
  {
    hide Base, TableEntry, Flat;
    e := [];
    for t := 0 to count
      invariant |e| == t && forall i :: 0 <= i < t ==> e[i] == Nonlinear(cfg, root, name, rows[i])
    {
      FlatRow(rows, width, t);
      BaseMonotone(t, count, width);
      var row := seq(width, i requires 0 <= i < width && Base(t, width) + width <= |v| => v[Base(t, width) + i]);
      CutIsLooked(cfg, root, name, Flat(rows), rows[t], Base(t, width), row);
      e := e + [row];
    }
  }

  lemma CutIsLooked(cfg: ToyConfig, root: nat -> nat, name: TableName, flat: seq<int>, part: seq<int>, lo: nat, row: seq<int>)
    requires lo + |part| <= |flat| && flat[lo..lo + |part|] == part && |row| == |part|
    requires forall i :: 0 <= i < |row| ==> row[i] == Nonlinear(cfg, root, name, flat)[lo + i]
    ensures row == Nonlinear(cfg, root, name, part)
  {
    hide TableEntry;
    forall i | 0 <= i < |row| ensures row[i] == Nonlinear(cfg, root, name, part)[i] {
      assert part[i] == flat[lo..lo + |part|][i] == flat[lo + i];
    }
  }

  ghost predicate ScoreMet(log: Log, cfg: ToyConfig, q: Matrix, k: Matrix) {
    && Met(log, cfg.tableBits, Binary(Flat(CausalMask(cfg.S))))
    && Met(log, cfg.tableBits, Div(cfg.tableBits, Flat(ModRows(Scores(q, k, cfg.d)))))
  }

  method ScoreStage(b: Builder, q: Matrix, k: Matrix) returns (st: Status, e: Matrix)
    requires b.Sound() && |q| == |k| == b.cfg.S
    modifies b`gates, b`lookups, b`n
    ensures b.Ended(old(b.Mark()), st, LookStatus(b.cfg, Flat(ModRows(Scores(q, k, b.cfg.d)))),
                    old(b.Counts()).Plus(ScoreShape(b.cfg)))
    ensures st.Fine? ==> Asked(b.lookups, ExpTable) >= b.cfg.S
    ensures st.Fine? ==> e == Exponentials(b.cfg, b.root, q, k)
    ensures st.Fine? ==> Grew(old(b.lookups), LookedUp(b.cfg, b.root, ExpTable, Flat(ModRows(Scores(q, k, b.cfg.d)))), b.lookups)
    ensures st.Fine? ==> ScoreMet(b.Record(), b.cfg, q, k)
  {
    b.SoundNames();
    BaseAtLeast(b.cfg.S, b.cfg.S);
    hide Builder.Sound, Builder.Counts, Shape.Plus, LookShape, Base, Nonlinear, Inner, Vanishes, Booleanity, LookStatus, Flat,
      Extends, Met, Kept, Grown, Asked, Builder.Follows, Builder.Tidy, Grew, Scores, ModRows, CausalMask;
    ghost var s := b.Counts();
    ghost var m0 := b.Mark();
    var cfg := b.cfg;
    var scores := Scores(q, k, cfg.d);
    MaskGateHolds(cfg.S);
    b.Emit(Booleanity(Named("causal_mask"), Flat(CausalMask(cfg.S))));
    b.FollowsIs(m0);
    MaskMet(b.Record(), cfg.tableBits, Flat(CausalMask(cfg.S)));
    ghost var m1 := b.Passed(m0);
    st, e := LookupRows(b, ExpTable, ModRows(scores), cfg.S);
    b.FollowsThrough(m0, m1);
    MetStays(m1.log, b.Record(), cfg.tableBits, Binary(Flat(CausalMask(cfg.S))));
    PlusAssoc(s, GateShape(Base(cfg.S, cfg.S)), LookShape(cfg, Base(cfg.S, cfg.S)));
  }

  lemma MaskMet(log: Log, wb: nat, b: seq<int>)
    requires Kept(log, Booleanity(Named("causal_mask"), b).terms)
    ensures Met(log, wb, Binary(b))
  {
    hide Kept, DivBy, SumBy, MulBy;
  }

  function SoftmaxShape(cfg: ToyConfig): Shape
    requires cfg.Positive()
  {
    LookShape(cfg, cfg.S).Plus(Repeated(cfg.S, MulShape(cfg, cfg.S)))
  }

  ghost predicate SoftmaxMet(log: Log, cfg: ToyConfig, root: nat -> nat, e: Matrix) {
    && Met(log, cfg.tableBits, Div(cfg.tableBits, RowSums(e)))
    && ScaleMet(log, cfg, e, Nonlinear(cfg, root, RecipTable, RowSums(e)), cfg.S, |e|)
  }

  method SoftmaxStage(b: Builder, e: Matrix) returns (st: Status, p: Matrix)
    requires b.Sound() && Sides(e, b.cfg.S, b.cfg.S)
    modifies b`gates, b`lookups, b`n
    ensures b.Ended(old(b.Mark()), st, SoftmaxStatus(b.cfg, b.root, e), old(b.Counts()).Plus(SoftmaxShape(b.cfg)))
    ensures st.Fine? ==> Asked(b.lookups, RecipTable) >= b.cfg.S
    ensures st.Fine? ==> p == Softmax(b.cfg, b.root, e)
    ensures st.Fine? ==> Grew(old(b.lookups), LookedUp(b.cfg, b.root, RecipTable, RowSums(e)), b.lookups)
    ensures st.Fine? ==> SoftmaxMet(b.Record(), b.cfg, b.root, e)
  {
    hide Builder.Sound, Builder.Counts, Shape.Plus, LookShape, MulShape, Repeated, Nonlinear, RowSum, LookStatus, EachStatus, First,
      Extends, Met, ScaleMet;
    ghost var log0 := b.Record();
    ghost var s := b.Counts();
    var cfg := b.cfg;
    var recip;
    st, recip := BracketLookup(b, RecipTable, RowSums(e));
    if !st.Fine? {
      return st, [];
    }
    ghost var mid, log1 := b.lookups, b.Record();
    st, p := ScaleEach(b, e, recip, cfg.S, "softmax");
    ExtendsThrough(log0, log1, b.Record());
    if st.Fine? {
      GrewLast(old(b.lookups), LookedUp(cfg, b.root, RecipTable, RowSums(e)), mid, b.lookups);
      MetStays(log1, b.Record(), cfg.tableBits, Div(cfg.tableBits, RowSums(e)));
    }
    PlusAssoc(s, LookShape(cfg, cfg.S), Repeated(cfg.S, MulShape(cfg, cfg.S)));
  }

  ghost predicate AddMet(log: Log, wb: nat, x: Matrix, y: Matrix, t: nat)
    requires |x| == |y| && t <= |x|
  {
    forall i :: 0 <= i < t ==> Met(log, wb, Sum(x[i], y[i]))
  }

  lemma AddMetMore(a: Log, b: Log, wb: nat, x: Matrix, y: Matrix, t: nat)
    requires |x| == |y| && t < |x| && AddMet(a, wb, x, y, t) && Extends(a, b) && Met(b, wb, Sum(x[t], y[t]))
    ensures AddMet(b, wb, x, y, t + 1)
  {
    hide Extends, Met;
    AllStay(a, b, wb);
  }

  lemma AddMetNone(log: Log, wb: nat, x: Matrix, y: Matrix)
    requires |x| == |y|
    ensures AddMet(log, wb, x, y, 0)
  {}

  method AddEach(b: Builder, x: Matrix, y: Matrix, width: nat, tag: string) returns (r: Matrix)
    requires b.Sound() && |x| == |y| && AllWide(x, width) && AllWide(y, width)
    modifies b`gates, b`n
    ensures r == AddRows(x, y, width) && AddMet(b.Record(), b.cfg.tableBits, x, y, |x|)
    ensures b.Ended(old(b.Mark()), Fine, Fine, old(b.Counts()).Plus(Repeated(|x|, GateShape(width))))
  {
    hide *;
    b.SoundNames();
    ghost var was := b.Mark();
    b.MarkIs();
    WideEach(x, width);
    WideEach(y, width);
    r := [];
    PlusNothing(was.counts, GateShape(width));
    b.EndedIs(was, Fine, Fine, was.counts.Plus(Repeated(0, GateShape(width))));
    AddMetNone(b.Record(), b.cfg.tableBits, x, y);
    for t := 0 to |x|
      invariant AddMet(b.Record(), b.cfg.tableBits, x, y, t)
      invariant |r| == t && forall i :: 0 <= i < t ==> r[i] == Plus(x[i], y[i])
      invariant b.Ended(was, Fine, Fine, was.counts.Plus(Repeated(t, GateShape(width))))
    {
      b.EndedIs(was, Fine, Fine, was.counts.Plus(Repeated(t, GateShape(width))));
      b.FollowsIs(was);
      ghost var log := b.Record();
      var row := b.Add(x[t], y[t], tag);
      ExtendsThrough(was.log, log, b.Record());
      AddMetMore(log, b.Record(), b.cfg.tableBits, x, y, t);
      b.FollowsIs(was);
      PlusRepeated(was.counts, t, GateShape(width));
      b.EndedIs(was, Fine, Fine, was.counts.Plus(Repeated(t + 1, GateShape(width))));
      r := r + [row];
    }
    AddedRows(x, y, width, r);
  }

  lemma AddedRows(x: Matrix, y: Matrix, width: nat, r: Matrix)
    requires |x| == |y| == |r| && AllWide(x, width) && AllWide(y, width)
    requires forall i :: 0 <= i < |r| ==> r[i] == Plus(x[i], y[i])
    ensures r == AddRows(x, y, width)
  {
    hide Plus;
  }
}
