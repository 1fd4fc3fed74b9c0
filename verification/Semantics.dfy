/** layergkr/semantics.py: the builder that emits gates and lookups while it computes. Its
    invariant is what the arbiter checks: every gate vanishes, every query is a table row, every
    contraction is right, whatever was computed and whether or not a step was refused. */
module Semantics {
  import opened NumberTheory
  import opened Field
  import opened Polynomial
  import opened Sumcheck
  import opened Lifting
  import opened Gates
  import opened Rows
  import opened Demands

  datatype ToyConfig = ToyConfig(S: nat, d: nat, dff: nat, E: nat, tableBits: nat, scaleBits: nat) {
    function TableSize(): nat { Pow2(tableBits) }
    function Scale(): nat { Pow2(scaleBits) }
    function Experts(): nat { if E > 1 then E else 1 }
    predicate Positive() { S > 0 && d > 0 && dff > 0 && tableBits > 0 }
  }

  // ------------------------------------------------------------------- tables

  datatype TableName = ExpTable | SiluTable | IsqrtTable | RecipTable | RangeTable

  datatype Table = Table(tableId: nat, name: TableName, rows: seq<(int, int)>)

  /** The rounded-down root is Python's int(x ** 0.5), a parameter. */
  function TableEntry(cfg: ToyConfig, root: nat -> nat, name: TableName, x: nat): (y: int)
    ensures name == ExpTable ==> y == (x * x + 1) % Pow2(cfg.scaleBits)
    ensures name == SiluTable ==> y == (x * (x + 1) / 2) % Pow2(cfg.scaleBits)
    ensures name == IsqrtTable ==> y == (Pow2(cfg.scaleBits) / (1 + root(x))) % Pow2(cfg.scaleBits)
    ensures name == RecipTable ==> y == (Pow2(cfg.scaleBits) / (x + 1)) % Pow2(cfg.scaleBits)
    ensures name == RangeTable ==> y == 0
  {
    var scale := cfg.Scale();
    match name
    case ExpTable => (x * x + 1) % scale
    case SiluTable => (x * (x + 1) / 2) % scale
    case IsqrtTable => (scale / (1 + root(x))) % scale
    case RecipTable => (scale / (x + 1)) % scale
    case RangeTable => 0
  }

  function TableId(name: TableName): nat {
    match name
    case ExpTable => 1
    case SiluTable => 2
    case IsqrtTable => 3
    case RecipTable => 4
    case RangeTable => 5
  }

  /** Row x of a table is x and the table's value there. */
  function TableOf(cfg: ToyConfig, root: nat -> nat, name: TableName): (t: Table)
    ensures t.name == name && |t.rows| == cfg.TableSize() && forall x :: 0 <= x < |t.rows| ==> t.rows[x].0 == x
    ensures forall x :: 0 <= x < |t.rows| ==> t.rows[x].1 == TableEntry(cfg, root, name, x)
  {
    Table(TableId(name), name, seq(cfg.TableSize(), x requires 0 <= x => (x, TableEntry(cfg, root, name, x))))
  }

  datatype Option<T> = None | Some(value: T)

  /** dict(rows).get(x): the last row with that key. */
  function DictGet(rows: seq<(int, int)>, x: int): Option<int> {
    if rows == [] then None
    else if rows[|rows| - 1].0 == x then Some(rows[|rows| - 1].1)
    else DictGet(rows[..|rows| - 1], x)
  }

  predicate IsRow(rows: seq<(int, int)>, q: (int, int)) {
    DictGet(rows, q.0) == Some(q.1)
  }

  /** Row x is keyed by x. */
  ghost predicate Keyed(rows: seq<(int, int)>) {
    forall x :: 0 <= x < |rows| ==> rows[x].0 == x
  }

  lemma {:induction false} KeyedGet(rows: seq<(int, int)>, x: int)
    requires Keyed(rows)
    ensures DictGet(rows, x) == if 0 <= x < |rows| then Some(rows[x].1) else None
  {
    if rows != [] {
      var n := |rows| - 1;
      assert Keyed(rows[..n]);
      KeyedGet(rows[..n], x);
    }
  }

  lemma TableRow(cfg: ToyConfig, root: nat -> nat, name: TableName, x: int)
    ensures DictGet(TableOf(cfg, root, name).rows, x)
            == if 0 <= x < cfg.TableSize() then Some(TableEntry(cfg, root, name, x)) else None
  {
    KeyedGet(TableOf(cfg, root, name).rows, x);
  }

  ghost predicate AllRows(rows: seq<(int, int)>, queries: seq<(int, int)>) {
    forall k :: 0 <= k < |queries| ==> IsRow(rows, queries[k])
  }

  // ------------------------------------------------------- integer semantics

  function Scaled(cfg: ToyConfig, raws: seq<int>): (qs: seq<int>)
    ensures |qs| == |raws| && forall i :: 0 <= i < |qs| ==> qs[i] == raws[i] / cfg.Scale()
  {
    seq(|raws|, i requires 0 <= i < |raws| => raws[i] / cfg.Scale())
  }

  function Highs(cfg: ToyConfig, vals: seq<int>): (qs: seq<int>)
    ensures |qs| == |vals| && forall i :: 0 <= i < |qs| ==> qs[i] == vals[i] / cfg.TableSize()
  {
    seq(|vals|, i requires 0 <= i < |vals| => vals[i] / cfg.TableSize())
  }

  function Lows(cfg: ToyConfig, vals: seq<int>): (qs: seq<int>)
    ensures |qs| == |vals| && forall i :: 0 <= i < |qs| ==> qs[i] == vals[i] % cfg.TableSize()
  {
    seq(|vals|, i requires 0 <= i < |vals| => vals[i] % cfg.TableSize())
  }

  function Looked(cfg: ToyConfig, root: nat -> nat, name: TableName, xs: seq<int>): (ys: seq<int>)
    ensures |ys| == |xs|
  {
    seq(|xs|, i requires 0 <= i < |xs| => if xs[i] >= 0 then TableEntry(cfg, root, name, xs[i]) else 0)
  }

  function Times(a: seq<int>, b: seq<int>): (c: seq<int>)
    requires |a| == |b|
    ensures |c| == |a| && forall i :: 0 <= i < |c| ==> c[i] == a[i] * b[i]
  {
    seq(|a|, i requires 0 <= i < |a| => a[i] * b[i])
  }

  function Plus(a: seq<int>, b: seq<int>): (c: seq<int>)
    requires |a| == |b|
    ensures |c| == |a| && forall i :: 0 <= i < |c| ==> c[i] == a[i] + b[i]
  {
    seq(|a|, i requires 0 <= i < |a| => a[i] + b[i])
  }

  function ModP(a: seq<int>): (c: seq<int>)
    ensures |c| == |a| && forall i :: 0 <= i < |c| ==> c[i] == a[i] % P
  {
    seq(|a|, i requires 0 <= i < |a| => a[i] % P)
  }

  /** The unscaled contraction of X with the output-major W. */
  function Raws(X: Matrix, W: Matrix, nIn: nat): (r: Matrix)
    ensures |r| == |X| && AllWide(r, |W|)
    ensures forall t, i :: 0 <= t < |X| && 0 <= i < |W| ==> r[t][i] == Inner(X[t], W[i], nIn)
  {
    seq(|X|, t requires 0 <= t < |X| => seq(|W|, i requires 0 <= i < |W| => Inner(X[t], W[i], nIn)))
  }

  function ScaledRows(cfg: ToyConfig, rows: Matrix): (r: Matrix)
    ensures |r| == |rows| && forall t :: 0 <= t < |r| ==> r[t] == Scaled(cfg, rows[t])
  {
    seq(|rows|, t requires 0 <= t < |rows| => Scaled(cfg, rows[t]))
  }

  function ModRows(rows: Matrix): (r: Matrix)
    ensures |r| == |rows| && forall t :: 0 <= t < |r| ==> r[t] == ModP(rows[t])
  {
    seq(|rows|, t requires 0 <= t < |rows| => ModP(rows[t]))
  }

  datatype Matmul = MatmulNode(name: string, X: Matrix, W: Matrix, Y: Matrix)

  ghost predicate MatmulRight(m: Matmul) {
    && Rectangular(m.W) && AllWide(m.X, |m.W[0]|) && |m.Y| == |m.X| && AllWide(m.Y, |m.W|)
    && forall t, i :: 0 <= t < |m.X| && 0 <= i < |m.W| ==> m.Y[t][i] == Inner(m.X[t], m.W[i], |m.W[0]|) % P
  }

  datatype MoEMatmul = MoENode(name: string, route: seq<nat>, X: Matrix, W: seq<Matrix>, Y: Matrix)

  /** E tensors of one shape, dOut rows of dIn entries. */
  ghost predicate Stack(W: seq<Matrix>, dOut: nat, dIn: nat) {
    |W| > 0 && forall e :: 0 <= e < |W| ==> |W[e]| == dOut > 0 && AllWide(W[e], dIn)
  }

  ghost predicate Routed(route: seq<nat>, S: nat, E: nat) {
    |route| == S && forall t :: 0 <= t < S ==> route[t] < E
  }

  function RoutedRaws(X: Matrix, W: seq<Matrix>, route: seq<nat>, dOut: nat, dIn: nat): (r: Matrix)
    requires |route| == |X| && (forall t :: 0 <= t < |X| ==> route[t] < |W|)
    requires forall e :: 0 <= e < |W| ==> |W[e]| == dOut
    ensures |r| == |X| && AllWide(r, dOut)
    ensures forall t, i :: 0 <= t < |X| && 0 <= i < dOut ==> r[t][i] == Inner(X[t], W[route[t]][i], dIn)
  {
    seq(|X|, t requires 0 <= t < |X| => seq(dOut, i requires 0 <= i < dOut => Inner(X[t], W[route[t]][i], dIn)))
  }

  ghost predicate MoERight(m: MoEMatmul) {
    && Routed(m.route, |m.X|, |m.W|) && |m.W| > 0 && |m.W[0]| > 0 && Stack(m.W, |m.W[0]|, |m.W[0][0]|)
    && AllWide(m.X, |m.W[0][0]|) && |m.Y| == |m.X| && AllWide(m.Y, |m.W[0]|)
    && forall t, i :: 0 <= t < |m.X| && 0 <= i < |m.W[0]|
         ==> m.Y[t][i] == Inner(m.X[t], m.W[m.route[t]][i], |m.W[0][0]|) % P
  }

  // ------------------------------------------------------------------- counts

  datatype Shape = Shape(matmuls: int, cells: int, gates: int, slots: int, queries: int, moe: int, moeCells: int) {
    function Plus(s: Shape): Shape {
      Shape(matmuls + s.matmuls, cells + s.cells, gates + s.gates, slots + s.slots, queries + s.queries,
            moe + s.moe, moeCells + s.moeCells)
    }
  }

  const NOTHING := Shape(0, 0, 0, 0, 0, 0, 0)

  function Repeated(n: nat, s: Shape): Shape {
    if n == 0 then NOTHING else Repeated(n - 1, s).Plus(s)
  }

  function GateShape(m: nat): Shape { NOTHING.(gates := 1, slots := m) }
  function QueryShape(m: nat): Shape { NOTHING.(queries := m) }

  function WordsFor(divisorBits: nat, wordBits: nat): nat
    requires wordBits > 0
  {
    match QuotientWords(divisorBits, wordBits) case NoRoom => 0 case Words(k) => k
  }

  /** A ranged division of m values: its gate and word gate, its remainders and words. */
  function DivisionShape(divisorBits: nat, wordBits: nat, m: nat): Shape
    requires wordBits > 0
  {
    NOTHING.(gates := 2, slots := m + m, queries := m + Base(WordsFor(divisorBits, wordBits), m))
  }

  function RescaleShape(cfg: ToyConfig, m: nat): Shape
    requires cfg.Positive()
  {
    DivisionShape(cfg.scaleBits, cfg.tableBits, m)
  }

  function BracketShape(cfg: ToyConfig, m: nat): Shape
    requires cfg.Positive()
  {
    DivisionShape(cfg.tableBits, cfg.tableBits, m)
  }

  function MatmulShape(cfg: ToyConfig, rows: nat, nOut: nat, nIn: nat): Shape
    requires cfg.Positive()
  {
    NOTHING.(matmuls := 1, cells := rows * nOut * nIn).Plus(RescaleShape(cfg, Base(rows, nOut)))
  }

  function MoEShape(cfg: ToyConfig, rows: nat, e: nat, dOut: nat, dIn: nat): Shape
    requires cfg.Positive()
  {
    NOTHING.(moe := 1, moeCells := e * dOut * dIn).Plus(RescaleShape(cfg, Base(rows, dOut)))
  }

  function SlotsOf(gates: seq<Gate>): nat {
    if gates == [] then 0
    else
      var g := gates[|gates| - 1];
      SlotsOf(gates[..|gates| - 1]) + if g.terms != [] && g.terms[0].factors != [] then |g.terms[0].factors[0]| else 0
  }

  function CellsOf(ms: seq<Matmul>): nat {
    if ms == [] then 0
    else
      var m := ms[|ms| - 1];
      CellsOf(ms[..|ms| - 1]) + if m.W != [] then |m.X| * |m.W| * |m.W[0]| else 0
  }

  function MoECellsOf(ms: seq<MoEMatmul>): nat {
    if ms == [] then 0
    else
      var m := ms[|ms| - 1];
      MoECellsOf(ms[..|ms| - 1]) + if m.W != [] && m.W[0] != [] then |m.W| * |m.W[0]| * |m.W[0][0]| else 0
  }

  type Lookups = map<TableName, seq<(int, int)>>

  predicate AllNames(lookups: Lookups) {
    ExpTable in lookups && SiluTable in lookups && IsqrtTable in lookups && RecipTable in lookups && RangeTable in lookups
  }

  /** No table lost a query. */
  predicate Grown(a: Lookups, b: Lookups) {
    && AllNames(a) && AllNames(b)
    && |a[ExpTable]| <= |b[ExpTable]| && |a[SiluTable]| <= |b[SiluTable]| && |a[IsqrtTable]| <= |b[IsqrtTable]|
    && |a[RecipTable]| <= |b[RecipTable]| && |a[RangeTable]| <= |b[RangeTable]|
  }

  // ------------------------------------------------------- what the tables are asked

  /** Queries to every table but the range table. */
  datatype Queries = Queries(exp: seq<(int, int)>, silu: seq<(int, int)>, isqrt: seq<(int, int)>, recip: seq<(int, int)>) {
    function Then(q: Queries): Queries { Queries(exp + q.exp, silu + q.silu, isqrt + q.isqrt, recip + q.recip) }
  }

  const NO_QUERIES := Queries([], [], [], [])

  function QueriesTo(name: TableName, qs: seq<(int, int)>): Queries {
    match name
    case ExpTable => NO_QUERIES.(exp := qs)
    case SiluTable => NO_QUERIES.(silu := qs)
    case IsqrtTable => NO_QUERIES.(isqrt := qs)
    case RecipTable => NO_QUERIES.(recip := qs)
    case RangeTable => NO_QUERIES
  }

  /** Exactly these queries were added, in order, the range table apart. */
  predicate Grew(a: Lookups, q: Queries, b: Lookups) {
    && AllNames(a) && AllNames(b)
    && b[ExpTable] == a[ExpTable] + q.exp && b[SiluTable] == a[SiluTable] + q.silu
    && b[IsqrtTable] == a[IsqrtTable] + q.isqrt && b[RecipTable] == a[RecipTable] + q.recip
  }

  predicate Unasked(lookups: Lookups) {
    forall name <- lookups :: lookups[name] == []
  }

  lemma GrewThrough(a: Lookups, q: Queries, b: Lookups, r: Queries, c: Lookups)
    requires Grew(a, q, b) && Grew(b, r, c)
    ensures Grew(a, q.Then(r), c)
  {}

  lemma ThenNothing(q: Queries)
    ensures q.Then(NO_QUERIES) == q && NO_QUERIES.Then(q) == q
  {}

  lemma GrewNothing(a: Lookups)
    requires AllNames(a)
    ensures Grew(a, NO_QUERIES, a)
  {}

  /** Arguments and values, paired. */
  function Pairs(xs: seq<int>, ys: seq<int>): (qs: seq<(int, int)>)
    requires |xs| == |ys|
    ensures |qs| == |xs| && forall i :: 0 <= i < |qs| ==> qs[i] == (xs[i], ys[i])
  {
    seq(|xs|, i requires 0 <= i < |xs| => (xs[i], ys[i]))
  }

  /** How many queries a table has. */
  function Asked(a: Lookups, name: TableName): nat {
    if name in a then |a[name]| else 0
  }

  lemma GrownTrans(a: Lookups, b: Lookups, c: Lookups)
    requires Grown(a, b) && Grown(b, c)
    ensures Grown(a, c)
  {}

  lemma GrownAsked(a: Lookups, b: Lookups, name: TableName)
    requires Grown(a, b)
    ensures Asked(a, name) <= Asked(b, name)
  {}

  function QueryCount(lookups: Lookups): nat {
    if AllNames(lookups)
    then |lookups[ExpTable]| + |lookups[SiluTable]| + |lookups[IsqrtTable]| + |lookups[RecipTable]| + |lookups[RangeTable]|
    else 0
  }

  // ------------------------------------------------------------------ the builder

  datatype Status = Fine | RangeOverflow | ValueError

  predicate Fits(qs: seq<int>, limit: int) {
    forall i :: 0 <= i < |qs| ==> 0 <= qs[i] < limit
  }

  /** How _bound_quotient ends. */
  function QuotientStatus(cfg: ToyConfig, qs: seq<int>, divisorBits: nat): Status
    requires cfg.Positive()
  {
    match QuotientWords(divisorBits, cfg.tableBits)
    case NoRoom => ValueError
    case Words(k) => if Fits(qs, Pow2(cfg.tableBits * k)) then Fine else RangeOverflow
  }

  function RescaleStatus(cfg: ToyConfig, raws: seq<int>): Status
    requires cfg.Positive()
  {
    if cfg.Scale() > cfg.TableSize() then ValueError else QuotientStatus(cfg, Scaled(cfg, raws), cfg.scaleBits)
  }

  ghost predicate AllVanish(gates: seq<Gate>) {
    forall k :: 0 <= k < |gates| ==> Vanishes(gates[k])
  }

  ghost predicate AllQueriesHit(cfg: ToyConfig, root: nat -> nat, lookups: Lookups) {
    AllNames(lookups) && forall name <- lookups :: AllRows(TableOf(cfg, root, name).rows, lookups[name])
  }

  function MaxOf(qs: seq<int>): int {
    if qs == [] then 0 else if |qs| == 1 then qs[0]
    else if qs[0] >= MaxOf(qs[1..]) then qs[0] else MaxOf(qs[1..])
  }

  function MinOf(qs: seq<int>): int {
    if qs == [] then 0 else if |qs| == 1 then qs[0]
    else if qs[0] <= MinOf(qs[1..]) then qs[0] else MinOf(qs[1..])
  }

  lemma {:induction false} ExtremesDecide(qs: seq<int>, limit: int)
    requires limit > 0
    ensures Fits(qs, limit) <==> MinOf(qs) >= 0 && MaxOf(qs) < limit
  {
    if |qs| > 1 {
      ExtremesDecide(qs[1..], limit);
      if Fits(qs[1..], limit) && 0 <= qs[0] < limit {
        forall i | 0 <= i < |qs| ensures 0 <= qs[i] < limit {
          if i > 0 { assert qs[i] == qs[1..][i - 1]; }
        }
      }
      if Fits(qs, limit) {
        forall i | 0 <= i < |qs[1..]| ensures 0 <= qs[1..][i] < limit { assert qs[1..][i] == qs[i + 1]; }
      }
    }
  }

  const NAME_LIMIT := 1000

  /** What a builder had recorded at some moment. */
  datatype Mark = Marked(counts: Shape, lookups: Lookups, tidy: bool, log: Log)

  class Builder {
    const cfg: ToyConfig
    const root: nat -> nat
    var gates: seq<Gate>
    var lookups: Lookups
    var matmuls: seq<Matmul>
    var moe: seq<MoEMatmul>
    var n: nat

    /** Everything recorded so far holds. */
    ghost predicate Sound()
      reads `gates, `lookups, `matmuls, `moe
      ensures Sound() ==> cfg.Positive()
    {
      && cfg.Positive() && AllVanish(gates) && AllQueriesHit(cfg, root, lookups)
      && (forall k :: 0 <= k < |matmuls| ==> MatmulRight(matmuls[k]))
      && (forall k :: 0 <= k < |moe| ==> MoERight(moe[k]))
    }

    /** Every contraction has a row and a name of ordinary length. */
    ghost predicate Tidy()
      reads `matmuls, `moe
    {
      && (forall k :: 0 <= k < |matmuls| ==> matmuls[k].X != [] && |matmuls[k].name| < NAME_LIMIT)
      && forall k :: 0 <= k < |moe| ==> moe[k].X != [] && |moe[k].name| < NAME_LIMIT && |moe[k].W| == cfg.Experts()
    }

    ghost function Mark(): Mark
      reads `gates, `lookups, `matmuls, `moe
    {
      Marked(Counts(), lookups, Tidy(), Record())
    }

    /** Its gates and range queries. */
    ghost function Record(): Log
      reads `gates, `lookups
    {
      Log(gates, if RangeTable in lookups then lookups[RangeTable] else [])
    }

    /** Nothing recorded before was lost. */
    ghost predicate Follows(was: Mark)
      reads `gates, `lookups, `matmuls, `moe
    {
      Grown(was.lookups, lookups) && (was.tidy ==> Tidy()) && Extends(was.log, Record())
    }

    /** How a stage ends: everything recorded holds, nothing was lost, the status is the wanted one,
        and the counts are `after` if it was fine. */
    ghost predicate Ended(was: Mark, st: Status, want: Status, after: Shape)
      reads `gates, `lookups, `matmuls, `moe
    {
      Sound() && Follows(was) && st == want && (st.Fine? ==> Counts() == after)
    }

    lemma EndedIs(was: Mark, st: Status, want: Status, after: Shape)
      ensures Ended(was, st, want, after)
              <==> Sound() && Follows(was) && st == want && (st.Fine? ==> Counts() == after)
    {
      hide Sound, Follows, Counts;
    }

    function Counts(): Shape
      reads `gates, `lookups, `matmuls, `moe
    {
      Shape(|matmuls|, CellsOf(matmuls), |gates|, SlotsOf(gates), QueryCount(lookups), |moe|, MoECellsOf(moe))
    }

    constructor (cfg: ToyConfig, root: nat -> nat)
      requires cfg.Positive()
      ensures Sound() && Counts() == NOTHING && this.cfg == cfg && this.root == root
      ensures Tidy() && AllNames(lookups) && gates == [] && matmuls == [] && moe == []
      ensures Unasked(lookups)
    {
      this.cfg, this.root := cfg, root;
      gates, matmuls, moe, n := [], [], [], 0;
      lookups := map[ExpTable := [], SiluTable := [], IsqrtTable := [], RecipTable := [], RangeTable := []];
    }

    method Id(kind: string) returns (id: NodeId)
      modifies this`n
      ensures n == old(n) + 1 && id == Numbered(kind, n)
    {
      n := n + 1;
      id := Numbered(kind, n);
    }

    /** gates.append */
    method Emit(g: Gate)
      requires Sound() && Vanishes(g)
      modifies this`gates
      ensures Sound() && gates == old(gates) + [g]
      ensures Extends(old(Record()), Record()) && Kept(Record(), g.terms)
      ensures Counts() == old(Counts()).Plus(GateShape(Size(g)))
    {
      hide AllQueriesHit, MatmulRight, MoERight;
      gates := gates + [g];
      assert gates[..|gates| - 1] == old(gates);
      assert gates[|gates| - 1] == g;
    }

    method Extend(name: TableName, queries: seq<(int, int)>)
      requires Sound() && AllRows(TableOf(cfg, root, name).rows, queries)
      modifies this`lookups
      ensures Sound() && lookups == old(lookups)[name := old(lookups)[name] + queries]
      ensures Grown(old(lookups), lookups) && Asked(lookups, name) == Asked(old(lookups), name) + |queries|
      ensures Extends(old(Record()), Record())
      ensures Counts() == old(Counts()).Plus(QueryShape(|queries|))
    {
      hide AllVanish, MatmulRight, MoERight, IsRow;
      lookups := lookups[name := lookups[name] + queries];
    }

    lemma FollowsIs(was: Mark)
      ensures Follows(was) <==> Grown(was.lookups, lookups) && (was.tidy ==> Tidy()) && Extends(was.log, Record())
    {
      hide Grown, Tidy, Counts, Extends;
    }

    lemma MarkIs()
      ensures Mark() == Marked(Counts(), lookups, Tidy(), Record())
    {
      hide Counts, Tidy;
    }

    /** Between two stages. */
    lemma Passed(was: Mark) returns (mid: Mark)
      requires Follows(was)
      ensures mid == Mark() && mid.counts == Counts() && mid.lookups == lookups
      ensures Grown(was.lookups, mid.lookups) && (was.tidy ==> mid.tidy)
      ensures mid.log == Record() && Extends(was.log, mid.log)
    {
      hide Grown, Tidy, Counts, Extends;
      mid := Mark();
    }

    /** What a table was asked stays asked. */
    lemma StillAsked(mid: Mark, name: TableName)
      requires Follows(mid)
      ensures Asked(lookups, name) >= Asked(mid.lookups, name)
    {
      GrownAsked(mid.lookups, lookups, name);
    }

    /** A stage after a stage. */
    lemma FollowsThrough(was: Mark, mid: Mark)
      requires Grown(was.lookups, mid.lookups) && (was.tidy ==> mid.tidy) && Extends(was.log, mid.log) && Follows(mid)
      ensures Follows(was) && Extends(mid.log, Record())
    {
      hide Grown, Tidy, Extends;
      GrownTrans(was.lookups, mid.lookups, lookups);
      ExtendsThrough(was.log, mid.log, Record());
    }

    /** One more step that only asked and emitted. */
    lemma FollowsOn(was: Mark, mid: Lookups, log: Log)
      requires Grown(was.lookups, mid) && Grown(mid, lookups) && (was.tidy ==> Tidy())
      requires Extends(was.log, log) && Extends(log, Record())
      ensures Follows(was)
    {
      hide Tidy, Grown, Extends;
      GrownTrans(was.lookups, mid, lookups);
      ExtendsThrough(was.log, log, Record());
    }

    lemma SoundNames()
      requires Sound()
      ensures Grown(lookups, lookups) && Follows(Mark())
    {}

    lemma SoundNothing()
      requires Sound()
      ensures Grew(lookups, NO_QUERIES, lookups)
    {}

    /** Membership in [0, bound); a bound beyond the range table is refused. */
    method RangeCheck(vals: seq<int>, bound: nat) returns (st: Status)
      requires Sound() && Fits(vals, bound)
      modifies this`lookups
      ensures Sound() && st == if bound > cfg.TableSize() then ValueError else Fine
      ensures Grown(old(lookups), lookups) && Grew(old(lookups), NO_QUERIES, lookups)
      ensures Extends(old(Record()), Record()) && (st.Fine? ==> RangedIn(Record(), vals))
      ensures st.Fine? ==> Asked(lookups, RangeTable) == Asked(old(lookups), RangeTable) + |vals|
      ensures st.Fine? ==> Counts() == old(Counts()).Plus(QueryShape(|vals|))
    {
      if bound > cfg.TableSize() {
        return ValueError;
      }
      var queries := seq(|vals|, i requires 0 <= i < |vals| => (vals[i], 0));
      forall k | 0 <= k < |queries| ensures IsRow(TableOf(cfg, root, RangeTable).rows, queries[k]) {
        TableRow(cfg, root, RangeTable, vals[k]);
      }
      Extend(RangeTable, queries);
      assert forall i :: 0 <= i < |vals| ==> queries[i] == (vals[i], 0);
      st := Fine;
    }

    /** Ranges every quotient by words, or refuses. */
    method BoundQuotient(qs: seq<int>, divisorBits: nat) returns (st: Status)
      requires Sound()
      modifies this`gates, this`lookups, this`n
      ensures Sound() && st == QuotientStatus(cfg, qs, divisorBits) && Grown(old(lookups), lookups)
      ensures Grew(old(lookups), NO_QUERIES, lookups) && Extends(old(Record()), Record())
      ensures st.Fine? ==> exists words :: WordsBy(Record(), cfg.tableBits, divisorBits, qs, words)
      ensures st.Fine? ==> Counts() == old(Counts()).Plus(
        NOTHING.(gates := 1, slots := |qs|, queries := Base(WordsFor(divisorBits, cfg.tableBits), |qs|)))
    {
      SoundNames();
      hide AllVanish, AllQueriesHit, MatmulRight, MoERight, Pow2, Base, Kept, RangedIn, Value;
      var wb := cfg.tableBits;
      match QuotientWords(divisorBits, wb)
      case NoRoom =>
        return ValueError;
      case Words(k) =>
        QuotientWordsExact(divisorBits, wb);
        var limit := Pow2(wb * k);
        var qMax := MaxOf(qs);
        ExtremesDecide(qs, limit);
        if MinOf(qs) < 0 || qMax >= limit {
          return RangeOverflow;
        }
        assert Fits(qs, limit);
        RangeWords(qs, wb, k);
        WordsAre(Record(), wb, divisorBits, k, qs);
        st := Fine;
    }

    /** The word gate and one range check per word. */
    method RangeWords(qs: seq<nat>, wb: nat, k: nat)
      requires Sound() && wb == cfg.tableBits && k > 0 && Fits(qs, Pow2(wb * k))
      modifies this`gates, this`lookups, this`n
      ensures Sound() && Grown(old(lookups), lookups) && Grew(old(lookups), NO_QUERIES, lookups)
      ensures Extends(old(Record()), Record())
      ensures Kept(Record(), Zipped(WordPowers(wb, k), WordColumns(qs, wb, k)) + [Term(P - 1, [qs])])
      ensures forall j :: 0 <= j < k ==> RangedIn(Record(), WordColumns(qs, wb, k)[j])
      ensures Counts() == old(Counts()).Plus(NOTHING.(gates := 1, slots := |qs|, queries := Base(k, |qs|)))
    {
      assert Pow2(wb) == cfg.TableSize();
      hide *;
      var words := WordColumns(qs, wb, k);
      var id := Id("qbound");
      var g := Affine(id, WordPowers(wb, k), words, qs);
      WordGateHolds(id, qs, wb, k);
      Emit(g);
      AffineTerms(id, WordPowers(wb, k), words, qs);
      ghost var kept := Record();
      ColumnsInRange(qs, wb, k);
      CheckWords(words, Pow2(wb), |qs|);
      RangedAfter(old(Record()), kept, Record(), g.terms, words);
      QueriesAfterGate(old(Counts()), |qs|, Base(k, |qs|));
    }

    method CheckWords(words: Matrix, bound: nat, m: nat)
      requires Sound() && bound == cfg.TableSize() && AllWide(words, m) && AllFit(words, bound)
      modifies this`lookups
      ensures Sound() && Counts() == old(Counts()).Plus(QueryShape(Base(|words|, m))) && Grown(old(lookups), lookups)
      ensures Grew(old(lookups), NO_QUERIES, lookups)
      ensures AllRanged(old(Record()), Record(), words, |words|)
    {
      SoundNames();
      hide *;
      NoneRanged(Record(), words);
      SoundNothing();
      BaseNext(0, m);
      QueriesAdd(Counts(), 0, 0);
      for j := 0 to |words|
        invariant Sound() && Counts() == old(Counts()).Plus(QueryShape(Base(j, m))) && Grown(old(lookups), lookups)
        invariant Grew(old(lookups), NO_QUERIES, lookups) && AllRanged(old(Record()), Record(), words, j)
      {
        CheckWord(old(Record()), old(lookups), old(Counts()), words, bound, m, j);
      }
    }

    method CheckWord(ghost log: Log, ghost asked: Lookups, ghost counts: Shape, words: Matrix, bound: nat, m: nat, j: nat)
      requires Sound() && bound == cfg.TableSize() && j < |words| && |words[j]| == m && Fits(words[j], bound)
      requires Counts() == counts.Plus(QueryShape(Base(j, m))) && Grown(asked, lookups) && Grew(asked, NO_QUERIES, lookups)
      requires AllRanged(log, Record(), words, j)
      modifies this`lookups
      ensures Sound() && Counts() == counts.Plus(QueryShape(Base(j + 1, m))) && Grown(asked, lookups)
      ensures Grew(asked, NO_QUERIES, lookups) && AllRanged(log, Record(), words, j + 1)
    {
      hide *;
      ghost var mid, midAsked := Record(), lookups;
      var ok := RangeCheck(words[j], bound);
      OneMoreRanged(log, mid, Record(), words, j);
      GrownTrans(asked, midAsked, lookups);
      GrewThrough(asked, NO_QUERIES, midAsked, NO_QUERIES, lookups);
      ThenNothing(NO_QUERIES);
      BaseNext(j, m);
      QueriesAdd(counts, Base(j, m), m);
    }

    /** raw = scale*q + r: both gates, the remainders and the words. */
    method Rescale(raws: seq<int>) returns (st: Status, qs: seq<int>)
      requires Sound()
      modifies this`gates, this`lookups, this`n
      ensures Sound() && st == RescaleStatus(cfg, raws) && qs == Scaled(cfg, raws) && Grown(old(lookups), lookups)
      ensures Grew(old(lookups), NO_QUERIES, lookups) && Extends(old(Record()), Record())
      ensures st.Fine? ==> Met(Record(), cfg.tableBits, Div(cfg.scaleBits, raws))
      ensures st.Fine? ==> Asked(lookups, RangeTable) >= Asked(old(lookups), RangeTable) + |raws|
      ensures st.Fine? ==> Counts() == old(Counts()).Plus(RescaleShape(cfg, |raws|))
    {
      hide AllVanish, AllQueriesHit, MatmulRight, MoERight, Pow2, Base, Extends, Kept, RangedIn, WordsBy, Sound, Counts;
      var s := cfg.Scale();
      qs := Scaled(cfg, raws);
      var rs := seq(|raws|, i requires 0 <= i < |raws| => raws[i] % s);
      var id := Id("rescale");
      DivisionGateHolds(id, raws, qs, rs, s);
      ghost var log0 := Record();
      Emit(Gates.Rescale(id, raws, qs, rs, s));
      ghost var log1 := Record();
      st := RangeCheck(rs, s);
      ghost var log2 := Record();
      ExtendsThrough(log0, log1, log2);
      if st.Fine? {
        st := BoundQuotient(qs, cfg.scaleBits);
        ExtendsThrough(log0, log2, Record());
        if st.Fine? { DivisionMet(log1, log2, Record(), cfg.tableBits, cfg.scaleBits, raws, qs, rs); }
      }
    }

    /** v = hi*size + lo, with lo and hi ranged. */
    method Bracket(vals: seq<int>) returns (st: Status, los: seq<int>)
      requires Sound()
      modifies this`gates, this`lookups, this`n
      ensures Sound() && st == QuotientStatus(cfg, Highs(cfg, vals), cfg.tableBits) && los == Lows(cfg, vals)
      ensures Grown(old(lookups), lookups) && Grew(old(lookups), NO_QUERIES, lookups)
      ensures Extends(old(Record()), Record())
      ensures st.Fine? ==> Met(Record(), cfg.tableBits, Div(cfg.tableBits, vals))
      ensures st.Fine? ==> Counts() == old(Counts()).Plus(BracketShape(cfg, |vals|))
    {
      hide AllVanish, AllQueriesHit, MatmulRight, MoERight, Pow2, Base, Extends, Kept, RangedIn, WordsBy, Sound, Counts;
      var n := cfg.TableSize();
      var his := Highs(cfg, vals);
      los := Lows(cfg, vals);
      var id := Id("bracket");
      DivisionGateHolds(id, vals, his, los, n);
      ghost var log0 := Record();
      Emit(Gates.Rescale(id, vals, his, los, n));
      ghost var log1 := Record();
      st := RangeCheck(los, n);
      ghost var log2 := Record();
      ExtendsThrough(log0, log1, log2);
      if st.Fine? {
        st := BoundQuotient(his, cfg.tableBits);
        ExtendsThrough(log0, log2, Record());
        if st.Fine? { DivisionMet(log1, log2, Record(), cfg.tableBits, cfg.tableBits, vals, his, los); }
      }
    }

    method Lookup(name: TableName, xs: seq<int>) returns (ys: seq<int>)
      requires Sound() && Fits(xs, cfg.TableSize())
      modifies this`lookups
      ensures Sound() && ys == Looked(cfg, root, name, xs) && Grown(old(lookups), lookups)
      ensures Asked(lookups, name) == Asked(old(lookups), name) + |xs|
      ensures Grew(old(lookups), QueriesTo(name, Pairs(xs, ys)), lookups) && Extends(old(Record()), Record())
      ensures Counts() == old(Counts()).Plus(QueryShape(|xs|))
    {
      hide AllVanish, AllQueriesHit, MatmulRight, MoERight, Extends, TableEntry, Sound, Counts, Pow2, QueryCount, DictGet;
      var t := TableOf(cfg, root, name);
      ys := seq(|xs|, i requires 0 <= i < |xs| && Fits(xs, |t.rows|) => t.rows[xs[i]].1);
      assert ys == Looked(cfg, root, name, xs);
      var queries := seq(|xs|, i requires 0 <= i < |xs| && |ys| == |xs| => (xs[i], ys[i]));
      forall k | 0 <= k < |queries| ensures IsRow(t.rows, queries[k]) {
        TableRow(cfg, root, name, xs[k]);
      }
      Extend(name, queries);
      assert queries == Pairs(xs, ys);
    }

    method MulRescaled(a: seq<int>, b: seq<int>, tag: string) returns (st: Status, qs: seq<int>)
      requires Sound() && |a| == |b|
      modifies this`gates, this`lookups, this`n
      ensures Sound() && st == RescaleStatus(cfg, Times(a, b)) && qs == Scaled(cfg, Times(a, b)) && Grown(old(lookups), lookups)
      ensures Grew(old(lookups), NO_QUERIES, lookups) && Extends(old(Record()), Record())
      ensures st.Fine? ==> Met(Record(), cfg.tableBits, Mul(a, b)) && Met(Record(), cfg.tableBits, Div(cfg.scaleBits, Times(a, b)))
      ensures st.Fine? ==> Counts() == old(Counts()).Plus(GateShape(|a|).Plus(RescaleShape(cfg, |a|)))
    {
      hide AllVanish, AllQueriesHit, MatmulRight, MoERight, Pow2, Base, Extends, Kept, DivBy, SumBy;
      var raw := Times(a, b);
      var id := Id("had_" + tag);
      ProductGateHolds(id, a, b);
      Emit(Gates.Hadamard(id, a, b, ModP(raw)));
      ghost var mid := Record();
      assert MulBy(mid, a, b, ModP(raw));
      st, qs := Rescale(raw);
      ExtendsThrough(old(Record()), mid, Record());
      MetStays(mid, Record(), cfg.tableBits, Mul(a, b));
    }

    method Add(a: seq<int>, b: seq<int>, tag: string) returns (y: seq<int>)
      requires Sound() && |a| == |b|
      modifies this`gates, this`n
      ensures Sound() && y == Plus(a, b)
      ensures Extends(old(Record()), Record()) && Met(Record(), cfg.tableBits, Sum(a, b))
      ensures Counts() == old(Counts()).Plus(GateShape(|a|))
    {
      hide AllVanish, AllQueriesHit, MatmulRight, MoERight, Extends, Kept, DivBy, MulBy;
      y := Plus(a, b);
      var id := Id("add_" + tag);
      SumGateHolds(id, a, b, y);
      Emit(Gates.Affine(id, [1, 1], [a, b], ModP(y)));
      SumTerms(id, a, b, ModP(y));
      assert SumBy(Record(), a, b, ModP(y));
    }

    /** matmuls.append */
    method AddMatmul(m: Matmul)
      requires Sound() && MatmulRight(m)
      modifies this`matmuls
      ensures Sound() && matmuls == old(matmuls) + [m]
      ensures Counts() == old(Counts()).Plus(NOTHING.(matmuls := 1, cells := |m.X| * |m.W| * |m.W[0]|))
    {
      hide AllVanish, AllQueriesHit, MatmulRight, MoERight;
      RightHasRows(m);
      matmuls := matmuls + [m];
      assert matmuls[..|matmuls| - 1] == old(matmuls);
    }

    /** moe.append */
    method AddMoE(m: MoEMatmul)
      requires Sound() && MoERight(m)
      modifies this`moe
      ensures Sound() && moe == old(moe) + [m]
      ensures Counts() == old(Counts()).Plus(NOTHING.(moe := 1, moeCells := |m.W| * |m.W[0]| * |m.W[0][0]|))
    {
      hide AllVanish, AllQueriesHit, MatmulRight, MoERight;
      RightHasExperts(m);
      moe := moe + [m];
      assert moe[..|moe| - 1] == old(moe);
    }

    /** Y = rescale(X W^T); the contraction is recorded, not gated. */
    method Matmul(name: string, X: Matrix, W: Matrix) returns (st: Status, Y: Matrix)
      requires Sound() && Rectangular(W) && AllWide(X, |W[0]|)
      modifies this
      ensures Sound() && st == RescaleStatus(cfg, Flat(Raws(X, W, |W[0]|))) && Grown(old(lookups), lookups)
      ensures Grew(old(lookups), NO_QUERIES, lookups) && moe == old(moe)
      ensures matmuls == old(matmuls) + [MatmulNode(name, X, W, ModRows(Raws(X, W, |W[0]|)))]
      ensures Extends(old(Record()), Record())
      ensures st.Fine? ==> Met(Record(), cfg.tableBits, Div(cfg.scaleBits, Flat(Raws(X, W, |W[0]|))))
      ensures st.Fine? ==> Asked(lookups, RangeTable) >= Asked(old(lookups), RangeTable) + |X|
      ensures old(Tidy()) && X != [] && |name| < NAME_LIMIT ==> Tidy()
      ensures Y == ScaledRows(cfg, Raws(X, W, |W[0]|))
      ensures st.Fine? ==> Counts() == old(Counts()).Plus(MatmulShape(cfg, |X|, |W|, |W[0]|))
    {
      hide AllVanish, AllQueriesHit, MatmulRight, MoERight, Pow2, Base, Inner, Builder.Counts, Builder.Sound, RescaleShape,
        RescaleStatus, Flat, Extends, Met;
      var nOut := |W|;
      var raws := Raws(X, W, |W[0]|);
      RightNode(name, X, W);
      AddMatmul(MatmulNode(name, X, W, ModRows(raws)));
      var flat := Flat(raws);
      FlatSize(raws, nOut);
      var q;
      st, q := Rescale(flat);
      PlusAssociates(old(Counts()), NOTHING.(matmuls := 1, cells := |X| * |W| * |W[0]|), RescaleShape(cfg, |flat|));
      BaseAtLeast(|X|, nOut);
      Y := Reshaped(cfg, raws, |X|, nOut, q);
    }

    /** One node for all tokens, each contracted with its own expert. */
    method MoeMatmul(name: string, X: Matrix, W: seq<Matrix>, route: seq<nat>) returns (st: Status, Y: Matrix)
      requires Sound() && |W| > 0 && |W[0]| > 0 && Stack(W, |W[0]|, |W[0][0]|)
      requires Routed(route, |X|, |W|) && AllWide(X, |W[0][0]|)
      modifies this
      ensures Sound() && st == RescaleStatus(cfg, Flat(RoutedRaws(X, W, route, |W[0]|, |W[0][0]|)))
      ensures Grown(old(lookups), lookups) && Grew(old(lookups), NO_QUERIES, lookups) && matmuls == old(matmuls)
      ensures moe == old(moe) + [MoENode(name, route, X, W, ModRows(RoutedRaws(X, W, route, |W[0]|, |W[0][0]|)))]
      ensures Extends(old(Record()), Record())
      ensures st.Fine? ==> Met(Record(), cfg.tableBits, Div(cfg.scaleBits, Flat(RoutedRaws(X, W, route, |W[0]|, |W[0][0]|))))
      ensures old(Tidy()) && X != [] && |name| < NAME_LIMIT && |W| == cfg.Experts() ==> Tidy()
      ensures Y == ScaledRows(cfg, RoutedRaws(X, W, route, |W[0]|, |W[0][0]|))
      ensures st.Fine? ==> Counts() == old(Counts()).Plus(MoEShape(cfg, |X|, |W|, |W[0]|, |W[0][0]|))
    {
      hide AllVanish, AllQueriesHit, MatmulRight, MoERight, Pow2, Base, Inner, Builder.Counts, Builder.Sound, RescaleShape,
        RescaleStatus, Flat, Extends, Met;
      var dOut, dIn := |W[0]|, |W[0][0]|;
      var raws := RoutedRaws(X, W, route, dOut, dIn);
      RightMoENode(name, X, W, route);
      AddMoE(MoENode(name, route, X, W, ModRows(raws)));
      var flat := Flat(raws);
      FlatSize(raws, dOut);
      var q;
      st, q := Rescale(flat);
      PlusAssociates(old(Counts()), NOTHING.(moe := 1, moeCells := |W| * dOut * dIn), RescaleShape(cfg, |flat|));
      Y := Reshaped(cfg, raws, |X|, dOut, q);
    }
  }

  /** The words of quotients that fit. */
  lemma WordsAre(log: Log, wb: nat, bits: nat, k: nat, qs: seq<nat>)
    requires k > 0 && bits + wb * k <= 63 && Fits(qs, Pow2(wb * k))
    requires Kept(log, Zipped(WordPowers(wb, k), WordColumns(qs, wb, k)) + [Term(P - 1, [qs])])
    requires forall j :: 0 <= j < k ==> RangedIn(log, WordColumns(qs, wb, k)[j])
    ensures WordsBy(log, wb, bits, qs, WordColumns(qs, wb, k))
  {
    hide Kept, RangedIn, Value, Pow2, Zipped, WordPowers, DigitAt;
    var words := WordColumns(qs, wb, k);
    forall i | 0 <= i < |qs| ensures qs[i] == Value(EntryWords(words, i), Pow2(wb)) {
      assert EntryWords(words, i) == Digits(qs[i], wb, k);
      DigitsValue(qs[i], wb, k);
    }
  }

  lemma DivisionMet(a: Log, b: Log, c: Log, wb: nat, bits: nat, raws: seq<int>, qs: seq<int>, rs: seq<int>)
    requires Extends(a, b) && Extends(b, c) && |qs| == |rs| == |raws|
    requires forall i :: 0 <= i < |raws| ==> qs[i] == raws[i] / Pow2(bits) && rs[i] == raws[i] % Pow2(bits)
    requires Kept(a, [Term(1, [raws]), Term((0 - Pow2(bits)) % P, [qs]), Term(P - 1, [rs])]) && RangedIn(b, rs)
    requires exists words :: WordsBy(c, wb, bits, qs, words)
    ensures Met(c, wb, Div(bits, raws))
  {
    hide Kept, RangedIn, Extends, WordsBy, Pow2;
    ExtendsThrough(a, b, c);
    KeptStays(a, c, [Term(1, [raws]), Term((0 - Pow2(bits)) % P, [qs]), Term(P - 1, [rs])]);
    RangedStays(b, c, rs);
    assert DivBy(c, wb, bits, raws, qs, rs);
  }

  lemma SumTerms(id: NodeId, a: seq<int>, b: seq<int>, y: seq<int>)
    ensures Gates.Affine(id, [1, 1], [a, b], y).terms == [Term(1, [a]), Term(1, [b]), Term(P - 1, [y])]
  {
    AffineTerms(id, [1, 1], [a, b], y);
    assert Zipped([1, 1], [a, b]) == [Term(1, [a]), Term(1, [b])];
  }

  lemma RightHasRows(m: Matmul)
    requires MatmulRight(m)
    ensures |m.W| > 0
  {}

  lemma RightHasExperts(m: MoEMatmul)
    requires MoERight(m)
    ensures |m.W| > 0 && |m.W[0]| > 0
  {}

  lemma RightNode(name: string, X: Matrix, W: Matrix)
    requires Rectangular(W) && AllWide(X, |W[0]|)
    ensures MatmulRight(MatmulNode(name, X, W, ModRows(Raws(X, W, |W[0]|))))
  {
    hide Inner;
  }

  lemma RightMoENode(name: string, X: Matrix, W: seq<Matrix>, route: seq<nat>)
    requires |W| > 0 && |W[0]| > 0 && Stack(W, |W[0]|, |W[0][0]|) && Routed(route, |X|, |W|) && AllWide(X, |W[0][0]|)
    ensures MoERight(MoENode(name, route, X, W, ModRows(RoutedRaws(X, W, route, |W[0]|, |W[0][0]|))))
  {
    hide Inner;
  }

  lemma BaseAtLeast(a: nat, b: nat)
    requires b > 0
    ensures Base(a, b) >= a
  {
    TimesAtLeast(a, b);
  }

  lemma PlusAssociates(a: Shape, b: Shape, c: Shape)
    ensures a.Plus(b).Plus(c) == a.Plus(b.Plus(c))
  {}

  /** The scaled flat list cut back into rows. */
  method Reshaped(cfg: ToyConfig, ghost raws: Matrix, rows: nat, width: nat, q: seq<int>) returns (Y: Matrix)
    requires AllWide(raws, width) && |raws| == rows && q == Scaled(cfg, Flat(raws))
    ensures Y == ScaledRows(cfg, raws)
  {
    hide Base;
    Y := [];
    for i := 0 to rows
      invariant |Y| == i && forall t :: 0 <= t < i ==> Y[t] == Scaled(cfg, raws[t])
    {
      FlatRow(raws, width, i);
      BaseNext(i, width);
      var row := q[Base(i, width)..Base(i + 1, width)];
      assert row == Scaled(cfg, Flat(raws)[Base(i, width)..Base(i, width) + width]);
      Y := Y + [row];
    }
  }

  lemma QueriesAdd(s: Shape, a: nat, b: nat)
    ensures s.Plus(QueryShape(a)).Plus(QueryShape(b)) == s.Plus(QueryShape(a + b))
    ensures s.Plus(QueryShape(0)) == s
  {}

  lemma QueriesAfterGate(s: Shape, m: nat, q: nat)
    ensures s.Plus(GateShape(m)).Plus(QueryShape(q)) == s.Plus(NOTHING.(gates := 1, slots := m, queries := q))
  {}

  // ------------------------------------------------------------ the gates hold

  lemma WordGateHolds(id: NodeId, qs: seq<nat>, wb: nat, k: nat)
    requires k > 0 && Fits(qs, Pow2(wb * k))
    ensures Vanishes(Affine(id, WordPowers(wb, k), WordColumns(qs, wb, k), qs))
    ensures Size(Affine(id, WordPowers(wb, k), WordColumns(qs, wb, k), qs)) == |qs|
  {
    hide Pow2, DigitAt, AtIndex;
    var g := Affine(id, WordPowers(wb, k), WordColumns(qs, wb, k), qs);
    forall i | 0 <= i < |qs| ensures AtIndex(g.terms, i) % P == 0 {
      WordGateVanishes(id, qs, wb, k, i);
    }
  }

  ghost predicate AllFit(rows: Matrix, limit: int) {
    forall j :: 0 <= j < |rows| ==> Fits(rows[j], limit)
  }

  lemma ColumnsInRange(qs: seq<nat>, wb: nat, k: nat)
    ensures |WordColumns(qs, wb, k)| == k && AllWide(WordColumns(qs, wb, k), |qs|)
    ensures AllFit(WordColumns(qs, wb, k), Pow2(wb))
  {}

  lemma DivisionGateHolds(id: NodeId, raws: seq<int>, qs: seq<int>, rs: seq<int>, s: nat)
    requires s > 0 && |qs| == |rs| == |raws|
    requires forall i :: 0 <= i < |raws| ==> qs[i] == raws[i] / s && rs[i] == raws[i] % s
    ensures Vanishes(Gates.Rescale(id, raws, qs, rs, s)) && Size(Gates.Rescale(id, raws, qs, rs, s)) == |raws|
    ensures Fits(rs, s)
  {
    hide AtIndex;
    forall i | 0 <= i < |raws| ensures AtIndex(Gates.Rescale(id, raws, qs, rs, s).terms, i) % P == 0 {
      RescaleValue(id, raws, qs, rs, s, i);
      assert raws[i] == s * qs[i] + rs[i];
    }
  }

  lemma ProductGateHolds(id: NodeId, a: seq<int>, b: seq<int>)
    requires |a| == |b|
    ensures Vanishes(Gates.Hadamard(id, a, b, ModP(Times(a, b)))) && Size(Gates.Hadamard(id, a, b, ModP(Times(a, b)))) == |a|
  {
    hide AtIndex;
    var c := ModP(Times(a, b));
    forall i | 0 <= i < |a| ensures AtIndex(Gates.Hadamard(id, a, b, c).terms, i) % P == 0 {
      HadamardValue(id, a, b, c, i);
      ReducedDifference(a[i] * b[i]);
    }
  }

  lemma ReducedDifference(x: int)
    ensures (x - x % P) % P == 0
  {
    ModMod(x, P);
    DiffZero(x, x % P, P);
  }

  lemma SumGateHolds(id: NodeId, a: seq<int>, b: seq<int>, y: seq<int>)
    requires |a| == |b| == |y| && forall i :: 0 <= i < |y| ==> y[i] == a[i] + b[i]
    ensures Vanishes(Gates.Affine(id, [1, 1], [a, b], ModP(y))) && Size(Gates.Affine(id, [1, 1], [a, b], ModP(y))) == |a|
  {
    hide AtIndex;
    var g := Gates.Affine(id, [1, 1], [a, b], ModP(y));
    forall i | 0 <= i < |a| ensures AtIndex(g.terms, i) % P == 0 {
      AffineValue(id, [1, 1], [a, b], ModP(y), i);
      TwoWeighted(a, b, i);
      ReducedDifference(y[i]);
    }
    assert g.terms[0] == Term(1 % P, [a]);
  }

  lemma TwoWeighted(a: seq<int>, b: seq<int>, i: nat)
    ensures Weighted([1, 1], [a, b], i, 2) == At(a, i) + At(b, i)
  {
    assert Weighted([1, 1], [a, b], i, 1) == At(a, i);
  }
}
