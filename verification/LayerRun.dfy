/** What one run of prove_full_layer is: every part of its proof as a function of the trace, the
    enrolled weights and the log before it. */
module LayerRun {
  import opened NumberTheory
  import opened Field
  import opened Polynomial
  import opened Domain
  import opened Rows
  import opened Rs
  import opened Projection
  import opened Seam
  import opened Protocol
  import opened Prover
  import opened PowerOfTwo
  import opened Contraction
  import opened MatmulStep
  import opened Gates
  import opened Relations
  import opened Logup
  import opened DenseLayer
  import opened Chain
  import opened Semantics
  import opened Emitter
  import opened FullVerifier
  import opened Enrolling
  import opened FullMatmul
  import opened FullMoE
  import C = Commit
  import LP = LogupProver
  import T = Transcript

  /** Where coins come from, and the log they follow. */
  datatype Place = Place(oracle: T.Oracle, domain: Bytes, log: seq<T.Entry>) {
    function After(es: seq<T.Entry>): Place { Place(oracle, domain, log + es) }
  }

  // ------------------------------------------------------------------- the states

  function PadRows(rows: Matrix, width: nat): (r: Matrix)
    ensures |r| == |rows| && AllWide(r, width) && forall i :: 0 <= i < |r| ==> r[i] == PadTo(rows[i], width)
  {
    seq(|rows|, i requires 0 <= i < |rows| => PadTo(rows[i], width))
  }

  lemma WideIsRectangular(rows: Matrix, n: nat)
    requires rows != [] && AllWide(rows, n)
    ensures Rectangular(rows)
  {}

  lemma WideFits(rows: Matrix, n: nat)
    requires AllWide(rows, n)
    ensures C.AllFit(rows, n)
  {}

  /** The root of the layer's input, one slot short of a row. */
  ghost function InputRoot(h: C.Hash<Bytes>, cfg: Config, xIn: Matrix): Bytes
    requires cfg.ELL > 0 && xIn != []
  {
    var xs := PadRows(xIn, cfg.ELL - 1);
    LP.RowsRoot(h, cfg, Messages(cfg, xs, NoPadding, Blocks(cfg, cfg.ELL - 1)))
  }

  ghost function OutputRoot(h: C.Hash<Bytes>, cfg: Config, yOut: Matrix): Bytes {
    LP.RowsRoot(h, cfg, PadRows(yOut, cfg.ELL))
  }

  /** 8 * (bit_length(max(n, 1)) + 16) */
  function TapeLength(n: nat): nat { 8 * (Log2(n) + 17) }

  function TapeValues(n: nat, draws: nat -> int): (v: seq<int>)
    ensures |v| == TapeLength(n) && forall i :: 0 <= i < |v| ==> v[i] == draws(i) % P
  {
    seq(TapeLength(n), i requires 0 <= i => draws(i) % P)
  }

  /** The root of the tape, in rows of ELL. */
  ghost function MaskRoot(h: C.Hash<Bytes>, cfg: Config, values: seq<int>): Bytes
    requires cfg.ELL > 0
  {
    LP.RowsRoot(h, cfg, PadRows(LP.Chunks(values, cfg.ELL), cfg.ELL))
  }

  function StatesLog(inRoot: Bytes, outRoot: Bytes, maskRoot: Bytes): (es: seq<T.Entry>) {
    [T.Absorbed("R_in", inRoot), T.Absorbed("R_out", outRoot), T.Absorbed("R_mask", maskRoot)]
  }

  // ------------------------------------------------------------------ the lookups

  /** (x, y) as the tuple the argument compresses. */
  function Tuples(rows: seq<(int, int)>): (ts: seq<Tuple>)
    ensures |ts| == |rows| && forall i :: 0 <= i < |rows| ==> ts[i] == [rows[i].0, rows[i].1]
  {
    seq(|rows|, i requires 0 <= i < |rows| => [rows[i].0, rows[i].1])
  }

  lemma {:induction false} RowIsMember(rows: seq<(int, int)>, q: (int, int)) returns (i: nat)
    requires IsRow(rows, q)
    ensures i < |rows| && rows[i] == q
  {
    i := |rows| - 1;
    if rows[i].0 != q.0 { i := RowIsMember(rows[..i], q); }
  }

  lemma RowsAreMembers(rows: seq<(int, int)>, queries: seq<(int, int)>)
    requires AllRows(rows, queries)
    ensures AllMembers(Tuples(queries), Tuples(rows))
  {
    hide IsRow;
    var t := Tuples(rows);
    forall k | 0 <= k < |queries| ensures Tuples(queries)[k] in t {
      assert IsRow(rows, queries[k]);
      var i := RowIsMember(rows, queries[k]);
      assert t[i] == Tuples(queries)[k];
    }
  }

  function LookupLabels(k: nat): LP.Labels {
    LP.Labels("R_lk" + Dec(k), "beta" + Dec(k), "R_cmp" + Dec(k), "alpha" + Dec(k))
  }

  function ArgumentOf(l: LookupProof): LP.Argument {
    LP.Argument(l.proof, l.qVals, l.tVals, l.mult, l.alpha)
  }

  ghost predicate Searched(use: LookupUse) {
    use.table.rows != [] && AllRows(use.table.rows, use.queries)
  }

  /** The k-th lookup's argument, for this table and these queries, run at this place. */
  ghost predicate IsLookup(h: C.Hash<Bytes>, cfg: Config, use: LookupUse, k: nat, at: Place, l: LookupProof)
    requires cfg.ELL > 0 && Searched(use)
  {
    RowsAreMembers(use.table.rows, use.queries);
    && l.tableId == use.table.tableId
    && LP.IsArgument(h, cfg, l.tableId, Tuples(use.queries), Tuples(use.table.rows), LookupLabels(k), at.oracle, at.domain, at.log,
                     ArgumentOf(l))
  }

  ghost function LookupLog(h: C.Hash<Bytes>, cfg: Config, use: LookupUse, k: nat, l: LookupProof): seq<T.Entry>
    requires cfg.ELL > 0 && use.table.rows != []
  {
    LP.ArgumentLog(h, cfg, LookupLabels(k), Tuples(use.queries), Tuples(use.table.rows), ArgumentOf(l))
  }

  /** The first n uses have a table that holds their queries. */
  ghost predicate SearchedUpTo(uses: seq<LookupUse>, n: nat) {
    n <= |uses| && forall k :: 0 <= k < n ==> Searched(uses[k])
  }

  /** What the first n lookups add to the log. */
  ghost function LookupsLog(h: C.Hash<Bytes>, cfg: Config, uses: seq<LookupUse>, ls: seq<LookupProof>, n: nat): seq<T.Entry>
    requires cfg.ELL > 0 && n <= |ls| && SearchedUpTo(uses, n)
  {
    if n == 0 then [] else LookupsLog(h, cfg, uses, ls, n - 1) + LookupLog(h, cfg, uses[n - 1], n - 1, ls[n - 1])
  }

  lemma {:induction false} LookupsPrefix(h: C.Hash<Bytes>, cfg: Config, uses: seq<LookupUse>, ls: seq<LookupProof>, l: LookupProof,
                                         n: nat)
    requires cfg.ELL > 0 && n <= |ls| && SearchedUpTo(uses, n)
    ensures LookupsLog(h, cfg, uses, ls + [l], n) == LookupsLog(h, cfg, uses, ls, n)
  {
    hide LookupLog, AllRows;
    if n > 0 { LookupsPrefix(h, cfg, uses, ls, l, n - 1); }
  }

  /** The proofs of the first |ls| lookups, each at its own place. */
  ghost predicate AreLookups(h: C.Hash<Bytes>, cfg: Config, uses: seq<LookupUse>, at: Place, ls: seq<LookupProof>) {
    && cfg.ELL > 0 && SearchedUpTo(uses, |ls|)
    && forall k :: 0 <= k < |ls| ==> IsLookup(h, cfg, uses[k], k, at.After(LookupsLog(h, cfg, uses, ls, k)), ls[k])
  }

  lemma NoLookups(h: C.Hash<Bytes>, cfg: Config, uses: seq<LookupUse>, at: Place)
    requires cfg.ELL > 0
    ensures AreLookups(h, cfg, uses, at, []) && SearchedUpTo(uses, 0) && at.log + LookupsLog(h, cfg, uses, [], 0) == at.log
  {}

  lemma LookupsEach(h: C.Hash<Bytes>, cfg: Config, uses: seq<LookupUse>, at: Place, ls: seq<LookupProof>, k: nat)
    requires AreLookups(h, cfg, uses, at, ls) && k < |ls|
    ensures cfg.ELL > 0 && k < |uses| && SearchedUpTo(uses, k) && Searched(uses[k])
    ensures IsLookup(h, cfg, uses[k], k, at.After(LookupsLog(h, cfg, uses, ls, k)), ls[k])
  {
    hide IsLookup, LookupsLog, Searched;
  }

  lemma LookupsAll(h: C.Hash<Bytes>, cfg: Config, uses: seq<LookupUse>, at: Place, ls: seq<LookupProof>)
    requires cfg.ELL > 0 && SearchedUpTo(uses, |ls|)
    requires forall k :: 0 <= k < |ls| ==>
      SearchedUpTo(uses, k) && Searched(uses[k]) && IsLookup(h, cfg, uses[k], k, at.After(LookupsLog(h, cfg, uses, ls, k)), ls[k])
    ensures AreLookups(h, cfg, uses, at, ls)
  {
    hide IsLookup, LookupsLog, Searched;
  }

  lemma LookupsLogNext(h: C.Hash<Bytes>, cfg: Config, uses: seq<LookupUse>, log: seq<T.Entry>, ls: seq<LookupProof>, l: LookupProof)
    requires cfg.ELL > 0 && |ls| < |uses| && SearchedUpTo(uses, |ls|) && Searched(uses[|ls|])
    ensures SearchedUpTo(uses, |ls| + 1)
    ensures log + LookupsLog(h, cfg, uses, ls + [l], |ls| + 1)
            == log + LookupsLog(h, cfg, uses, ls, |ls|) + LookupLog(h, cfg, uses[|ls|], |ls|, l)
  {
    hide LookupLog, AllRows;
    LookupsPrefix(h, cfg, uses, ls, l, |ls|);
    Joined(log, LookupsLog(h, cfg, uses, ls, |ls|), LookupLog(h, cfg, uses[|ls|], |ls|, l));
  }

  lemma LookupsNext(h: C.Hash<Bytes>, cfg: Config, uses: seq<LookupUse>, at: Place, ls: seq<LookupProof>, l: LookupProof)
    requires AreLookups(h, cfg, uses, at, ls) && cfg.ELL > 0 && |ls| < |uses| && SearchedUpTo(uses, |ls|) && Searched(uses[|ls|])
    requires IsLookup(h, cfg, uses[|ls|], |ls|, at.After(LookupsLog(h, cfg, uses, ls, |ls|)), l)
    ensures AreLookups(h, cfg, uses, at, ls + [l])
  {
    hide *;
    forall k | 0 <= k <= |ls|
      ensures SearchedUpTo(uses, k) && Searched(uses[k])
              && IsLookup(h, cfg, uses[k], k, at.After(LookupsLog(h, cfg, uses, ls + [l], k)), (ls + [l])[k])
    {
      if k < |ls| { LookupsEach(h, cfg, uses, at, ls, k); }
      LookupsPrefix(h, cfg, uses, ls, l, k);
    }
    LookupsLogNext(h, cfg, uses, at.log, ls, l);
    LookupsAll(h, cfg, uses, at, ls + [l]);
  }

  lemma Joined(a: seq<T.Entry>, b: seq<T.Entry>, c: seq<T.Entry>)
    ensures a + (b + c) == a + b + c
  {}

  /** The compressed rows a lookup's proof carries are those of its own table, padded. */
  lemma LookupHasRows(h: C.Hash<Bytes>, cfg: Config, use: LookupUse, k: nat, at: Place, l: LookupProof)
    requires cfg.ELL > 0 && Searched(use) && IsLookup(h, cfg, use, k, at, l)
    ensures exists beta :: l.tVals == Compressed(use.table.tableId, PadTable(Tuples(use.table.rows)), beta)
    ensures LogUpVerdict(l.proof, l.qVals, l.tVals, l.mult, l.alpha) == if Misses(l.alpha, l.tVals) then Accept else Reject
  {
    hide LogUpVerdict, Misses, LookupLabels, Dec, LP.IsProofAfter, LP.StageLog, Compressed, Multiplicities;
    RowsAreMembers(use.table.rows, use.queries);
    LP.ArgumentAccepted(h, cfg, l.tableId, Tuples(use.queries), Tuples(use.table.rows), LookupLabels(k), at.oracle, at.domain,
                        at.log, ArgumentOf(l));
  }

  // ----------------------------------------------------------------- the contractions

  /** What the first n matmuls add to the log. */
  function MatmulsLog(works: seq<MatmulWork>, n: nat): seq<T.Entry>
    requires n <= |works|
  {
    if n == 0 then [] else MatmulsLog(works, n - 1) + MatmulLog(works[n - 1].proof)
  }

  lemma {:induction false} MatmulsPrefix(works: seq<MatmulWork>, w: MatmulWork, n: nat)
    requires n <= |works|
    ensures MatmulsLog(works + [w], n) == MatmulsLog(works, n)
  {
    hide MatmulLog;
    if n > 0 { MatmulsPrefix(works, w, n - 1); }
  }

  /** The work of the first |works| matmuls, each at its own place. */
  ghost predicate AreMatmuls(ms: seq<Matmul>, at: Place, works: seq<MatmulWork>, bs: seq<MatmulBehind>) {
    && |works| == |bs| <= |ms|
    && forall k :: 0 <= k < |works| ==> MatmulRun(ms[k], works[k], bs[k], at.oracle, at.domain, at.log + MatmulsLog(works, k))
  }

  lemma NoMatmuls(ms: seq<Matmul>, at: Place)
    ensures AreMatmuls(ms, at, [], []) && at.log + MatmulsLog([], 0) == at.log
  {}

  lemma MatmulsEach(ms: seq<Matmul>, at: Place, works: seq<MatmulWork>, bs: seq<MatmulBehind>, k: nat)
    requires AreMatmuls(ms, at, works, bs) && k < |works|
    ensures |works| == |bs| <= |ms| && MatmulRun(ms[k], works[k], bs[k], at.oracle, at.domain, at.log + MatmulsLog(works, k))
  {
    hide MatmulRun, MatmulsLog;
  }

  lemma MatmulsLogNext(log: seq<T.Entry>, works: seq<MatmulWork>, w: MatmulWork)
    ensures log + MatmulsLog(works + [w], |works| + 1) == log + MatmulsLog(works, |works|) + MatmulLog(w.proof)
  {
    hide MatmulLog;
    MatmulsPrefix(works, w, |works|);
    Joined(log, MatmulsLog(works, |works|), MatmulLog(w.proof));
  }

  lemma MatmulsNext(ms: seq<Matmul>, at: Place, works: seq<MatmulWork>, bs: seq<MatmulBehind>, w: MatmulWork, b: MatmulBehind)
    requires AreMatmuls(ms, at, works, bs) && |works| == |bs| < |ms|
    requires MatmulRun(ms[|works|], w, b, at.oracle, at.domain, at.log + MatmulsLog(works, |works|))
    ensures AreMatmuls(ms, at, works + [w], bs + [b])
  {
    hide *;
    forall k | 0 <= k <= |works|
      ensures MatmulRun(ms[k], (works + [w])[k], (bs + [b])[k], at.oracle, at.domain, at.log + MatmulsLog(works + [w], k))
    {
      MatmulsPrefix(works, w, k);
      if k < |works| { MatmulsEach(ms, at, works, bs, k); }
    }
    MatmulsAll(ms, at, works + [w], bs + [b]);
  }

  lemma MatmulsAll(ms: seq<Matmul>, at: Place, works: seq<MatmulWork>, bs: seq<MatmulBehind>)
    requires |works| == |bs| <= |ms|
    requires forall k :: 0 <= k < |works|
               ==> MatmulRun(ms[k], works[k], bs[k], at.oracle, at.domain, at.log + MatmulsLog(works, k))
    ensures AreMatmuls(ms, at, works, bs)
  {
    hide MatmulRun, MatmulsLog;
  }

  /** What the first n routed nodes add to the log. */
  function MoEsLog(works: seq<MoEWork>, n: nat): seq<T.Entry>
    requires n <= |works|
  {
    if n == 0 then [] else MoEsLog(works, n - 1) + MoELog(works[n - 1].proof)
  }

  lemma {:induction false} MoEsPrefix(works: seq<MoEWork>, w: MoEWork, n: nat)
    requires n <= |works|
    ensures MoEsLog(works + [w], n) == MoEsLog(works, n)
  {
    hide MoELog;
    if n > 0 { MoEsPrefix(works, w, n - 1); }
  }

  /** The work of the first |works| routed nodes, each at its own place. */
  ghost predicate AreMoEs(ms: seq<MoEMatmul>, at: Place, works: seq<MoEWork>, bs: seq<MoEBehind>) {
    && |works| == |bs| <= |ms|
    && forall k :: 0 <= k < |works| ==> MoERun(ms[k], works[k], bs[k], at.oracle, at.domain, at.log + MoEsLog(works, k))
  }

  lemma NoMoEs(ms: seq<MoEMatmul>, at: Place)
    ensures AreMoEs(ms, at, [], []) && at.log + MoEsLog([], 0) == at.log
  {}

  lemma MoEsEach(ms: seq<MoEMatmul>, at: Place, works: seq<MoEWork>, bs: seq<MoEBehind>, k: nat)
    requires AreMoEs(ms, at, works, bs) && k < |works|
    ensures |works| == |bs| <= |ms| && MoERun(ms[k], works[k], bs[k], at.oracle, at.domain, at.log + MoEsLog(works, k))
  {
    hide MoERun, MoEsLog;
  }

  lemma MoEsLogNext(log: seq<T.Entry>, works: seq<MoEWork>, w: MoEWork)
    ensures log + MoEsLog(works + [w], |works| + 1) == log + MoEsLog(works, |works|) + MoELog(w.proof)
  {
    hide MoELog;
    MoEsPrefix(works, w, |works|);
    Joined(log, MoEsLog(works, |works|), MoELog(w.proof));
  }

  lemma MoEsNext(ms: seq<MoEMatmul>, at: Place, works: seq<MoEWork>, bs: seq<MoEBehind>, w: MoEWork, b: MoEBehind)
    requires AreMoEs(ms, at, works, bs) && |works| == |bs| < |ms|
    requires MoERun(ms[|works|], w, b, at.oracle, at.domain, at.log + MoEsLog(works, |works|))
    ensures AreMoEs(ms, at, works + [w], bs + [b])
  {
    hide *;
    forall k | 0 <= k <= |works|
      ensures MoERun(ms[k], (works + [w])[k], (bs + [b])[k], at.oracle, at.domain, at.log + MoEsLog(works + [w], k))
    {
      MoEsPrefix(works, w, k);
      if k < |works| { MoEsEach(ms, at, works, bs, k); }
    }
    MoEsAll(ms, at, works + [w], bs + [b]);
  }

  lemma MoEsAll(ms: seq<MoEMatmul>, at: Place, works: seq<MoEWork>, bs: seq<MoEBehind>)
    requires |works| == |bs| <= |ms|
    requires forall k :: 0 <= k < |works|
               ==> MoERun(ms[k], works[k], bs[k], at.oracle, at.domain, at.log + MoEsLog(works, k))
    ensures AreMoEs(ms, at, works, bs)
  {
    hide MoERun, MoEsLog;
  }


  // --------------------------------------------------------------------- the layer

  /** What the prover has once every phase but the openings is done. */
  datatype Phases = Phases(inRoot: Bytes, outRoot: Bytes, maskRoot: Bytes, lookups: seq<LookupProof>, gates: Batch,
                           works: seq<MatmulWork>, routed: seq<MoEWork>)
  datatype PhasesBehind = PhasesBehind(matmuls: seq<MatmulBehind>, routed: seq<MoEBehind>)

  function AfterStates(at: Place, p: Phases): Place {
    at.After(StatesLog(p.inRoot, p.outRoot, p.maskRoot))
  }

  ghost function AfterLookups(h: C.Hash<Bytes>, cfg: Config, trace: LayerTrace, at: Place, p: Phases): Place
    requires cfg.ELL > 0 && |p.lookups| == |trace.lookups| && SearchedUpTo(trace.lookups, |p.lookups|)
  {
    AfterStates(at, p).After(LookupsLog(h, cfg, trace.lookups, p.lookups, |p.lookups|))
  }

  function AfterGates(at: Place, b: Batch): Place
    requires b.Batched?
  {
    at.After(BatchLogged("gates", |b.lambdas|, |b.z|))
  }

  function AfterMatmuls(at: Place, works: seq<MatmulWork>): Place { at.After(MatmulsLog(works, |works|)) }

  function AfterMoEs(at: Place, works: seq<MoEWork>): Place { at.After(MoEsLog(works, |works|)) }

  function TapeOf(trace: LayerTrace, masked: bool, draws: nat -> int): TapeView {
    if masked then View(TapeValues(|trace.gates|, draws), 0) else NoTape
  }

  ghost predicate AreStates(h: C.Hash<Bytes>, cfg: Config, trace: LayerTrace, draws: nat -> int, p: Phases) {
    && cfg.ELL > 0 && trace.xIn != [] && p.inRoot == InputRoot(h, cfg, trace.xIn) && p.outRoot == OutputRoot(h, cfg, trace.yOut)
    && p.maskRoot == MaskRoot(h, cfg, TapeValues(|trace.gates|, draws))
  }

  /** The gate batch of this trace, its point and weights drawn at this place. */
  ghost predicate AreGates(trace: LayerTrace, masked: bool, draws: nat -> int, oracle: RoundOracle, at: Place, b: Batch) {
    && b.Batched? && |b.z| == BatchLog(trace.gates) && |b.lambdas| == |trace.gates|
    && BatchDrawn(at.oracle, at.domain, at.log, "gates", b.z, b.lambdas)
    && IsBatchProof(b.proof, trace.gates, b.z, b.lambdas, oracle, "gates", TapeOf(trace, masked, draws))
  }

  /** Every part of the trace proved, none left out, in the program's order on one transcript. */
  ghost predicate IsRun(h: C.Hash<Bytes>, cfg: Config, trace: LayerTrace, masked: bool, draws: nat -> int, oracle: RoundOracle,
                        at: Place, p: Phases, b: PhasesBehind) {
    && AreStates(h, cfg, trace, draws, p)
    && |p.lookups| == |trace.lookups| && AreLookups(h, cfg, trace.lookups, AfterStates(at, p), p.lookups)
    && var g := AfterLookups(h, cfg, trace, at, p);
    && AreGates(trace, masked, draws, oracle, g, p.gates)
    && |p.works| == |trace.matmuls| && AreMatmuls(trace.matmuls, AfterGates(g, p.gates), p.works, b.matmuls)
    && |p.routed| == |trace.moe|
    && AreMoEs(trace.moe, AfterMatmuls(AfterGates(g, p.gates), p.works), p.routed, b.routed)
  }

  /** Where a run ends and the columns' seed is drawn. */
  ghost function RunEnd(h: C.Hash<Bytes>, cfg: Config, trace: LayerTrace, at: Place, p: Phases): Place
    requires cfg.ELL > 0 && |p.lookups| == |trace.lookups| && SearchedUpTo(trace.lookups, |p.lookups|) && p.gates.Batched?
  {
    AfterMoEs(AfterMatmuls(AfterGates(AfterLookups(h, cfg, trace, at, p), p.gates), p.works), p.routed)
  }

  lemma RunIs(h: C.Hash<Bytes>, cfg: Config, trace: LayerTrace, masked: bool, draws: nat -> int, oracle: RoundOracle,
              at: Place, p: Phases, b: PhasesBehind, l: Place, g: Place, m: Place, r: Place, e: Place)
    requires AreStates(h, cfg, trace, draws, p) && SearchedUpTo(trace.lookups, |p.lookups|)
    requires l == AfterStates(at, p) && |p.lookups| == |trace.lookups| && AreLookups(h, cfg, trace.lookups, l, p.lookups)
    requires g == l.After(LookupsLog(h, cfg, trace.lookups, p.lookups, |p.lookups|))
    requires AreGates(trace, masked, draws, oracle, g, p.gates) && m == AfterGates(g, p.gates)
    requires |p.works| == |trace.matmuls| && AreMatmuls(trace.matmuls, m, p.works, b.matmuls) && r == AfterMatmuls(m, p.works)
    requires |p.routed| == |trace.moe| && AreMoEs(trace.moe, r, p.routed, b.routed) && e == AfterMoEs(r, p.routed)
    ensures IsRun(h, cfg, trace, masked, draws, oracle, at, p, b) && e == RunEnd(h, cfg, trace, at, p)
  {
    hide AreLookups, AreGates, AreMatmuls, AreMoEs, AfterStates, AfterGates, AfterMatmuls, AfterMoEs, LookupsLog, SearchedUpTo;
    hide InputRoot, OutputRoot, MaskRoot, TapeValues;
  }
}
