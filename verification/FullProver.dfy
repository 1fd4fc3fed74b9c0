/** prove_full_layer as it runs, for every trace the arbiter accepts: no identity assertion fails, and
    verify_full_layer accepts exactly when every lookup's alpha missed its compressed table. */
module FullProver {
  import opened NumberTheory
  import opened Field
  import opened Polynomial
  import opened Domain
  import opened Rows
  import opened Rs
  import opened Commit
  import opened Projection
  import opened Seam
  import opened Protocol
  import opened Prover
  import opened Gates
  import opened Relations
  import opened Logup
  import opened DenseLayer
  import opened Chain
  import opened Semantics
  import opened Emitter
  import opened Forward
  import Lifting
  import opened Contraction
  import opened MatmulStep
  import opened MoeStep
  import PowerOfTwo
  import opened FullVerifier
  import opened Enrolling
  import opened FullMatmul
  import opened FullMoE
  import opened LayerRun
  import C = Commit
  import LP = LogupProver
  import T = Transcript

  // ---------------------------------------------------------------- which traces

  /** Every lookup has two queries and two rows, every contraction a row, the gates a domain of
      two points, and the tape three values a round. */
  ghost predicate Provable(tr: LayerTrace, masked: bool) {
    && tr.xIn != [] && tr.gates != [] && BatchLog(tr.gates) > 0
    && (masked ==> BatchLog(tr.gates) * 3 <= TapeLength(|tr.gates|))
    && (forall k :: 0 <= k < |tr.matmuls| ==> tr.matmuls[k].X != [])
    && (forall k :: 0 <= k < |tr.moe| ==> tr.moe[k].X != [])
    && forall k :: 0 <= k < |tr.lookups| ==> |tr.lookups[k].queries| > 1 && |tr.lookups[k].table.rows| > 1
  }

  /** Names and indices that a two-byte label length can hold. */
  ghost predicate ShortNames(tr: LayerTrace) {
    && |tr.lookups| < Pow2(64)
    && (forall k :: 0 <= k < |tr.matmuls| ==> |tr.matmuls[k].name| < 65000)
    && forall k :: 0 <= k < |tr.moe| ==> |tr.moe[k].name| < 65000 && |tr.moe[k].W| < Pow2(64)
  }

  // ------------------------------------------------------------------- the states

  method CommitStates(enrol: Enrollment, tr: T.Transcript, xIn: Matrix, yOut: Matrix)
    returns (inRoot: Bytes, outRoot: Bytes)
    requires enrol.Valid() && tr.Valid() && tr.schedule == null && xIn != []
    modifies tr
    ensures tr.Valid() && tr.log == old(tr.log) + [T.Absorbed("R_in", inRoot)] + [T.Absorbed("R_out", outRoot)]
    ensures enrol.cfg.ELL > 0 && inRoot == InputRoot(enrol.h, enrol.cfg, xIn) && outRoot == OutputRoot(enrol.h, enrol.cfg, yOut)
  {
    hide *;
    enrol.Parts();
    var h, cfg := enrol.h, enrol.cfg;
    var xs := PadRows(xIn, cfg.ELL - 1);
    WideIsRectangular(xs, cfg.ELL - 1);
    NoPaddingFits(cfg, xs);
    var s := Projection.Enroll(h, cfg, enrol.L, xs, NoPadding);
    EnrolledSizes(h, s.value, xs, NoPadding);
    RootFits(h, cfg, s.value.commit);
    inRoot := s.value.commit.root;
    InputRootIs(h, cfg, xIn, s.value);
    var ys := PadRows(yOut, cfg.ELL);
    WideFits(ys, cfg.ELL);
    outRoot := LP.CommitRoot(h, cfg, enrol.L, ys);
    OutputRootIs(h, cfg, yOut);
    Give(tr, "R_in", inRoot);
    Give(tr, "R_out", outRoot);
  }

  lemma InputRootIs(h: Hash<Bytes>, cfg: Config, xIn: Matrix, w: Weights<Bytes>)
    requires cfg.ELL > 0 && xIn != [] && w.cfg == cfg && Enrolled(h, w, PadRows(xIn, cfg.ELL - 1), NoPadding)
    ensures w.commit.root == InputRoot(h, cfg, xIn)
  {
    hide PadRows, Blocks, Messages, Built, Encoded, LP.RowsRoot;
    LP.BuiltRoot(h, cfg, w.commit, w.messages);
  }

  lemma OutputRootIs(h: Hash<Bytes>, cfg: Config, yOut: Matrix)
    ensures OutputRoot(h, cfg, yOut) == LP.RowsRoot(h, cfg, PadRows(yOut, cfg.ELL))
  {}

  lemma MaskRootIs(h: Hash<Bytes>, cfg: Config, values: seq<int>)
    requires cfg.ELL > 0
    ensures MaskRoot(h, cfg, values) == LP.RowsRoot(h, cfg, PadRows(LP.Chunks(values, cfg.ELL), cfg.ELL))
  {}

  /** The tape's values, committed in rows of ELL; masked proofs draw from it. */
  method CommitMask(enrol: Enrollment, tr: T.Transcript, n: nat, draws: nat -> int, masked: bool)
    returns (maskRoot: Bytes, tape: MaskTape?)
    requires enrol.Valid() && tr.Valid() && tr.schedule == null
    modifies tr
    ensures tr.Valid() && (tape != null <==> masked) && tr.log == old(tr.log) + [T.Absorbed("R_mask", maskRoot)]
    ensures tape != null ==> fresh(tape) && tape.pos == 0 && tape.values == TapeValues(n, draws)
    ensures enrol.cfg.ELL > 0 && maskRoot == MaskRoot(enrol.h, enrol.cfg, TapeValues(n, draws))
  {
    var values := TapeValues(n, draws);
    hide *;
    enrol.Parts();
    MaskRootIs(enrol.h, enrol.cfg, values);
    var rows := PadRows(LP.Chunks(values, enrol.cfg.ELL), enrol.cfg.ELL);
    WideFits(rows, enrol.cfg.ELL);
    maskRoot := LP.CommitRoot(enrol.h, enrol.cfg, enrol.L, rows);
    tape := null;
    if masked {
      tape := new MaskTape(values);
    }
    Give(tr, "R_mask", maskRoot);
  }

  // ------------------------------------------------------------------ the lookups

  /** Accepted exactly when its alpha missed. */
  ghost predicate LookupExact(l: LookupProof) {
    LogUpVerdict(l.proof, l.qVals, l.tVals, l.mult, l.alpha) == if Misses(l.alpha, l.tVals) then Accept else Reject
  }

  ghost predicate AllExact(ls: seq<LookupProof>) {
    forall k :: 0 <= k < |ls| ==> LookupExact(ls[k])
  }

  ghost predicate AlphasMiss(ls: seq<LookupProof>) {
    forall k :: 0 <= k < |ls| ==> Misses(ls[k].alpha, ls[k].tVals)
  }

  method ProveLookup(enrol: Enrollment, tr: T.Transcript, use: LookupUse, k: nat) returns (ok: bool, l: LookupProof)
    requires enrol.Valid() && tr.Valid() && tr.schedule == null && AllRows(use.table.rows, use.queries) && k < Pow2(64)
    modifies tr
    ensures tr.Valid() && (ok <==> |use.queries| > 1 && |use.table.rows| > 1)
    ensures ok ==> LookupExact(l) && enrol.cfg.ELL > 0 && Searched(use)
    ensures ok ==> IsLookup(enrol.h, enrol.cfg, use, k, old(Here(tr)), l)
    ensures ok ==> tr.log == old(tr.log) + LookupLog(enrol.h, enrol.cfg, use, k, l)
  {
    hide *;
    l := LookupProof(0, NoLogUp(), [], [], [], 0);
    if use.table.rows == [] {
      return false, l;
    }
    enrol.Parts();
    SearchedIs(use);
    LabelsFit(k);
    RowsAreMembers(use.table.rows, use.queries);
    HereIs(tr);
    ghost var at := Here(tr);
    var lu, out := LP.RunLogUp(enrol.cfg, enrol.h, enrol.L, use.table.tableId, Tuples(use.queries), Tuples(use.table.rows), tr,
                               LookupLabels(k));
    ok := out.Proved?;
    if ok {
      l := LookupProof(use.table.tableId, out.proof, lu.qVals, lu.tVals, lu.mult, lu.alpha);
      LookupIs(enrol.h, enrol.cfg, use, k, at, l);
      LookupHasRows(enrol.h, enrol.cfg, use, k, at, l);
      ExactIs(l);
    }
  }

  /** Where a transcript stands. */
  ghost function Here(tr: T.Transcript): Place
    reads tr
  {
    Place(tr.oracle, tr.domain, tr.log)
  }

  lemma HereIs(tr: T.Transcript)
    ensures Here(tr) == Place(tr.oracle, tr.domain, tr.log)
  {}

  lemma SearchedIs(use: LookupUse)
    ensures Searched(use) <==> use.table.rows != [] && AllRows(use.table.rows, use.queries)
  {}

  lemma LabelsFit(k: nat)
    requires k < Pow2(64)
    ensures LookupLabels(k).Short()
  {
    hide Pow2, Dec;
    DecShort(k, 64);
  }

  lemma LookupIs(h: Hash<Bytes>, cfg: Config, use: LookupUse, k: nat, at: Place, l: LookupProof)
    requires cfg.ELL > 0 && Searched(use) && AllMembers(Tuples(use.queries), Tuples(use.table.rows)) && Tuples(use.table.rows) != []
    requires l.tableId == use.table.tableId
    requires LP.IsArgument(h, cfg, l.tableId, Tuples(use.queries), Tuples(use.table.rows), LookupLabels(k), at.oracle, at.domain,
                           at.log, LP.Argument(l.proof, l.qVals, l.tVals, l.mult, l.alpha))
    ensures IsLookup(h, cfg, use, k, at, l)
    ensures LookupLog(h, cfg, use, k, l) == LP.ArgumentLog(h, cfg, LookupLabels(k), Tuples(use.queries), Tuples(use.table.rows),
                                                           LP.Argument(l.proof, l.qVals, l.tVals, l.mult, l.alpha))
  {
    hide LP.IsArgument, LP.ArgumentLog, LookupLabels, AllMembers, AllRows, Tuples;
  }

  function NoProof(): SumcheckProof { SumcheckProof(0, [], [], [], false, 0) }

  function NoLogUp(): LogUpProof {
    LogUpProof(0, 0, 0, 0, NoProof(), NoProof(), NoProof(), NoProof(), [], [], [], [])
  }

  lemma ExactIs(l: LookupProof)
    ensures LookupExact(l)
      <==> LogUpVerdict(l.proof, l.qVals, l.tVals, l.mult, l.alpha) == if Misses(l.alpha, l.tVals) then Accept else Reject
  {
    hide LogUpVerdict, Misses;
  }

  method ProveLookups(enrol: Enrollment, tr: T.Transcript, uses: seq<LookupUse>) returns (ok: bool, ls: seq<LookupProof>)
    requires enrol.Valid() && tr.Valid() && tr.schedule == null && |uses| < Pow2(64)
    requires forall k :: 0 <= k < |uses| ==> AllRows(uses[k].table.rows, uses[k].queries)
    modifies tr
    ensures tr.Valid() && (ok ==> AllExact(ls))
    ensures (forall k :: 0 <= k < |uses| ==> |uses[k].queries| > 1 && |uses[k].table.rows| > 1) ==> ok
    ensures ok ==> enrol.cfg.ELL > 0 && |ls| == |uses| && SearchedUpTo(uses, |ls|)
    ensures ok ==> AreLookups(enrol.h, enrol.cfg, uses, old(Here(tr)), ls)
    ensures ok ==> tr.log == old(tr.log) + LookupsLog(enrol.h, enrol.cfg, uses, ls, |ls|)
  {
    hide *;
    enrol.Parts();
    HereIs(tr);
    ghost var at := Here(tr);
    ls, ok := [], true;
    NoLookups(enrol.h, enrol.cfg, uses, at);
    NoneWrong();
    for k := 0 to |uses|
      invariant tr.Valid() && AllExact(ls) && ok && |ls| == k && SearchedUpTo(uses, k)
      invariant AreLookups(enrol.h, enrol.cfg, uses, at, ls)
      invariant tr.log == at.log + LookupsLog(enrol.h, enrol.cfg, uses, ls, k)
    {
      HereIs(tr);
      var l;
      ok, l := ProveLookup(enrol, tr, uses[k], k);
      if !ok { return; }
      assert Place(tr.oracle, tr.domain, at.log + LookupsLog(enrol.h, enrol.cfg, uses, ls, k))
          == at.After(LookupsLog(enrol.h, enrol.cfg, uses, ls, k)) by { AfterIs(at, LookupsLog(enrol.h, enrol.cfg, uses, ls, k)); }
      LookupsNext(enrol.h, enrol.cfg, uses, at, ls, l);
      LookupsLogNext(enrol.h, enrol.cfg, uses, at.log, ls, l);
      ExactSnoc(ls, l);
      ls := ls + [l];
    }
  }

  lemma AfterIs(at: Place, es: seq<T.Entry>)
    ensures at.After(es) == Place(at.oracle, at.domain, at.log + es)
  {}

  lemma NoneWrong()
    ensures AllExact([])
  {}

  lemma ExactSnoc(ls: seq<LookupProof>, l: LookupProof)
    requires AllExact(ls) && LookupExact(l)
    ensures AllExact(ls + [l])
  {
    hide LookupExact;
  }

  lemma {:induction false} LookupsAnswer(ls: seq<LookupProof>, k: nat)
    requires AllExact(ls)
    ensures LookupsVerdict(ls, k) == if forall i :: k <= i < |ls| ==> Misses(ls[i].alpha, ls[i].tVals) then Accept else Reject
    decreases |ls| - k
  {
    hide LogUpVerdict, Misses;
    if k < |ls| {
      assert LookupExact(ls[k]);
      LookupsAnswer(ls, k + 1);
    }
  }

  // --------------------------------------------------------------- the contractions

  ghost predicate AllWork(h: Hash<Bytes>, cfg: Config, ws: seq<Weights<Bytes>>, ms: seq<MatmulWork>, bs: seq<MatmulBehind>) {
    |ms| == |bs| && forall k :: 0 <= k < |ms| ==> IsMatmulWork(h, cfg, ws, ms[k], bs[k])
  }

  lemma WorkGrows(h: Hash<Bytes>, cfg: Config, ws: seq<Weights<Bytes>>, ws': seq<Weights<Bytes>>, ms: seq<MatmulWork>,
                  bs: seq<MatmulBehind>)
    requires AllWork(h, cfg, ws, ms, bs) && ws <= ws'
    ensures AllWork(h, cfg, ws', ms, bs)
  {
    hide IsMatmulWork;
    forall k | 0 <= k < |ms| ensures IsMatmulWork(h, cfg, ws', ms[k], bs[k]) {
      MoreWeights(h, cfg, ws, ws', ms[k], bs[k]);
    }
  }

  lemma WorkSnoc(h: Hash<Bytes>, cfg: Config, ws: seq<Weights<Bytes>>, ms: seq<MatmulWork>, bs: seq<MatmulBehind>,
                 m: MatmulWork, b: MatmulBehind)
    requires AllWork(h, cfg, ws, ms, bs) && IsMatmulWork(h, cfg, ws, m, b)
    ensures AllWork(h, cfg, ws, ms + [m], bs + [b])
  {
    hide IsMatmulWork;
  }

  lemma NoWork(h: Hash<Bytes>, cfg: Config, ws: seq<Weights<Bytes>>)
    ensures AllWork(h, cfg, ws, [], []) && AllRouted(h, cfg, ws, [], [])
  {}

  method ProveMatmuls(enrol: Enrollment, tr: T.Transcript, ms: seq<Matmul>, rng: Rng)
    returns (ok: bool, failed: bool, works: seq<MatmulWork>, ghost bs: seq<MatmulBehind>)
    requires enrol.Valid() && tr.Valid() && tr.schedule == null
    requires forall k :: 0 <= k < |ms| ==> MatmulReady(ms[k])
    modifies enrol, tr
    ensures enrol.Valid() && tr.Valid() && old(enrol.weights) <= enrol.weights
    ensures !failed && AllWork(enrol.h, enrol.cfg, enrol.weights, works, bs)
    ensures (forall k :: 0 <= k < |ms| ==> ms[k].X != []) ==> ok
    ensures ok ==> |works| == |ms| && AreMatmuls(ms, old(Here(tr)), works, bs)
    ensures ok ==> tr.log == old(tr.log) + MatmulsLog(works, |works|)
  {
    hide *;
    ok, failed, works, bs := true, false, [], [];
    NoWork(enrol.h, enrol.cfg, enrol.weights);
    HereIs(tr);
    ghost var at := Here(tr);
    NoMatmuls(ms, at);
    for k := 0 to |ms|
      invariant enrol.Valid() && tr.Valid() && old(enrol.weights) <= enrol.weights
      invariant ok && !failed && AllWork(enrol.h, enrol.cfg, enrol.weights, works, bs)
      invariant |works| == |bs| == k && AreMatmuls(ms, at, works, bs) && tr.log == at.log + MatmulsLog(works, k)
    {
      if ms[k].X == [] {
        ok := false;
        return;
      }
      ghost var before := enrol.weights;
      ReadyParts(ms[k]);
      var w, bad;
      ghost var b;
      w, bad, b := ProveMatmul(enrol, tr, ms[k], rng);
      WorkGrows(enrol.h, enrol.cfg, before, enrol.weights, works, bs);
      WorkSnoc(enrol.h, enrol.cfg, enrol.weights, works, bs, w, b);
      MatmulsNext(ms, at, works, bs, w, b);
      MatmulsLogNext(at.log, works, w);
      failed, works, bs := failed || bad, works + [w], bs + [b];
    }
  }

  ghost predicate MatmulReady(m: Matmul) {
    MatmulRight(m) && |m.name| < 65000
  }

  ghost predicate MoEReady(m: MoEMatmul) {
    MoERight(m) && |m.name| < 65000 && |m.W| < Pow2(64)
  }

  lemma ReadyParts(m: Matmul)
    ensures MatmulReady(m) <==> MatmulRight(m) && |m.name| < 65000
  {
    hide MatmulRight;
  }

  lemma ReadyMoEParts(m: MoEMatmul)
    ensures MoEReady(m) <==> MoERight(m) && |m.name| < 65000 && |m.W| < Pow2(64)
  {
    hide MoERight, Pow2;
  }

  ghost predicate AllRouted(h: Hash<Bytes>, cfg: Config, ws: seq<Weights<Bytes>>, ms: seq<MoEWork>, bs: seq<MoEBehind>) {
    |ms| == |bs| && forall k :: 0 <= k < |ms| ==> IsMoEWork(h, cfg, ws, ms[k], bs[k])
  }

  lemma RoutedGrows(h: Hash<Bytes>, cfg: Config, ws: seq<Weights<Bytes>>, ws': seq<Weights<Bytes>>, ms: seq<MoEWork>,
                    bs: seq<MoEBehind>)
    requires AllRouted(h, cfg, ws, ms, bs) && ws <= ws'
    ensures AllRouted(h, cfg, ws', ms, bs)
  {
    hide IsMoEWork;
    forall k | 0 <= k < |ms| ensures IsMoEWork(h, cfg, ws', ms[k], bs[k]) {
      MoELater(h, cfg, ws, ws', ms[k], bs[k]);
    }
  }

  lemma RoutedSnoc(h: Hash<Bytes>, cfg: Config, ws: seq<Weights<Bytes>>, ms: seq<MoEWork>, bs: seq<MoEBehind>,
                   m: MoEWork, b: MoEBehind)
    requires AllRouted(h, cfg, ws, ms, bs) && IsMoEWork(h, cfg, ws, m, b)
    ensures AllRouted(h, cfg, ws, ms + [m], bs + [b])
  {
    hide IsMoEWork;
  }

  method ProveRouted(enrol: Enrollment, tr: T.Transcript, ms: seq<MoEMatmul>, rng: Rng)
    returns (ok: bool, failed: bool, works: seq<MoEWork>, ghost bs: seq<MoEBehind>)
    requires enrol.Valid() && tr.Valid() && tr.schedule == null
    requires forall k :: 0 <= k < |ms| ==> MoEReady(ms[k])
    modifies enrol, tr
    ensures enrol.Valid() && tr.Valid() && old(enrol.weights) <= enrol.weights
    ensures !failed && AllRouted(enrol.h, enrol.cfg, enrol.weights, works, bs)
    ensures (forall k :: 0 <= k < |ms| ==> ms[k].X != []) ==> ok
    ensures ok ==> |works| == |ms| && AreMoEs(ms, old(Here(tr)), works, bs)
    ensures ok ==> tr.log == old(tr.log) + MoEsLog(works, |works|)
  {
    hide *;
    ok, failed, works, bs := true, false, [], [];
    NoWork(enrol.h, enrol.cfg, enrol.weights);
    HereIs(tr);
    ghost var at := Here(tr);
    NoMoEs(ms, at);
    for k := 0 to |ms|
      invariant enrol.Valid() && tr.Valid() && old(enrol.weights) <= enrol.weights
      invariant ok && !failed && AllRouted(enrol.h, enrol.cfg, enrol.weights, works, bs)
      invariant |works| == |bs| == k && AreMoEs(ms, at, works, bs) && tr.log == at.log + MoEsLog(works, k)
    {
      if ms[k].X == [] {
        ok := false;
        return;
      }
      ghost var before := enrol.weights;
      ReadyMoEParts(ms[k]);
      var w, bad;
      ghost var b;
      w, bad, b := ProveMoE(enrol, tr, ms[k], rng);
      RoutedGrows(enrol.h, enrol.cfg, before, enrol.weights, works, bs);
      RoutedSnoc(enrol.h, enrol.cfg, enrol.weights, works, bs, w, b);
      MoEsNext(ms, at, works, bs, w, b);
      MoEsLogNext(at.log, works, w);
      failed, works, bs := failed || bad, works + [w], bs + [b];
    }
  }

  // ------------------------------------------------------------------ the openings

  ghost predicate AllOpened(h: Hash<Bytes>, cfg: Config, ms: seq<MatmulWork>, columns: seq<int>, ps: seq<MatmulProof>) {
    |ps| == |ms| && forall k :: 0 <= k < |ms| ==> IsOpenedMatmul(h, cfg, ms[k], columns, ps[k])
  }

  method OpenMatmuls(h: Hash<Bytes>, cfg: Config, ghost ws: seq<Weights<Bytes>>, ms: seq<MatmulWork>, columns: seq<int>,
                     ghost bs: seq<MatmulBehind>) returns (ps: seq<MatmulProof>)
    requires AllWork(h, cfg, ws, ms, bs) && InRange(cfg, columns)
    ensures AllOpened(h, cfg, ms, columns, ps)
  {
    hide IsMatmulWork, IsOpenedMatmul, InRange;
    ps := [];
    for k := 0 to |ms|
      invariant |ps| == k && forall i :: 0 <= i < k ==> IsOpenedMatmul(h, cfg, ms[i], columns, ps[i])
    {
      var p := OpenMatmul(h, cfg, ws, ms[k], columns, bs[k]);
      ps := ps + [p];
    }
  }

  ghost predicate AllRoutedOpened(h: Hash<Bytes>, cfg: Config, ms: seq<MoEWork>, columns: seq<int>, ps: seq<MoEProof>) {
    |ps| == |ms| && forall k :: 0 <= k < |ms| ==> IsOpenedMoE(h, cfg, ms[k], columns, ps[k])
  }

  method OpenRouted(h: Hash<Bytes>, cfg: Config, ghost ws: seq<Weights<Bytes>>, ms: seq<MoEWork>, columns: seq<int>,
                    ghost bs: seq<MoEBehind>) returns (ps: seq<MoEProof>)
    requires AllRouted(h, cfg, ws, ms, bs) && InRange(cfg, columns)
    ensures AllRoutedOpened(h, cfg, ms, columns, ps)
  {
    hide IsMoEWork, IsOpenedMoE, InRange;
    ps := [];
    for k := 0 to |ms|
      invariant |ps| == k && forall i :: 0 <= i < k ==> IsOpenedMoE(h, cfg, ms[i], columns, ps[i])
    {
      var p := OpenMoE(h, cfg, ws, ms[k], columns, bs[k]);
      ps := ps + [p];
    }
  }

  lemma {:induction false} MatmulsAccepted(h: Hash<Bytes>, cfg: Config, ws: seq<Weights<Bytes>>, roots: seq<Bytes>,
                                           ms: seq<MatmulWork>, bs: seq<MatmulBehind>, columns: seq<int>, ps: seq<MatmulProof>, k: nat)
    requires AllWork(h, cfg, ws, ms, bs) && RootsOf(roots, ws) && columns != [] && AllOpened(h, cfg, ms, columns, ps)
    ensures MatmulsVerdict(h, cfg, roots, ps, k) == Accept
    decreases |ms| - k
  {
    hide MatmulVerdict, IsMatmulWork, IsOpenedMatmul, RootsOf;
    if k < |ms| {
      MatmulAccepted(h, cfg, ws, roots, ms[k], bs[k], columns, ps[k]);
      MatmulsAccepted(h, cfg, ws, roots, ms, bs, columns, ps, k + 1);
    }
  }

  lemma {:induction false} AllMoEAccepted(h: Hash<Bytes>, cfg: Config, ws: seq<Weights<Bytes>>, roots: seq<Bytes>, ms: seq<MoEWork>,
                                          bs: seq<MoEBehind>, columns: seq<int>, ps: seq<MoEProof>, k: nat)
    requires AllRouted(h, cfg, ws, ms, bs) && RootsOf(roots, ws) && columns != [] && AllRoutedOpened(h, cfg, ms, columns, ps)
    ensures MoEsVerdict(h, cfg, roots, ps, k) == Accept
    decreases |ms| - k
  {
    hide MoEVerdict, IsMoEWork, IsOpenedMoE, RootsOf;
    if k < |ms| {
      MoEAccepted(h, cfg, ws, roots, ms[k], bs[k], columns, ps[k]);
      AllMoEAccepted(h, cfg, ws, roots, ms, bs, columns, ps, k + 1);
    }
  }

  // --------------------------------------------------------------------- the layer

  datatype FullResult = GaveUp | IdentityFailed | ProvedLayer(proof: FullLayerProof)

  /** Gates in their zoo fit the domain of their batch. */
  lemma VanishingFit(gates: seq<Gate>)
    requires AllVanish(gates)
    ensures AllInZoo(gates, Pow2(BatchLog(gates)))
  {
    hide BatchLog, Pow2, MaxSize;
    forall k | 0 <= k < |gates| ensures InZoo(gates[k]) && Size(gates[k]) <= Pow2(BatchLog(gates)) {
      assert Vanishes(gates[k]);
      GateFits(gates, k);
    }
  }

  lemma GateFits(gates: seq<Gate>, k: nat)
    requires k < |gates| && InZoo(gates[k])
    ensures Size(gates[k]) <= Pow2(BatchLog(gates))
  {
    MaxSizeBounds(gates, k);
    PowerOfTwo.CeilLogExact(MaxSize(gates));
  }

  /** The gate batch: accepted by the verifier whenever it is proved, masked or not. */
  method ProveGates(tr: T.Transcript, gates: seq<Gate>, tape: MaskTape?, oracle: RoundOracle) returns (b: Batch)
    requires tr.Valid() && tr.schedule == null && AllVanish(gates) && (tape != null ==> tape.pos == 0)
    modifies tr, tape
    ensures tr.Valid()
    ensures b.Batched? ==> BatchVerdict(b.proof, gates, b.z, b.lambdas, 0, oracle, "gates") == Accept
    ensures gates != [] && BatchLog(gates) > 0 && (tape != null ==> BatchLog(gates) * 3 <= |old(tape.values)|) ==> b.Batched?
    ensures b.Batched? ==> |b.z| == BatchLog(gates) && |b.lambdas| == |gates|
    ensures b.Batched? ==> IsBatchProof(b.proof, gates, b.z, b.lambdas, oracle, "gates", old(ViewOf(tape)))
    ensures b.Batched? ==> BatchDrawn(tr.oracle, tr.domain, old(tr.log), "gates", b.z, b.lambdas)
    ensures b.Batched? ==> tr.log == old(tr.log) + BatchLogged("gates", |b.lambdas|, |b.z|)
  {
    hide *;
    VanishingFit(gates);
    ghost var view := ViewOf(tape);
    b := ProveBatch(gates, tr, "gates", tape, oracle);
    if b.Batched? {
      VanishEach(gates);
      HonestBatchAccepted(b.proof, gates, b.z, b.lambdas, oracle, "gates", view);
    }
  }

  lemma VanishEach(gates: seq<Gate>)
    requires AllVanish(gates)
    ensures forall k :: 0 <= k < |gates| ==> Vanishes(gates[k])
  {}

  lemma TraceParts(tr: LayerTrace)
    requires Holds(tr) && ShortNames(tr)
    ensures AllVanish(tr.gates) && |tr.lookups| < Pow2(64)
    ensures forall k :: 0 <= k < |tr.lookups| ==> AllRows(tr.lookups[k].table.rows, tr.lookups[k].queries)
    ensures forall k :: 0 <= k < |tr.matmuls| ==> MatmulReady(tr.matmuls[k])
    ensures forall k :: 0 <= k < |tr.moe| ==> MoEReady(tr.moe[k])
  {
    hide AllVanish, AllRows, MatmulRight, MoERight, Pow2;
  }

  lemma ProvableIs(tr: LayerTrace, masked: bool)
    ensures Provable(tr, masked) <==>
      (&& tr.xIn != [] && tr.gates != [] && BatchLog(tr.gates) > 0
       && (masked ==> BatchLog(tr.gates) * 3 <= TapeLength(|tr.gates|))
       && (forall k :: 0 <= k < |tr.matmuls| ==> tr.matmuls[k].X != [])
       && (forall k :: 0 <= k < |tr.moe| ==> tr.moe[k].X != [])
       && forall k :: 0 <= k < |tr.lookups| ==> |tr.lookups[k].queries| > 1 && |tr.lookups[k].table.rows| > 1)
  {
    hide BatchLog, TapeLength;
  }

  /** Accepted so far, and honest where an opening is still to come. */
  ghost predicate ArePhases(h: Hash<Bytes>, cfg: Config, ws: seq<Weights<Bytes>>, gates: seq<Gate>, oracle: RoundOracle,
                            p: Phases, b: PhasesBehind) {
    && AllExact(p.lookups) && p.gates.Batched?
    && BatchVerdict(p.gates.proof, gates, p.gates.z, p.gates.lambdas, 0, oracle, "gates") == Accept
    && AllWork(h, cfg, ws, p.works, b.matmuls) && AllRouted(h, cfg, ws, p.routed, b.routed)
  }

  lemma PhasesAre(h: Hash<Bytes>, cfg: Config, ws: seq<Weights<Bytes>>, gates: seq<Gate>, oracle: RoundOracle,
                  p: Phases, b: PhasesBehind)
    ensures ArePhases(h, cfg, ws, gates, oracle, p, b) <==>
      (&& AllExact(p.lookups) && p.gates.Batched?
       && BatchVerdict(p.gates.proof, gates, p.gates.z, p.gates.lambdas, 0, oracle, "gates") == Accept
       && AllWork(h, cfg, ws, p.works, b.matmuls) && AllRouted(h, cfg, ws, p.routed, b.routed))
  {
    hide AllExact, BatchVerdict, AllWork, AllRouted;
  }

  lemma ViewIs(tape: MaskTape?, trace: LayerTrace, masked: bool, draws: nat -> int)
    requires (tape != null <==> masked) && (tape != null ==> tape.pos == 0 && tape.values == TapeValues(|trace.gates|, draws))
    ensures ViewOf(tape) == TapeOf(trace, masked, draws)
    ensures tape != null ==> |tape.values| == TapeLength(|trace.gates|)
  {
    hide TapeValues;
  }

  lemma StatesAre(h: Hash<Bytes>, cfg: Config, trace: LayerTrace, draws: nat -> int, p: Phases)
    requires cfg.ELL > 0 && trace.xIn != [] && p.inRoot == InputRoot(h, cfg, trace.xIn) && p.outRoot == OutputRoot(h, cfg, trace.yOut)
    requires p.maskRoot == MaskRoot(h, cfg, TapeValues(|trace.gates|, draws))
    ensures AreStates(h, cfg, trace, draws, p)
  {
    hide InputRoot, OutputRoot, MaskRoot, TapeValues;
  }

  lemma StatesPlace(at: Place, p: Phases)
    ensures AfterStates(at, p) == Place(at.oracle, at.domain, at.log + [T.Absorbed("R_in", p.inRoot)] + [T.Absorbed("R_out", p.outRoot)]
                                                             + [T.Absorbed("R_mask", p.maskRoot)])
  {
    assert StatesLog(p.inRoot, p.outRoot, p.maskRoot)
        == [T.Absorbed("R_in", p.inRoot)] + [T.Absorbed("R_out", p.outRoot)] + [T.Absorbed("R_mask", p.maskRoot)];
  }

  lemma GatesAre(trace: LayerTrace, masked: bool, draws: nat -> int, oracle: RoundOracle, at: Place, b: Batch)
    requires b.Batched? && |b.z| == BatchLog(trace.gates) && |b.lambdas| == |trace.gates|
    requires BatchDrawn(at.oracle, at.domain, at.log, "gates", b.z, b.lambdas)
    requires IsBatchProof(b.proof, trace.gates, b.z, b.lambdas, oracle, "gates", TapeOf(trace, masked, draws))
    ensures AreGates(trace, masked, draws, oracle, at, b)
    ensures AfterGates(at, b) == at.After(BatchLogged("gates", |b.lambdas|, |b.z|))
  {
    hide BatchDrawn, IsBatchProof, TapeOf, BatchLog;
  }

  lemma ContractionPlaces(at: Place, works: seq<MatmulWork>, routed: seq<MoEWork>)
    ensures AfterMatmuls(at, works) == Place(at.oracle, at.domain, at.log + MatmulsLog(works, |works|))
    ensures AfterMoEs(at, routed) == Place(at.oracle, at.domain, at.log + MoEsLog(routed, |routed|))
  {
    hide MatmulsLog, MoEsLog;
  }

  /** One run's phases and what is behind them. */
  datatype Run = Run(phases: Phases, behind: PhasesBehind)

  /** A run over the whole trace, from one place to another. */
  ghost predicate RunsTo(h: Hash<Bytes>, cfg: Config, trace: LayerTrace, masked: bool, draws: nat -> int, oracle: RoundOracle,
                         at: Place, run: Run, end: Place) {
    && IsRun(h, cfg, trace, masked, draws, oracle, at, run.phases, run.behind)
    && cfg.ELL > 0 && |run.phases.lookups| == |trace.lookups| && SearchedUpTo(trace.lookups, |run.phases.lookups|)
    && run.phases.gates.Batched? && end == RunEnd(h, cfg, trace, at, run.phases)
  }

  lemma RunsToIs(h: Hash<Bytes>, cfg: Config, trace: LayerTrace, masked: bool, draws: nat -> int, oracle: RoundOracle,
                 at: Place, run: Run, end: Place)
    requires IsRun(h, cfg, trace, masked, draws, oracle, at, run.phases, run.behind)
    requires cfg.ELL > 0 && |run.phases.lookups| == |trace.lookups| && SearchedUpTo(trace.lookups, |run.phases.lookups|)
    requires run.phases.gates.Batched? && end == RunEnd(h, cfg, trace, at, run.phases)
    ensures RunsTo(h, cfg, trace, masked, draws, oracle, at, run, end)
  {
    hide IsRun, SearchedUpTo, RunEnd;
  }

  /** States, mask, lookups, gates, matmuls, routed nodes, in that order: a run over the whole trace. */
  method ProvePhases(trace: LayerTrace, enrol: Enrollment, tr: T.Transcript, masked: bool, rng: Rng, draws: nat -> int,
                     oracle: RoundOracle) returns (ok: bool, failed: bool, p: Phases, ghost b: PhasesBehind)
    requires enrol.Valid() && tr.Valid() && tr.schedule == null && Holds(trace) && ShortNames(trace)
    modifies enrol, tr
    ensures enrol.Valid() && tr.Valid() && !failed && (Provable(trace, masked) ==> ok)
    ensures old(enrol.weights) <= enrol.weights
    ensures ok ==> ArePhases(enrol.h, enrol.cfg, enrol.weights, trace.gates, oracle, p, b)
    ensures ok ==> RunsTo(enrol.h, enrol.cfg, trace, masked, draws, oracle, old(Here(tr)), Run(p, b), Here(tr))
  {
    hide *;
    TraceParts(trace);
    ProvableIs(trace, masked);
    HereIs(tr);
    ghost var at := Here(tr);
    p, b, ok, failed := Phases([], [], [], [], NoBatch, [], []), PhasesBehind([], []), false, false;
    if trace.xIn == [] { return; }
    var inRoot, outRoot := CommitStates(enrol, tr, trace.xIn, trace.yOut);
    var maskRoot, tape := CommitMask(enrol, tr, |trace.gates|, draws, masked);
    ViewIs(tape, trace, masked, draws);
    HereIs(tr);
    ghost var atLookups := Here(tr);
    var lookups;
    ok, lookups := ProveLookups(enrol, tr, trace.lookups);
    if !ok { return; }
    HereIs(tr);
    ghost var atGates := Here(tr);
    AfterIs(atLookups, LookupsLog(enrol.h, enrol.cfg, trace.lookups, lookups, |lookups|));
    var gates := ProveGates(tr, trace.gates, tape, oracle);
    ok := gates.Batched?;
    if !ok { return; }
    GatesAre(trace, masked, draws, oracle, atGates, gates);
    AfterIs(atGates, BatchLogged("gates", |gates.lambdas|, |gates.z|));
    HereIs(tr);
    ghost var atMatmuls := Here(tr);
    var works, routed, bad;
    ghost var mb, rb;
    ok, bad, works, mb := ProveMatmuls(enrol, tr, trace.matmuls, rng);
    if !ok { return; }
    HereIs(tr);
    ghost var before, atRouted := enrol.weights, Here(tr);
    failed := bad;
    ok, bad, routed, rb := ProveRouted(enrol, tr, trace.moe, rng);
    if !ok { return; }
    HereIs(tr);
    WorkGrows(enrol.h, enrol.cfg, before, enrol.weights, works, mb);
    failed := failed || bad;
    p, b := Phases(inRoot, outRoot, maskRoot, lookups, gates, works, routed), PhasesBehind(mb, rb);
    PhasesAre(enrol.h, enrol.cfg, enrol.weights, trace.gates, oracle, p, b);
    StatesAre(enrol.h, enrol.cfg, trace, draws, p);
    StatesPlace(at, p);
    ContractionPlaces(atMatmuls, works, routed);
    ContractionPlaces(atRouted, works, routed);
    RunIs(enrol.h, enrol.cfg, trace, masked, draws, oracle, at, p, b, atLookups, atGates, atMatmuls, atRouted, Here(tr));
    RunsToIs(enrol.h, enrol.cfg, trace, masked, draws, oracle, at, Run(p, b), Here(tr));
  }

  /** The roots, the columns, the openings. */
  method OpenPhases(enrol: Enrollment, ghost gates: seq<Gate>, ghost oracle: RoundOracle, p: Phases, columns: seq<int>,
                    ghost b: PhasesBehind) returns (proof: FullLayerProof)
    requires enrol.Valid() && InRange(enrol.cfg, columns) && p.gates.Batched?
    requires ArePhases(enrol.h, enrol.cfg, enrol.weights, gates, oracle, p, b)
    ensures proof.lookups == p.lookups && proof.columns == columns
    ensures IsOpenedLayer(enrol.h, enrol.cfg, enrol.weights, p, proof)
    ensures columns != [] ==>
      FullVerdict(enrol.h, enrol.cfg, proof, gates, oracle) == if AlphasMiss(proof.lookups) then Accept else Reject
  {
    hide *;
    var h, cfg := enrol.h, enrol.cfg;
    PhasesAre(h, cfg, enrol.weights, gates, oracle, p, b);
    var routed := OpenRouted(h, cfg, enrol.weights, p.routed, columns, b.routed);
    var matmuls := OpenMatmuls(h, cfg, enrol.weights, p.works, columns, b.matmuls);
    var roots := AllRoots(enrol.weights);
    proof := FullLayerProof(p.inRoot, p.outRoot, p.maskRoot, matmuls, routed, p.gates.proof, p.gates.z, p.gates.lambdas,
                            p.lookups, columns, roots);
    OpenedLayerIs(h, cfg, enrol.weights, p, proof);
    if columns != [] {
      MatmulsAccepted(h, cfg, enrol.weights, roots, p.works, b.matmuls, columns, matmuls, 0);
      AllMoEAccepted(h, cfg, enrol.weights, roots, p.routed, b.routed, columns, routed, 0);
      LookupsAnswer(p.lookups, 0);
      AlphasAre(p.lookups);
      FullVerdictIs(h, cfg, proof, gates, oracle);
    }
  }

  /** The proof of these phases: their parts as they are, the contractions opened at its columns, and
      the roots of all enrolled weights. */
  ghost predicate IsOpenedLayer(h: Hash<Bytes>, cfg: Config, ws: seq<Weights<Bytes>>, p: Phases, proof: FullLayerProof) {
    && p.gates.Batched?
    && proof == FullLayerProof(p.inRoot, p.outRoot, p.maskRoot, proof.matmuls, proof.moe, p.gates.proof, p.gates.z, p.gates.lambdas,
                               p.lookups, proof.columns, AllRoots(ws))
    && AllOpened(h, cfg, p.works, proof.columns, proof.matmuls) && AllRoutedOpened(h, cfg, p.routed, proof.columns, proof.moe)
  }

  lemma OpenedLayerIs(h: Hash<Bytes>, cfg: Config, ws: seq<Weights<Bytes>>, p: Phases, proof: FullLayerProof)
    requires p.gates.Batched?
    requires proof == FullLayerProof(p.inRoot, p.outRoot, p.maskRoot, proof.matmuls, proof.moe, p.gates.proof, p.gates.z, p.gates.lambdas,
                                     p.lookups, proof.columns, AllRoots(ws))
    requires AllOpened(h, cfg, p.works, proof.columns, proof.matmuls) && AllRoutedOpened(h, cfg, p.routed, proof.columns, proof.moe)
    ensures IsOpenedLayer(h, cfg, ws, p, proof)
  {
    hide AllOpened, AllRoutedOpened, AllRoots;
  }

  /** The first q different columns of the seed drawn here. */
  ghost predicate SeededHere(src: ColumnSource, q: nat, cfg: Config, at: Place, columns: seq<int>) {
    && |columns| == q && cfg.N() > 0
    && columns <= ColumnsSeen(src, at.oracle.seed(at.oracle.digest(T.FedBy(at.domain, at.log)), "columns"), cfg.N())
  }

  lemma SeededIs(src: ColumnSource, q: nat, cfg: Config, at: Place, columns: seq<int>, seed: Bytes)
    requires |columns| == q && cfg.N() > 0 && columns <= ColumnsSeen(src, seed, cfg.N())
    requires seed == at.oracle.seed(at.oracle.digest(T.FedBy(at.domain, at.log)), "columns")
    ensures SeededHere(src, q, cfg, at, columns)
  {
    hide ColumnsSeen, T.FedBy;
  }

  /** The proof of this trace and no other: the run over all of it from this place, its contractions
      honest against the enrolled weights and opened at the columns its log decides. */
  ghost predicate IsFullProof(h: Hash<Bytes>, cfg: Config, ws: seq<Weights<Bytes>>, trace: LayerTrace, masked: bool, draws: nat -> int,
                              oracle: RoundOracle, at: Place, q: nat, src: ColumnSource, run: Run, proof: FullLayerProof) {
    exists end ::
      && RunsTo(h, cfg, trace, masked, draws, oracle, at, run, end)
      && ArePhases(h, cfg, ws, trace.gates, oracle, run.phases, run.behind)
      && IsOpenedLayer(h, cfg, ws, run.phases, proof) && SeededHere(src, q, cfg, end, proof.columns)
  }

  lemma FullProofIs(h: Hash<Bytes>, cfg: Config, ws: seq<Weights<Bytes>>, trace: LayerTrace, masked: bool, draws: nat -> int,
                    oracle: RoundOracle, at: Place, q: nat, src: ColumnSource, run: Run, proof: FullLayerProof, end: Place)
    requires RunsTo(h, cfg, trace, masked, draws, oracle, at, run, end)
    requires ArePhases(h, cfg, ws, trace.gates, oracle, run.phases, run.behind)
    requires IsOpenedLayer(h, cfg, ws, run.phases, proof) && SeededHere(src, q, cfg, end, proof.columns)
    ensures IsFullProof(h, cfg, ws, trace, masked, draws, oracle, at, q, src, run, proof)
  {
    hide RunsTo, ArePhases, IsOpenedLayer, SeededHere;
  }

  /** What a caller of the prover holds: nothing, or the proof of the trace given, which covers it. */
  ghost predicate ProvesTrace(enrol: Enrollment, trace: LayerTrace, masked: bool, draws: nat -> int, oracle: RoundOracle, at: Place,
                              q: nat, src: ColumnSource, run: Run, r: FullResult)
    reads enrol
  {
    r.ProvedLayer? ==>
      && IsFullProof(enrol.h, enrol.cfg, enrol.weights, trace, masked, draws, oracle, at, q, src, run, r.proof)
      && Covers(enrol.h, enrol.weights, trace, r.proof)
  }

  lemma ProvesTraceIs(enrol: Enrollment, trace: LayerTrace, masked: bool, draws: nat -> int, oracle: RoundOracle, at: Place,
                      q: nat, src: ColumnSource, run: Run, r: FullResult)
    ensures ProvesTrace(enrol, trace, masked, draws, oracle, at, q, src, run, r) <==>
      (r.ProvedLayer? ==>
         && IsFullProof(enrol.h, enrol.cfg, enrol.weights, trace, masked, draws, oracle, at, q, src, run, r.proof)
         && Covers(enrol.h, enrol.weights, trace, r.proof))
  {
    hide IsFullProof, Covers;
  }

  function AllRoots(ws: seq<Weights<Bytes>>): (roots: seq<Bytes>)
    ensures RootsOf(roots, ws)
  {
    seq(|ws|, k requires 0 <= k < |ws| => ws[k].commit.root)
  }

  lemma AlphasAre(ls: seq<LookupProof>)
    ensures AlphasMiss(ls) <==> forall i :: 0 <= i < |ls| ==> Misses(ls[i].alpha, ls[i].tVals)
  {
    hide Misses;
  }

  lemma FullVerdictIs(h: Hash<Bytes>, cfg: Config, proof: FullLayerProof, gates: seq<Gate>, oracle: RoundOracle)
    requires MatmulsVerdict(h, cfg, proof.weightRoots, proof.matmuls, 0) == Accept
    requires MoEsVerdict(h, cfg, proof.weightRoots, proof.moe, 0) == Accept
    requires BatchVerdict(proof.gateProof, gates, proof.gateZ, proof.gateLambdas, 0, oracle, "gates") == Accept
    ensures FullVerdict(h, cfg, proof, gates, oracle) == LookupsVerdict(proof.lookups, 0)
  {
    hide MatmulsVerdict, MoEsVerdict, BatchVerdict, LookupsVerdict;
  }

  /** The whole prover on any trace the arbiter accepts: it never hits an identity assertion, what it
      returns is the proof of that trace, and the verifier accepts it exactly when every alpha missed. */
  method ProveFullLayer(trace: LayerTrace, enrol: Enrollment, tr: T.Transcript, masked: bool, rng: Rng, draws: nat -> int,
                        oracle: RoundOracle, q: nat, src: ColumnSource) returns (r: FullResult, ghost run: Run)
    requires enrol.Valid() && tr.Valid() && tr.schedule == null && Holds(trace) && ShortNames(trace)
    requires Yields(src, q, enrol.cfg.N())
    modifies enrol, tr
    ensures enrol.Valid() && tr.Valid() && old(enrol.weights) <= enrol.weights
    ensures r != IdentityFailed && (Provable(trace, masked) ==> r.ProvedLayer?)
    ensures ProvesTrace(enrol, trace, masked, draws, oracle, old(Here(tr)), q, src, run, r)
    ensures r.ProvedLayer? && q > 0 ==>
      FullVerdict(enrol.h, enrol.cfg, r.proof, trace.gates, oracle) == if AlphasMiss(r.proof.lookups) then Accept else Reject
  {
    hide *;
    var ok, failed, p;
    ghost var b, at;
    at := Here(tr);
    ok, failed, p, b := ProvePhases(trace, enrol, tr, masked, rng, draws, oracle);
    run := Run(p, b);
    r := if failed then IdentityFailed else GaveUp;
    ProvesTraceIs(enrol, trace, masked, draws, oracle, at, q, src, run, r);
    if failed || !ok { return; }
    ghost var here := Here(tr);
    HereIs(tr);
    LP.AllowsAll(tr);
    var seed := tr.CoinBytes("columns");
    var columns := Columns(src, seed.seed, q, enrol.cfg);
    YieldsAt(src, q, enrol.cfg.N(), seed.seed);
    SeededIs(src, q, enrol.cfg, here, columns, seed.seed);
    PhasesAre(enrol.h, enrol.cfg, enrol.weights, trace.gates, oracle, p, b);
    var proof := OpenPhases(enrol, trace.gates, oracle, p, columns, b);
    r := ProvedLayer(proof);
    ProvesTraceIs(enrol, trace, masked, draws, oracle, at, q, src, run, r);
    FullProofIs(enrol.h, enrol.cfg, enrol.weights, trace, masked, draws, oracle, at, q, src, run, proof, here);
    ProofCovers(enrol.h, enrol.cfg, enrol.weights, trace, masked, draws, oracle, at, q, src, run, proof);
  }

  /** The place a fresh transcript starts from. */
  function Start(digests: T.Oracle, domain: Bytes): Place { Place(digests, domain, []) }

  /** Proved on a fresh transcript, then verified. */
  method ProveThenVerifyFull(trace: LayerTrace, enrol: Enrollment, digests: T.Oracle, domain: Bytes, masked: bool, rng: Rng,
                             draws: nat -> int, oracle: RoundOracle, q: nat, src: ColumnSource)
    returns (r: FullResult, v: Verdict, ghost run: Run)
    requires enrol.Valid() && Holds(trace) && ShortNames(trace) && Provable(trace, masked) && q > 0
    requires Yields(src, q, enrol.cfg.N())
    modifies enrol
    ensures enrol.Valid() && r.ProvedLayer?
    ensures ProvesTrace(enrol, trace, masked, draws, oracle, Start(digests, domain), q, src, run, r)
    ensures v == if AlphasMiss(r.proof.lookups) then Accept else Reject
  {
    hide *;
    var tr := new T.Transcript(digests, domain, null);
    StartIs(tr, digests, domain);
    r, run := ProveFullLayer(trace, enrol, tr, masked, rng, draws, oracle, q, src);
    enrol.Parts();
    v := VerifyFullLayer(enrol.h, enrol.cfg, enrol.L, r.proof, trace.gates, oracle);
  }

  lemma StartIs(tr: T.Transcript, digests: T.Oracle, domain: Bytes)
    requires tr.oracle == digests && tr.domain == domain && tr.log == []
    ensures Here(tr) == Start(digests, domain)
  {}

  // ------------------------------------------------------------ what a proof speaks of

  /** The proof of one matmul: against its own weights' root, claiming its own weighted output. */
  ghost predicate ShowsMatmul(h: Hash<Bytes>, ws: seq<Weights<Bytes>>, roots: seq<Bytes>, m: Matmul, p: MatmulProof) {
    && p.name == m.name && p.wId < |ws| && p.wId < |roots| && roots[p.wId] == ws[p.wId].commit.root
    && (exists padding :: Enrolled(h, ws[p.wId], m.W, padding))
    && p.sumcheck.claim == Doubled(m.X, p.tau, m.W, p.rho, p.nIn) % P
  }

  lemma MatmulShown(h: Hash<Bytes>, cfg: Config, ws: seq<Weights<Bytes>>, roots: seq<Bytes>, m: Matmul, w: MatmulWork,
                    b: MatmulBehind, at: Place, log: seq<T.Entry>, columns: seq<int>, p: MatmulProof)
    requires IsMatmulWork(h, cfg, ws, w, b) && MatmulRun(m, w, b, at.oracle, at.domain, log) && RootsOf(roots, ws)
    requires IsOpenedMatmul(h, cfg, w, columns, p)
    ensures ShowsMatmul(h, ws, roots, m, p)
  {
    RunNames(m, w, b, at, log);
    OpenedNames(h, cfg, w, columns, p);
    hide *;
    OpenedMatmulParts(h, cfg, w, columns, p);
    MatmulWorkIs(h, cfg, ws, w, b);
    RootsAt(roots, ws, w.proof.wId);
    SideBuilt(h, w.pw, b.W, b.padding, w.proof.rho, w.pc);
    SideBuilt(h, w.xs, b.X, NoPadding, w.proof.tau, w.ac);
    IsContractionIs(h, w.pw, b.W, b.padding, w.xs, b.X, w.proof.rho, w.proof.tau, b.coins, ContractedOf(w.proof));
    ContractedFields(w.proof);
    ContractionAccepted(b.X, w.proof.tau, b.W, w.proof.rho, w.pw.nIn, b.coins);
    ShownIs(h, ws, roots, m, p, b.padding);
  }

  lemma RunNames(m: Matmul, w: MatmulWork, b: MatmulBehind, at: Place, log: seq<T.Entry>)
    requires MatmulRun(m, w, b, at.oracle, at.domain, log)
    ensures w.proof.name == m.name && b.W == m.W && b.X == m.X
  {
    hide MatmulDrawn;
  }

  lemma OpenedNames(h: Hash<Bytes>, cfg: Config, w: MatmulWork, columns: seq<int>, p: MatmulProof)
    requires IsOpenedMatmul(h, cfg, w, columns, p)
    ensures p.name == w.proof.name
  {
    hide Opened;
  }

  lemma ShownIs(h: Hash<Bytes>, ws: seq<Weights<Bytes>>, roots: seq<Bytes>, m: Matmul, p: MatmulProof, padding: Padding)
    requires p.name == m.name && p.wId < |ws| && p.wId < |roots| && roots[p.wId] == ws[p.wId].commit.root
    requires Enrolled(h, ws[p.wId], m.W, padding) && p.sumcheck.claim == Doubled(m.X, p.tau, m.W, p.rho, p.nIn) % P
    ensures ShowsMatmul(h, ws, roots, m, p)
  {
    hide Enrolled, Doubled;
  }

  /** The proof of one routed node: against its own experts' roots, claiming its own routed output. */
  ghost predicate ShowsMoE(h: Hash<Bytes>, ws: seq<Weights<Bytes>>, roots: seq<Bytes>, m: MoEMatmul, p: MoEProof) {
    && p.name == m.name && |p.tau| == |m.route| == |m.X| && (forall t :: 0 <= t < |m.route| ==> m.route[t] < |m.W|)
    && p.sumcheck.claim == RoutedDouble(m.X, p.tau, m.route, m.W, p.rho, p.nIn) % P
    && |p.wIds| == |m.W| && forall e :: 0 <= e < |m.W| ==> ShowsExpert(h, ws, roots, m.W[e], p.wIds[e])
  }

  ghost predicate ShowsExpert(h: Hash<Bytes>, ws: seq<Weights<Bytes>>, roots: seq<Bytes>, W: Matrix, id: nat) {
    id < |ws| && id < |roots| && roots[id] == ws[id].commit.root && exists padding :: Enrolled(h, ws[id], W, padding)
  }

  lemma ExpertShown(h: Hash<Bytes>, ws: seq<Weights<Bytes>>, roots: seq<Bytes>, W: Matrix, id: nat, padding: Padding)
    requires id < |ws| && id < |roots| && roots[id] == ws[id].commit.root && Enrolled(h, ws[id], W, padding)
    ensures ShowsExpert(h, ws, roots, W, id)
  {
    hide Enrolled;
  }

  lemma MoEShown(h: Hash<Bytes>, cfg: Config, ws: seq<Weights<Bytes>>, roots: seq<Bytes>, m: MoEMatmul, w: MoEWork,
                 b: MoEBehind, at: Place, log: seq<T.Entry>, columns: seq<int>, p: MoEProof)
    requires IsMoEWork(h, cfg, ws, w, b) && MoERun(m, w, b, at.oracle, at.domain, log) && RootsOf(roots, ws)
    requires IsOpenedMoE(h, cfg, w, columns, p) && |m.route| == |m.X| && forall t :: 0 <= t < |m.route| ==> m.route[t] < |m.W|
    ensures ShowsMoE(h, ws, roots, m, p)
  {
    MoERunNames(m, w, b, at, log);
    OpenedMoENames(h, cfg, w, columns, p);
    hide *;
    OpenedMoEFields(h, cfg, w, columns, p);
    MoEWorkSizes(h, cfg, ws, w, b);
    MoEWorkExperts(h, cfg, ws, w, b);
    ExpertMessages(h, cfg, ws, w.experts, m.W, b.pads, p.rho, p.nIn);
    FlatProofIs(w.proof, b.A, SentMessages(w.experts), p.nIn, b.coins);
    RoutedAccepted(b.A, SentMessages(w.experts), m.X, p.tau, m.route, m.W, p.rho, p.nIn, b.coins);
    forall e | 0 <= e < |m.W| ensures e < |p.wIds| && ShowsExpert(h, ws, roots, m.W[e], p.wIds[e]) {
      MoEWorkExpert(h, cfg, ws, w, b, e);
      ExpertEnrolled(h, cfg, ws, w.experts[e], m.W[e], b.pads[e], b.rho, p.nIn);
      ExpertIs(h, cfg, ws, w.experts[e], m.W[e], b.pads[e], b.rho, p.nIn);
      RootsAt(roots, ws, p.wIds[e]);
      ExpertShown(h, ws, roots, m.W[e], p.wIds[e], b.pads[e]);
    }
    MoEShownIs(h, ws, roots, m, p);
  }

  lemma MoERunNames(m: MoEMatmul, w: MoEWork, b: MoEBehind, at: Place, log: seq<T.Entry>)
    requires MoERun(m, w, b, at.oracle, at.domain, log)
    ensures w.proof.name == m.name && b.W == m.W && |w.proof.tau| == |m.route|
    ensures IsSegmentTable(b.A, m.route, m.X, w.proof.tau, |m.W|, w.proof.nIn)
    ensures |b.coins| >= PowerOfTwo.CeilLog(Base(|w.proof.pRoots|, w.proof.nIn))
  {
    hide IsSegmentTable, PowerOfTwo.CeilLog, Base, MoELog, StreamCoins, Sides, T.CoinsAfter;
  }

  lemma OpenedMoENames(h: Hash<Bytes>, cfg: Config, w: MoEWork, columns: seq<int>, p: MoEProof)
    requires IsOpenedMoE(h, cfg, w, columns, p)
    ensures p.name == w.proof.name && p.tau == w.proof.tau
  {
    hide OpenedUpTo;
  }

  lemma MoEWorkExperts(h: Hash<Bytes>, cfg: Config, ws: seq<Weights<Bytes>>, w: MoEWork, b: MoEBehind)
    requires IsMoEWork(h, cfg, ws, w, b)
    ensures AreExperts(h, cfg, ws, w.experts, b.W, b.pads, b.rho, w.proof.nIn) && |w.experts| == |b.W| && w.proof.rho == b.rho
  {
    hide AreExperts, IsFlatProof, AllWide;
  }

  lemma MoEShownIs(h: Hash<Bytes>, ws: seq<Weights<Bytes>>, roots: seq<Bytes>, m: MoEMatmul, p: MoEProof)
    requires p.name == m.name && |p.tau| == |m.route| == |m.X| && forall t :: 0 <= t < |m.route| ==> m.route[t] < |m.W|
    requires p.sumcheck.claim == RoutedDouble(m.X, p.tau, m.route, m.W, p.rho, p.nIn) % P
    requires |p.wIds| == |m.W| && forall e :: 0 <= e < |m.W| ==> ShowsExpert(h, ws, roots, m.W[e], p.wIds[e])
    ensures ShowsMoE(h, ws, roots, m, p)
  {
    hide ShowsExpert, RoutedDouble;
  }

  /** The proof of one lookup: over its own table's padded rows, compressed under its id. */
  ghost predicate ShowsLookup(use: LookupUse, l: LookupProof) {
    && l.tableId == use.table.tableId && use.table.rows != []
    && exists beta :: l.tVals == Compressed(use.table.tableId, PadTable(Tuples(use.table.rows)), beta)
  }

  lemma LookupShown(h: Hash<Bytes>, cfg: Config, use: LookupUse, k: nat, at: Place, l: LookupProof)
    requires cfg.ELL > 0 && Searched(use) && IsLookup(h, cfg, use, k, at, l)
    ensures ShowsLookup(use, l)
  {
    hide LP.IsArgument, Compressed, PadTable, LookupLabels;
    LookupHasRows(h, cfg, use, k, at, l);
  }

  /** One proof for every matmul, routed node and lookup of the trace, in its order. */
  ghost predicate Covers(h: Hash<Bytes>, ws: seq<Weights<Bytes>>, trace: LayerTrace, proof: FullLayerProof) {
    && |proof.matmuls| == |trace.matmuls| && |proof.moe| == |trace.moe| && |proof.lookups| == |trace.lookups|
    && (forall k :: 0 <= k < |trace.matmuls| ==> ShowsMatmul(h, ws, proof.weightRoots, trace.matmuls[k], proof.matmuls[k]))
    && (forall k :: 0 <= k < |trace.moe| ==> ShowsMoE(h, ws, proof.weightRoots, trace.moe[k], proof.moe[k]))
    && forall k :: 0 <= k < |trace.lookups| ==> ShowsLookup(trace.lookups[k], proof.lookups[k])
  }

  lemma RunParts(h: Hash<Bytes>, cfg: Config, ws: seq<Weights<Bytes>>, trace: LayerTrace, masked: bool, draws: nat -> int,
                 oracle: RoundOracle, at: Place, q: nat, src: ColumnSource, run: Run, proof: FullLayerProof)
    returns (l: Place, m: Place, r: Place)
    requires IsFullProof(h, cfg, ws, trace, masked, draws, oracle, at, q, src, run, proof)
    ensures var p := run.phases;
      && |p.works| == |trace.matmuls| && |p.routed| == |trace.moe| && |p.lookups| == |trace.lookups| && proof.lookups == p.lookups
      && AreLookups(h, cfg, trace.lookups, l, p.lookups) && AreMatmuls(trace.matmuls, m, p.works, run.behind.matmuls)
      && AreMoEs(trace.moe, r, p.routed, run.behind.routed)
      && AllWork(h, cfg, ws, p.works, run.behind.matmuls) && AllRouted(h, cfg, ws, p.routed, run.behind.routed)
      && AllOpened(h, cfg, p.works, proof.columns, proof.matmuls) && AllRoutedOpened(h, cfg, p.routed, proof.columns, proof.moe)
      && RootsOf(proof.weightRoots, ws)
  {
    var end :| RunsTo(h, cfg, trace, masked, draws, oracle, at, run, end);
    hide AreStates, AreLookups, AreGates, AreMatmuls, AreMoEs, AllWork, AllRouted, AllOpened, AllRoutedOpened, AllExact, RootsOf;
    hide BatchVerdict, SeededHere, LookupsLog, SearchedUpTo, AfterStates, AfterGates, AfterMatmuls;
    l := AfterStates(at, run.phases);
    var g := AfterLookups(h, cfg, trace, at, run.phases);
    m := AfterGates(g, run.phases.gates);
    r := AfterMatmuls(m, run.phases.works);
  }

  /** Nothing of the trace is left out, and nothing else is proved. */
  lemma ProofCovers(h: Hash<Bytes>, cfg: Config, ws: seq<Weights<Bytes>>, trace: LayerTrace, masked: bool, draws: nat -> int,
                    oracle: RoundOracle, at: Place, q: nat, src: ColumnSource, run: Run, proof: FullLayerProof)
    requires IsFullProof(h, cfg, ws, trace, masked, draws, oracle, at, q, src, run, proof) && Holds(trace)
    ensures Covers(h, ws, trace, proof)
  {
    hide *;
    var l, m, r := RunParts(h, cfg, ws, trace, masked, draws, oracle, at, q, src, run, proof);
    var p, b, cs := run.phases, run.behind, proof.columns;
    SizesOpened(h, cfg, p, proof);
    forall k | 0 <= k < |trace.matmuls| ensures ShowsMatmul(h, ws, proof.weightRoots, trace.matmuls[k], proof.matmuls[k]) {
      MatmulsEach(trace.matmuls, m, p.works, b.matmuls, k);
      WorkAt(h, cfg, ws, p.works, b.matmuls, cs, proof.matmuls, k);
      MatmulShown(h, cfg, ws, proof.weightRoots, trace.matmuls[k], p.works[k], b.matmuls[k], m, m.log + MatmulsLog(p.works, k), cs,
                  proof.matmuls[k]);
    }
    forall k | 0 <= k < |trace.moe| ensures ShowsMoE(h, ws, proof.weightRoots, trace.moe[k], proof.moe[k]) {
      MoEsEach(trace.moe, r, p.routed, b.routed, k);
      RoutedAt(h, cfg, ws, p.routed, b.routed, cs, proof.moe, k);
      RouteFits(trace, k);
      MoEShown(h, cfg, ws, proof.weightRoots, trace.moe[k], p.routed[k], b.routed[k], r, r.log + MoEsLog(p.routed, k), cs,
               proof.moe[k]);
    }
    forall k | 0 <= k < |trace.lookups| ensures ShowsLookup(trace.lookups[k], proof.lookups[k]) {
      LookupsEach(h, cfg, trace.lookups, l, p.lookups, k);
      LookupShown(h, cfg, trace.lookups[k], k, l.After(LookupsLog(h, cfg, trace.lookups, p.lookups, k)), p.lookups[k]);
    }
    CoversIs(h, ws, trace, proof);
  }

  lemma SizesOpened(h: Hash<Bytes>, cfg: Config, p: Phases, proof: FullLayerProof)
    requires AllOpened(h, cfg, p.works, proof.columns, proof.matmuls) && AllRoutedOpened(h, cfg, p.routed, proof.columns, proof.moe)
    ensures |proof.matmuls| == |p.works| && |proof.moe| == |p.routed|
  {
    hide IsOpenedMatmul, IsOpenedMoE;
  }

  lemma WorkAt(h: Hash<Bytes>, cfg: Config, ws: seq<Weights<Bytes>>, ms: seq<MatmulWork>, bs: seq<MatmulBehind>, columns: seq<int>,
               ps: seq<MatmulProof>, k: nat)
    requires AllWork(h, cfg, ws, ms, bs) && AllOpened(h, cfg, ms, columns, ps) && k < |ms|
    ensures |bs| == |ms| == |ps| && IsMatmulWork(h, cfg, ws, ms[k], bs[k]) && IsOpenedMatmul(h, cfg, ms[k], columns, ps[k])
  {
    hide IsMatmulWork, IsOpenedMatmul;
  }

  lemma RoutedAt(h: Hash<Bytes>, cfg: Config, ws: seq<Weights<Bytes>>, ms: seq<MoEWork>, bs: seq<MoEBehind>, columns: seq<int>,
                 ps: seq<MoEProof>, k: nat)
    requires AllRouted(h, cfg, ws, ms, bs) && AllRoutedOpened(h, cfg, ms, columns, ps) && k < |ms|
    ensures |bs| == |ms| == |ps| && IsMoEWork(h, cfg, ws, ms[k], bs[k]) && IsOpenedMoE(h, cfg, ms[k], columns, ps[k])
  {
    hide IsMoEWork, IsOpenedMoE;
  }

  lemma RouteFits(trace: LayerTrace, k: nat)
    requires Holds(trace) && k < |trace.moe|
    ensures |trace.moe[k].route| == |trace.moe[k].X|
    ensures forall t :: 0 <= t < |trace.moe[k].route| ==> trace.moe[k].route[t] < |trace.moe[k].W|
  {
    hide AllVanish, AllRows, MatmulRight, Inner;
    assert MoERight(trace.moe[k]);
  }

  lemma CoversIs(h: Hash<Bytes>, ws: seq<Weights<Bytes>>, trace: LayerTrace, proof: FullLayerProof)
    requires |proof.matmuls| == |trace.matmuls| && |proof.moe| == |trace.moe| && |proof.lookups| == |trace.lookups|
    requires forall k :: 0 <= k < |trace.matmuls| ==> ShowsMatmul(h, ws, proof.weightRoots, trace.matmuls[k], proof.matmuls[k])
    requires forall k :: 0 <= k < |trace.moe| ==> ShowsMoE(h, ws, proof.weightRoots, trace.moe[k], proof.moe[k])
    requires forall k :: 0 <= k < |trace.lookups| ==> ShowsLookup(trace.lookups[k], proof.lookups[k])
    ensures Covers(h, ws, trace, proof)
  {
    hide ShowsMatmul, ShowsMoE, ShowsLookup;
  }

  // ---------------------------------------------------- from the emitter to the verifier

  /** The size a gate counts with. */
  function SlotSize(g: Gate): nat {
    if g.terms != [] && g.terms[0].factors != [] then |g.terms[0].factors[0]| else 0
  }

  lemma {:induction false} SmallGates(gates: seq<Gate>, k: nat)
    requires MaxSize(gates) <= 1 && k < |gates|
    ensures SlotSize(gates[k]) <= 1
  {
    if k > 0 { SmallGates(gates[1..], k - 1); }
  }

  lemma {:induction false} FewSlots(gates: seq<Gate>)
    requires forall k :: 0 <= k < |gates| ==> SlotSize(gates[k]) <= 1
    ensures SlotsOf(gates) <= |gates|
  {
    if gates != [] {
      FewSlots(gates[..|gates| - 1]);
      assert SlotSize(gates[|gates| - 1]) <= 1;
    }
  }

  /** More slots than gates: some gate has two. */
  lemma CrowdedGates(gates: seq<Gate>)
    requires SlotsOf(gates) > |gates|
    ensures gates != [] && BatchLog(gates) > 0
  {
    if MaxSize(gates) <= 1 {
      forall k | 0 <= k < |gates| ensures SlotSize(gates[k]) <= 1 { SmallGates(gates, k); }
      FewSlots(gates);
    }
    PowerOfTwo.CeilLogExact(MaxSize(gates));
  }

  lemma FormulaCrowded(kr: nat, kb: nat, S: nat, d: nat, f: nat, e: nat)
    requires S >= 2 && d > 0 && f > 0
    ensures Formula(kr, kb, S, d, f, e).slots > Formula(kr, kb, S, d, f, e).gates
  {
    TimesAtLeast(S, d);
    TimesAtLeast(S, f);
    MulMonotone(2, S, S, S);
    SlotsAlgebra(S, d, f);
  }

  lemma SlotsAlgebra(S: int, d: int, f: int)
    requires S >= 2 && S * d >= S && S * f >= S && S * S >= 2 * S
    ensures 15 * S * d + 4 * S * S + 5 * S * f + 2 * S + (9 * S * d + S * S + 3 * S * f + (2 * S + S * S + S * f))
            > 13 + 13 * S + (11 + 6 * S)
  {
    assert 15 * S * d == 15 * (S * d) && 4 * S * S == 4 * (S * S) && 5 * S * f == 5 * (S * f);
    assert 9 * S * d == 9 * (S * d) && 3 * S * f == 3 * (S * f);
  }

  /** The tape outlasts the gate batch. */
  predicate TapeLasts(tr: LayerTrace) {
    BatchLog(tr.gates) * 3 <= TapeLength(|tr.gates|)
  }

  /** With two tokens or more every emitted trace can be proved. */
  lemma EmittedProvable(cfg: ToyConfig, tr: LayerTrace, masked: bool)
    requires cfg.Positive() && 2 <= cfg.S && cfg.E < Pow2(64) && |tr.xIn| == cfg.S && Supplied(cfg, tr)
    requires Predicted(cfg) == Some(TraceCounts(tr)) && (masked ==> TapeLasts(tr))
    ensures Provable(tr, masked) && ShortNames(tr)
  {
    PredictedCrowded(cfg, TraceCounts(tr));
    CrowdedGates(tr.gates);
    SuppliedNames(cfg, tr);
    TablesOfTwo(cfg);
    hide BatchLog, TapeLength, Predicted, TraceCounts, Pow2;
  }

  lemma TablesOfTwo(cfg: ToyConfig)
    requires cfg.Positive()
    ensures cfg.TableSize() >= 2
  {
    Pow2Monotone(1, cfg.tableBits);
    assert Pow2(1) == 2;
  }

  lemma PredictedCrowded(cfg: ToyConfig, s: Shape)
    requires cfg.Positive() && cfg.S >= 2 && Predicted(cfg) == Some(s)
    ensures s.slots > s.gates
  {
    hide Lifting.QuotientWords, Formula;
    var kr, kb := Lifting.QuotientWords(cfg.scaleBits, cfg.tableBits).k, Lifting.QuotientWords(cfg.tableBits, cfg.tableBits).k;
    FormulaCrowded(kr, kb, cfg.S, cfg.d, cfg.dff, cfg.Experts());
  }

  lemma SuppliedNames(cfg: ToyConfig, tr: LayerTrace)
    requires Supplied(cfg, tr) && cfg.E < Pow2(64)
    ensures ShortNames(tr)
  {
    Pow2Monotone(3, 64);
    assert Pow2(3) == 8;
    hide Pow2;
  }

  /** The trace of the integer layer: its input, its reduced output, relations that hold, and its data flow. */
  ghost predicate EmittedBy(cfg: ToyConfig, root: nat -> nat, w: LayerWeights, trace: LayerTrace)
    requires WellShaped(cfg, w)
  {
    trace.xIn == w.x && trace.yOut == ModRows(LayerOutput(cfg, root, w)) && Holds(trace) && Flows(root, w, trace)
  }

  lemma EmittedIs(cfg: ToyConfig, root: nat -> nat, w: LayerWeights, trace: LayerTrace)
    requires WellShaped(cfg, w)
    ensures EmittedBy(cfg, root, w, trace)
            <==> trace.xIn == w.x && trace.yOut == ModRows(LayerOutput(cfg, root, w)) && Holds(trace) && Flows(root, w, trace)
  {
    hide WellShaped, LayerOutput, Holds, Flows;
  }

  /** What the whole path promises of its outcome. */
  ghost predicate WholePath(cfg: ToyConfig, root: nat -> nat, w: LayerWeights, masked: bool, st: Status, trace: LayerTrace,
                            r: FullResult, v: Verdict) {
    hide *;
    && WellShaped(cfg, w) && st == LayerStatus(cfg, root, w) && r != IdentityFailed
    && (st.Fine? ==> EmittedBy(cfg, root, w, trace))
    && (st.Fine? && (masked ==> TapeLasts(trace)) ==> r.ProvedLayer?)
    && (r.ProvedLayer? ==> v == if AlphasMiss(r.proof.lookups) then Accept else Reject)
  }

  lemma WholePathIs(cfg: ToyConfig, root: nat -> nat, w: LayerWeights, masked: bool, st: Status, trace: LayerTrace,
                    r: FullResult, v: Verdict)
    requires WellShaped(cfg, w)
    ensures WholePath(cfg, root, w, masked, st, trace, r, v) <==>
      (&& st == LayerStatus(cfg, root, w) && r != IdentityFailed
       && (st.Fine? ==> EmittedBy(cfg, root, w, trace))
       && (st.Fine? && (masked ==> TapeLasts(trace)) ==> r.ProvedLayer?)
       && (r.ProvedLayer? ==> v == if AlphasMiss(r.proof.lookups) then Accept else Reject))
  {
    hide LayerStatus, EmittedBy, TapeLasts, AlphasMiss, WellShaped;
  }

  /** The whole path: any weights and route of two tokens or more. When the integer layer is in range,
      what is emitted is its output, the prover hits no assertion and (the tape lasting) returns the
      proof of that trace, and the verifier accepts it exactly when every lookup's alpha missed. */
  method ForwardProveVerify(cfg: ToyConfig, root: nat -> nat, w: LayerWeights, enrol: Enrollment, digests: T.Oracle,
                            domain: Bytes, masked: bool, rng: Rng, draws: nat -> int, oracle: RoundOracle, q: nat,
                            src: ColumnSource) returns (st: Status, trace: LayerTrace, r: FullResult, v: Verdict, ghost run: Run)
    requires enrol.Valid() && WellShaped(cfg, w) && 2 <= cfg.S && cfg.E < Pow2(64) && q > 0 && Yields(src, q, enrol.cfg.N())
    modifies enrol
    ensures enrol.Valid() && WholePath(cfg, root, w, masked, st, trace, r, v)
    ensures ProvesTrace(enrol, trace, masked, draws, oracle, Start(digests, domain), q, src, run, r)
  {
    hide *;
    WeightRows(cfg, w);
    st, trace := ForwardLayer(cfg, root, w);
    EmittedIs(cfg, root, w, trace);
    r, v, run := GaveUp, Raise, Run(Phases([], [], [], [], NoBatch, [], []), PhasesBehind([], []));
    WholePathIs(cfg, root, w, masked, st, trace, r, v);
    ProvesTraceIs(enrol, trace, masked, draws, oracle, Start(digests, domain), q, src, run, r);
    if !st.Fine? || (masked && !TapeLasts(trace)) {
      return;
    }
    IsPredictedIs(cfg, trace);
    EmittedProvable(cfg, trace, masked);
    r, v, run := ProveThenVerifyFull(trace, enrol, digests, domain, masked, rng, draws, oracle, q, src);
    WholePathIs(cfg, root, w, masked, st, trace, r, v);
  }

  lemma IsPredictedIs(cfg: ToyConfig, trace: LayerTrace)
    ensures IsPredicted(cfg, trace) <==> cfg.Positive() && Predicted(cfg) == Some(TraceCounts(trace))
  {
    hide Predicted, TraceCounts;
  }

  lemma WeightRows(cfg: ToyConfig, w: LayerWeights)
    requires WellShaped(cfg, w)
    ensures cfg.Positive() && |w.x| == cfg.S
  {}
}
