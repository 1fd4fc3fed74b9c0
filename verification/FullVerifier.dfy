/** verify_full_layer: matmuls, routed nodes, gates and lookups in turn, for any proof. */
module FullVerifier {
  import opened NumberTheory
  import opened Field
  import opened Polynomial
  import opened Domain
  import opened Rows
  import opened Rs
  import opened Merkle
  import opened Commit
  import opened Projection
  import opened Seam
  import opened Sumcheck
  import opened Protocol
  import opened Prover
  import opened Products
  import opened PowerOfTwo
  import opened Gates
  import opened Relations
  import opened Logup
  import opened MatmulStep
  import D = DenseLayer
  import T = Transcript

  type Bytes = T.Bytes

  datatype MatmulProof = MatmulProof(
    name: string, wId: nat, nIn: nat, pRoot: Bytes, xRoot: Bytes, aRoot: Bytes, rho: seq<int>, tau: seq<int>,
    wOpening: Opening<Bytes>, aOpening: Opening<Bytes>, sumcheck: SumcheckProof,
    pMessage: seq<int>, aMessage: seq<int>, pBlocks: Matrix, aBlocks: Matrix)

  datatype MoEProof = MoEProof(
    name: string, wIds: seq<nat>, nIn: nat, rho: seq<int>, tau: seq<int>, pRoots: seq<Bytes>, wOpenings: seq<Opening<Bytes>>,
    pMessages: Matrix, pBlocks: seq<Matrix>, aFlat: seq<int>, sumcheck: SumcheckProof,
    permSrc: int, permDst: int, scanOk: bool)

  datatype LookupProof = LookupProof(tableId: nat, proof: LogUpProof, qVals: seq<int>, tVals: seq<int>, mult: seq<int>, alpha: int)

  datatype FullLayerProof = FullLayerProof(
    inRoot: Bytes, outRoot: Bytes, maskRoot: Bytes, matmuls: seq<MatmulProof>, moe: seq<MoEProof>,
    gateProof: SumcheckProof, gateZ: seq<int>, gateLambdas: seq<int>, lookups: seq<LookupProof>,
    columns: seq<int>, weightRoots: seq<Bytes>)

  // ------------------------------------------------------------------- one matmul

  /** Both seams, both bindings, the contraction; a weight id without a root raises. */
  ghost function MatmulVerdict(h: Hash<Bytes>, cfg: Config, roots: seq<Bytes>, m: MatmulProof): Verdict {
    if m.wId >= |roots| then Raise else
    var v1 := SeamVerdict(h, cfg, roots[m.wId], m.pRoot, m.rho, m.wOpening, 0);
    if !v1.Accept? then v1 else
    var v2 := SeamVerdict(h, cfg, m.xRoot, m.aRoot, m.tau, m.aOpening, 0);
    if !v2.Accept? then v2 else
    D.SeamInRange(h, cfg, roots[m.wId], m.pRoot, m.rho, m.wOpening);
    D.SeamInRange(h, cfg, m.xRoot, m.aRoot, m.tau, m.aOpening);
    var v3 := BindVerdict(cfg, m.pBlocks, m.wOpening);
    if !v3.Accept? then v3 else
    var v4 := BindVerdict(cfg, m.aBlocks, m.aOpening);
    if !v4.Accept? then v4 else
    ProductVerdict(m.sumcheck, Sides2(m.aMessage, m.pMessage, m.nIn))
  }

  method VerifyMatmul(h: Hash<Bytes>, cfg: Config, L: seq<seq<int>>, roots: seq<Bytes>, m: MatmulProof) returns (v: Verdict)
    requires cfg.Valid() && IsLagrangeMatrix(cfg, L)
    ensures v == MatmulVerdict(h, cfg, roots, m)
  {
    hide SeamVerdict, BindVerdict, ProductVerdict, IsLagrangeMatrix, Widened;
    if m.wId >= |roots| {
      return Raise;
    }
    v := VerifyProjection(h, cfg, roots[m.wId], m.pRoot, m.rho, m.wOpening);
    if !v.Accept? { return; }
    v := VerifyProjection(h, cfg, m.xRoot, m.aRoot, m.tau, m.aOpening);
    if !v.Accept? { return; }
    D.SeamInRange(h, cfg, roots[m.wId], m.pRoot, m.rho, m.wOpening);
    D.SeamInRange(h, cfg, m.xRoot, m.aRoot, m.tau, m.aOpening);
    v := BindBlocks(cfg, L, m.pBlocks, m.wOpening);
    if !v.Accept? { return; }
    v := BindBlocks(cfg, L, m.aBlocks, m.aOpening);
    if !v.Accept? { return; }
    v := VerifyProduct(m.sumcheck, Sides2(m.aMessage, m.pMessage, m.nIn));
  }

  // --------------------------------------------------------------- one routed node

  /** Expert e's seam and binding, then the experts after it. */
  ghost function ExpertsVerdict(h: Hash<Bytes>, cfg: Config, roots: seq<Bytes>, m: MoEProof, e: nat): Verdict
    decreases |m.pRoots| - e
  {
    if e >= |m.pRoots| || e >= |m.wOpenings| then Accept
    else if e >= |m.wIds| || m.wIds[e] >= |roots| then Raise
    else
      var v1 := SeamVerdict(h, cfg, roots[m.wIds[e]], m.pRoots[e], m.rho, m.wOpenings[e], 0);
      if !v1.Accept? then v1
      else if e >= |m.pBlocks| then Raise
      else
        D.SeamInRange(h, cfg, roots[m.wIds[e]], m.pRoots[e], m.rho, m.wOpenings[e]);
        var v2 := BindVerdict(cfg, m.pBlocks[e], m.wOpenings[e]);
        if !v2.Accept? then v2 else ExpertsVerdict(h, cfg, roots, m, e + 1)
  }

  /** [p_messages[e][j] for e for j < n_in] */
  function FlatMessages(messages: Matrix, n: nat, e: nat): seq<int>
    requires e <= |messages| && forall i :: 0 <= i < e ==> |messages[i]| >= n
  {
    if e == 0 then [] else FlatMessages(messages, n, e - 1) + messages[e - 1][..n]
  }

  predicate LongEnough(messages: Matrix, e: nat, n: nat) {
    e <= |messages| && forall i :: 0 <= i < e ==> |messages[i]| >= n
  }

  /** _pad(vec, width) */
  function PadTo(v: seq<int>, width: nat): (r: seq<int>)
    ensures |r| == width && forall j :: 0 <= j < width ==> r[j] == At(v, j)
  {
    seq(width, j requires 0 <= j < width => At(v, j))
  }

  ghost function MoEVerdict(h: Hash<Bytes>, cfg: Config, roots: seq<Bytes>, m: MoEProof): Verdict {
    if !m.scanOk then Reject
    else if m.permSrc != m.permDst then Reject
    else
      var v1 := ExpertsVerdict(h, cfg, roots, m, 0);
      if !v1.Accept? then v1
      else if !LongEnough(m.pMessages, |m.pRoots|, m.nIn) then Raise
      else ProductVerdict(m.sumcheck, [m.aFlat, PadTo(FlatMessages(m.pMessages, m.nIn, |m.pRoots|), |m.aFlat|)])
  }

  method VerifyMoE(h: Hash<Bytes>, cfg: Config, L: seq<seq<int>>, roots: seq<Bytes>, m: MoEProof) returns (v: Verdict)
    requires cfg.Valid() && IsLagrangeMatrix(cfg, L)
    ensures v == MoEVerdict(h, cfg, roots, m)
  {
    hide SeamVerdict, BindVerdict, ProductVerdict, IsLagrangeMatrix;
    if !m.scanOk {
      return Reject;
    }
    if m.permSrc != m.permDst {
      return Reject;
    }
    var count := if |m.pRoots| <= |m.wOpenings| then |m.pRoots| else |m.wOpenings|;
    for e := 0 to count
      invariant ExpertsVerdict(h, cfg, roots, m, e) == ExpertsVerdict(h, cfg, roots, m, 0)
    {
      if e >= |m.wIds| || m.wIds[e] >= |roots| {
        return Raise;
      }
      v := VerifyProjection(h, cfg, roots[m.wIds[e]], m.pRoots[e], m.rho, m.wOpenings[e]);
      if !v.Accept? { return; }
      if e >= |m.pBlocks| {
        return Raise;
      }
      D.SeamInRange(h, cfg, roots[m.wIds[e]], m.pRoots[e], m.rho, m.wOpenings[e]);
      v := BindBlocks(cfg, L, m.pBlocks[e], m.wOpenings[e]);
      if !v.Accept? { return; }
    }
    if !LongEnough(m.pMessages, |m.pRoots|, m.nIn) {
      return Raise;
    }
    var flat: seq<int> := [];
    for e := 0 to |m.pRoots|
      invariant flat == FlatMessages(m.pMessages, m.nIn, e)
    {
      flat := flat + m.pMessages[e][..m.nIn];
    }
    v := VerifyProduct(m.sumcheck, [m.aFlat, PadTo(flat, |m.aFlat|)]);
  }

  // ------------------------------------------------------------------ the whole layer

  ghost function MatmulsVerdict(h: Hash<Bytes>, cfg: Config, roots: seq<Bytes>, ms: seq<MatmulProof>, k: nat): Verdict
    decreases |ms| - k
  {
    if k >= |ms| then Accept
    else
      var v := MatmulVerdict(h, cfg, roots, ms[k]);
      if !v.Accept? then v else MatmulsVerdict(h, cfg, roots, ms, k + 1)
  }

  ghost function MoEsVerdict(h: Hash<Bytes>, cfg: Config, roots: seq<Bytes>, ms: seq<MoEProof>, k: nat): Verdict
    decreases |ms| - k
  {
    if k >= |ms| then Accept
    else
      var v := MoEVerdict(h, cfg, roots, ms[k]);
      if !v.Accept? then v else MoEsVerdict(h, cfg, roots, ms, k + 1)
  }

  function LookupsVerdict(ls: seq<LookupProof>, k: nat): Verdict
    decreases |ls| - k
  {
    if k >= |ls| then Accept
    else
      var v := LogUpVerdict(ls[k].proof, ls[k].qVals, ls[k].tVals, ls[k].mult, ls[k].alpha);
      if !v.Accept? then v else LookupsVerdict(ls, k + 1)
  }

  ghost function FullVerdict(h: Hash<Bytes>, cfg: Config, proof: FullLayerProof, gates: seq<Gate>, oracle: RoundOracle): Verdict {
    var v1 := MatmulsVerdict(h, cfg, proof.weightRoots, proof.matmuls, 0);
    if !v1.Accept? then v1 else
    var v2 := MoEsVerdict(h, cfg, proof.weightRoots, proof.moe, 0);
    if !v2.Accept? then v2 else
    var v3 := BatchVerdict(proof.gateProof, gates, proof.gateZ, proof.gateLambdas, 0, oracle, "gates");
    if !v3.Accept? then v3 else LookupsVerdict(proof.lookups, 0)
  }

  method VerifyFullLayer(h: Hash<Bytes>, cfg: Config, L: seq<seq<int>>, proof: FullLayerProof, gates: seq<Gate>, oracle: RoundOracle)
    returns (v: Verdict)
    requires cfg.Valid() && IsLagrangeMatrix(cfg, L)
    ensures v == FullVerdict(h, cfg, proof, gates, oracle)
  {
    hide MatmulVerdict, MoEVerdict, BatchVerdict, LogUpVerdict, IsLagrangeMatrix;
    for k := 0 to |proof.matmuls|
      invariant MatmulsVerdict(h, cfg, proof.weightRoots, proof.matmuls, k)
             == MatmulsVerdict(h, cfg, proof.weightRoots, proof.matmuls, 0)
    {
      v := VerifyMatmul(h, cfg, L, proof.weightRoots, proof.matmuls[k]);
      if !v.Accept? { return; }
    }
    for k := 0 to |proof.moe|
      invariant MoEsVerdict(h, cfg, proof.weightRoots, proof.moe, k) == MoEsVerdict(h, cfg, proof.weightRoots, proof.moe, 0)
    {
      v := VerifyMoE(h, cfg, L, proof.weightRoots, proof.moe[k]);
      if !v.Accept? { return; }
    }
    v := VerifyBatch(proof.gateProof, gates, proof.gateZ, proof.gateLambdas, 0, oracle, "gates");
    if !v.Accept? { return; }
    for k := 0 to |proof.lookups|
      invariant LookupsVerdict(proof.lookups, k) == LookupsVerdict(proof.lookups, 0)
    {
      var l := proof.lookups[k];
      v := Logup.Verify(l.proof, l.qVals, l.tVals, l.mult, l.alpha);
      if !v.Accept? { return; }
    }
    v := Accept;
  }
}
