/** What acceptance by verify_full_layer and verify_chain means. */
module FullSound {
  // Against honestly enrolled tensors, with a binding hash and K different opened columns: every block sent for
  // every matmul, routed expert and dense layer is the projection of its own tensor, and every other check the
  // verifiers make has passed. What the sumchecks then say, and on what condition it is the weighted output.

  import opened NumberTheory
  import opened Field
  import opened Polynomial
  import opened Domain
  import opened Rows
  import opened Rs
  import opened Commit
  import opened Projection
  import opened Seam
  import opened Sumcheck
  import opened Protocol
  import opened Prover
  import opened Soundness
  import opened Products
  import opened PowerOfTwo
  import opened Contraction
  import opened MatmulStep
  import opened Gates
  import opened Relations
  import opened EqWeights
  import opened Verifier
  import opened Logup
  import opened DenseLayer
  import opened Chain
  import opened FullVerifier
  import opened SeamSound

  // ---------------------------------------------------------------- one matmul

  lemma MatmulChecks(h: Hash<Bytes>, cfg: Config, roots: seq<Bytes>, m: MatmulProof)
    requires MatmulVerdict(h, cfg, roots, m) == Accept
    ensures m.wId < |roots|
    ensures SideAccepted(h, cfg, roots[m.wId], m.pRoot, m.rho, m.wOpening, m.pBlocks)
    ensures SideAccepted(h, cfg, m.xRoot, m.aRoot, m.tau, m.aOpening, m.aBlocks)
    ensures ProductVerdict(m.sumcheck, Sides2(m.aMessage, m.pMessage, m.nIn)) == Accept
  {
    hide SeamVerdict, BindVerdict, ProductVerdict, Sides2;
    SeamInRange(h, cfg, roots[m.wId], m.pRoot, m.rho, m.wOpening);
    SeamInRange(h, cfg, m.xRoot, m.aRoot, m.tau, m.aOpening);
  }

  /** An honestly enrolled tensor stands behind this root. */
  ghost predicate Stands(h: Hash<Bytes>, cfg: Config, root: Bytes, w: Weights<Bytes>, W: Matrix, padding: Padding) {
    w.cfg == cfg && Enrolled(h, w, W, padding) && w.commit.root == root
  }

  /** An opening wide enough to tell two codewords apart. */
  ghost predicate Wide(cfg: Config, o: Opening<Bytes>) {
    NoDuplicates(o.columns) && |o.columns| >= cfg.K()
  }

  /** Soundness of an accepted matmul: its weight blocks are the projection of the enrolled weights by rho, its
      activation blocks that of the committed input by tau, coordinate by coordinate over all blocks. */
  lemma MatmulSound(h: Hash<Bytes>, cfg: Config, roots: seq<Bytes>, m: MatmulProof, w: Weights<Bytes>, W: Matrix, padding: Padding,
                    xs: Weights<Bytes>, X: Matrix, xPadding: Padding)
    requires Binding(h) && MatmulVerdict(h, cfg, roots, m) == Accept && m.wId < |roots|
    requires Stands(h, cfg, roots[m.wId], w, W, padding) && |m.rho| == w.nOut && Wide(cfg, m.wOpening)
    requires Stands(h, cfg, m.xRoot, xs, X, xPadding) && |m.tau| == xs.nOut && Wide(cfg, m.aOpening)
    ensures cfg.ELL > 0 && Rectangular(W) && Rectangular(X)
    ensures BlocksAre(cfg, W, m.rho, m.pBlocks) && BlocksAre(cfg, X, m.tau, m.aBlocks)
    ensures forall g :: Built(h, cfg, g) && g.root == m.pRoot ==> OpenedAre(cfg, g, m.wOpening)
    ensures forall g :: Built(h, cfg, g) && g.root == m.aRoot ==> OpenedAre(cfg, g, m.aOpening)
  {
    hide *;
    MatmulChecks(h, cfg, roots, m);
    BehindIs(h, cfg, roots[m.wId], w, W, padding);
    BehindIs(h, cfg, m.xRoot, xs, X, xPadding);
    WideIs(cfg, m.wOpening);
    WideIs(cfg, m.aOpening);
    SideSound(h, w, W, padding, m.rho, m.pRoot, m.wOpening, m.pBlocks);
    SideSound(h, xs, X, xPadding, m.tau, m.aRoot, m.aOpening, m.aBlocks);
  }

  lemma BehindIs(h: Hash<Bytes>, cfg: Config, root: Bytes, w: Weights<Bytes>, W: Matrix, padding: Padding)
    requires Stands(h, cfg, root, w, W, padding)
    ensures w.cfg == cfg && Enrolled(h, w, W, padding) && w.commit.root == root && Rectangular(W) && w.nOut == |W| && w.nIn == |W[0]|
  {
    hide Built, Messages, Encoded;
  }

  lemma WideIs(cfg: Config, o: Opening<Bytes>)
    ensures Wide(cfg, o) <==> NoDuplicates(o.columns) && |o.columns| >= cfg.K()
  {}

  // ---------------------------------------------------------------- one dense layer

  lemma LayerChecks(h: Hash<Bytes>, cfg: Config, wRoot: Bytes, p: LayerProof, nIn: nat)
    requires LayerVerdict(h, cfg, wRoot, p, nIn) == Accept
    ensures SideAccepted(h, cfg, wRoot, p.pRoot, p.rho, p.wOpening, p.pBlocks)
    ensures SideAccepted(h, cfg, p.inRoot, p.aRoot, p.tau, p.aOpening, p.aBlocks)
    ensures ProductVerdict(p.sumcheck, Sides2(p.aMessage, p.pMessage, nIn)) == Accept
  {
    hide SeamVerdict, BindVerdict, ProductVerdict, Sides2;
    SeamInRange(h, cfg, wRoot, p.pRoot, p.rho, p.wOpening);
    SeamInRange(h, cfg, p.inRoot, p.aRoot, p.tau, p.aOpening);
  }

  /** Soundness of an accepted dense layer. */
  lemma LayerSound(h: Hash<Bytes>, cfg: Config, wRoot: Bytes, p: LayerProof, nIn: nat, w: Weights<Bytes>, W: Matrix, padding: Padding,
                   xs: Weights<Bytes>, X: Matrix, xPadding: Padding)
    requires Binding(h) && LayerVerdict(h, cfg, wRoot, p, nIn) == Accept
    requires Stands(h, cfg, wRoot, w, W, padding) && |p.rho| == w.nOut && Wide(cfg, p.wOpening)
    requires Stands(h, cfg, p.inRoot, xs, X, xPadding) && |p.tau| == xs.nOut && Wide(cfg, p.aOpening)
    ensures cfg.ELL > 0 && Rectangular(W) && Rectangular(X)
    ensures BlocksAre(cfg, W, p.rho, p.pBlocks) && BlocksAre(cfg, X, p.tau, p.aBlocks)
    ensures forall g :: Built(h, cfg, g) && g.root == p.pRoot ==> OpenedAre(cfg, g, p.wOpening)
    ensures forall g :: Built(h, cfg, g) && g.root == p.aRoot ==> OpenedAre(cfg, g, p.aOpening)
  {
    hide *;
    LayerChecks(h, cfg, wRoot, p, nIn);
    BehindIs(h, cfg, wRoot, w, W, padding);
    BehindIs(h, cfg, p.inRoot, xs, X, xPadding);
    WideIs(cfg, p.wOpening);
    WideIs(cfg, p.aOpening);
    SideSound(h, w, W, padding, p.rho, p.pRoot, p.wOpening, p.pBlocks);
    SideSound(h, xs, X, xPadding, p.tau, p.aRoot, p.aOpening, p.aBlocks);
  }

  /** Soundness of an accepted chain, at layer l: its input root is the output root before it, and its blocks
      are the projections of its own weights and of the tensor behind that root. */
  lemma ChainSound(h: Hash<Bytes>, cfg: Config, wRoots: seq<Bytes>, proofs: seq<LayerProof>, nIns: seq<nat>, l: nat,
                   w: Weights<Bytes>, W: Matrix, padding: Padding, xs: Weights<Bytes>, X: Matrix, xPadding: Padding)
    requires |wRoots| >= |proofs| && |nIns| >= |proofs| && Binding(h) && ChainVerdict(h, cfg, wRoots, proofs, nIns, 0) == Accept
    requires l < |proofs| && Stands(h, cfg, wRoots[l], w, W, padding) && |proofs[l].rho| == w.nOut && Wide(cfg, proofs[l].wOpening)
    requires Stands(h, cfg, if l == 0 then proofs[0].inRoot else proofs[l - 1].outRoot, xs, X, xPadding)
    requires |proofs[l].tau| == xs.nOut && Wide(cfg, proofs[l].aOpening)
    ensures cfg.ELL > 0 && Rectangular(W) && Rectangular(X)
    ensures BlocksAre(cfg, W, proofs[l].rho, proofs[l].pBlocks) && BlocksAre(cfg, X, proofs[l].tau, proofs[l].aBlocks)
    ensures l > 0 ==> proofs[l].inRoot == proofs[l - 1].outRoot
  {
    ChainAccepted(h, cfg, wRoots, proofs, nIns, 0);
    assert LinkedTo(proofs, l);
    hide LayerVerdict, Enrolled, Wide, ChainVerdict;
    LayerSound(h, cfg, wRoots[l], proofs[l], nIns[l], w, W, padding, xs, X, xPadding);
  }

  // ------------------------------------------------------------ one routed node

  lemma {:induction false} ExpertChecks(h: Hash<Bytes>, cfg: Config, roots: seq<Bytes>, m: MoEProof, from: nat, e: nat)
    requires ExpertsVerdict(h, cfg, roots, m, from) == Accept && from <= e < |m.pRoots| && e < |m.wOpenings|
    ensures e < |m.wIds| && m.wIds[e] < |roots| && e < |m.pBlocks|
    ensures SideAccepted(h, cfg, roots[m.wIds[e]], m.pRoots[e], m.rho, m.wOpenings[e], m.pBlocks[e])
    decreases |m.pRoots| - from
  {
    hide SeamVerdict, BindVerdict;
    if from < e {
      ExpertChecks(h, cfg, roots, m, from + 1, e);
    } else {
      SeamInRange(h, cfg, roots[m.wIds[e]], m.pRoots[e], m.rho, m.wOpenings[e]);
    }
  }

  lemma RoutedChecks(h: Hash<Bytes>, cfg: Config, roots: seq<Bytes>, m: MoEProof)
    requires MoEVerdict(h, cfg, roots, m) == Accept
    ensures m.scanOk && m.permSrc == m.permDst && ExpertsVerdict(h, cfg, roots, m, 0) == Accept
    ensures LongEnough(m.pMessages, |m.pRoots|, m.nIn)
    ensures ProductVerdict(m.sumcheck, [m.aFlat, PadTo(FlatMessages(m.pMessages, m.nIn, |m.pRoots|), |m.aFlat|)]) == Accept
  {
    hide ExpertsVerdict, ProductVerdict;
  }

  /** Soundness of an accepted routed node: its stream's checks passed, and every expert's blocks are the
      projection of that expert's enrolled tensor by rho. */
  lemma RoutedSound(h: Hash<Bytes>, cfg: Config, roots: seq<Bytes>, m: MoEProof, e: nat, w: Weights<Bytes>, W: Matrix, padding: Padding)
    requires Binding(h) && MoEVerdict(h, cfg, roots, m) == Accept && e < |m.pRoots| && e < |m.wOpenings|
    requires e < |m.wIds| && m.wIds[e] < |roots| ==> Stands(h, cfg, roots[m.wIds[e]], w, W, padding)
    requires |m.rho| == w.nOut && Wide(cfg, m.wOpenings[e])
    ensures m.scanOk && m.permSrc == m.permDst && e < |m.pBlocks| && cfg.ELL > 0 && Rectangular(W)
    ensures BlocksAre(cfg, W, m.rho, m.pBlocks[e])
    ensures forall g :: Built(h, cfg, g) && g.root == m.pRoots[e] ==> OpenedAre(cfg, g, m.wOpenings[e])
  {
    hide *;
    RoutedChecks(h, cfg, roots, m);
    ExpertChecks(h, cfg, roots, m, 0, e);
    BehindIs(h, cfg, roots[m.wIds[e]], w, W, padding);
    WideIs(cfg, m.wOpenings[e]);
    SideSound(h, w, W, padding, m.rho, m.pRoots[e], m.wOpenings[e], m.pBlocks[e]);
  }

  // ---------------------------------------------------------------- the whole layer

  lemma {:induction false} EachMatmul(h: Hash<Bytes>, cfg: Config, roots: seq<Bytes>, ms: seq<MatmulProof>, from: nat, k: nat)
    requires MatmulsVerdict(h, cfg, roots, ms, from) == Accept && from <= k < |ms|
    ensures MatmulVerdict(h, cfg, roots, ms[k]) == Accept
    decreases |ms| - from
  {
    hide MatmulVerdict;
    if from < k { EachMatmul(h, cfg, roots, ms, from + 1, k); }
  }

  lemma {:induction false} EachRouted(h: Hash<Bytes>, cfg: Config, roots: seq<Bytes>, ms: seq<MoEProof>, from: nat, k: nat)
    requires MoEsVerdict(h, cfg, roots, ms, from) == Accept && from <= k < |ms|
    ensures MoEVerdict(h, cfg, roots, ms[k]) == Accept
    decreases |ms| - from
  {
    hide MoEVerdict;
    if from < k { EachRouted(h, cfg, roots, ms, from + 1, k); }
  }

  lemma {:induction false} EachLookup(ls: seq<LookupProof>, from: nat, k: nat)
    requires LookupsVerdict(ls, from) == Accept && from <= k < |ls|
    ensures LogUpVerdict(ls[k].proof, ls[k].qVals, ls[k].tVals, ls[k].mult, ls[k].alpha) == Accept
    decreases |ls| - from
  {
    hide LogUpVerdict;
    if from < k { EachLookup(ls, from + 1, k); }
  }

  /** Nothing an accepted layer carries went unchecked. */
  lemma FullChecks(h: Hash<Bytes>, cfg: Config, proof: FullLayerProof, gates: seq<Gate>, oracle: RoundOracle)
    requires FullVerdict(h, cfg, proof, gates, oracle) == Accept
    ensures forall k :: 0 <= k < |proof.matmuls| ==> MatmulVerdict(h, cfg, proof.weightRoots, proof.matmuls[k]) == Accept
    ensures forall k :: 0 <= k < |proof.moe| ==> MoEVerdict(h, cfg, proof.weightRoots, proof.moe[k]) == Accept
    ensures BatchVerdict(proof.gateProof, gates, proof.gateZ, proof.gateLambdas, 0, oracle, "gates") == Accept
    ensures forall k :: 0 <= k < |proof.lookups| ==>
      var l := proof.lookups[k]; LogUpVerdict(l.proof, l.qVals, l.tVals, l.mult, l.alpha) == Accept
  {
    hide MatmulVerdict, MoEVerdict, BatchVerdict, LogUpVerdict;
    forall k | 0 <= k < |proof.matmuls| ensures MatmulVerdict(h, cfg, proof.weightRoots, proof.matmuls[k]) == Accept {
      EachMatmul(h, cfg, proof.weightRoots, proof.matmuls, 0, k);
    }
    forall k | 0 <= k < |proof.moe| ensures MoEVerdict(h, cfg, proof.weightRoots, proof.moe[k]) == Accept {
      EachRouted(h, cfg, proof.weightRoots, proof.moe, 0, k);
    }
    forall k | 0 <= k < |proof.lookups|
      ensures var l := proof.lookups[k]; LogUpVerdict(l.proof, l.qVals, l.tVals, l.mult, l.alpha) == Accept
    {
      EachLookup(proof.lookups, 0, k);
    }
  }

  /** Soundness of an accepted full layer, at its k-th matmul. */
  lemma FullMatmulSound(h: Hash<Bytes>, cfg: Config, proof: FullLayerProof, gates: seq<Gate>, oracle: RoundOracle, k: nat,
                        w: Weights<Bytes>, W: Matrix, padding: Padding, xs: Weights<Bytes>, X: Matrix, xPadding: Padding)
    requires Binding(h) && FullVerdict(h, cfg, proof, gates, oracle) == Accept && k < |proof.matmuls|
    requires var m := proof.matmuls[k];
      m.wId < |proof.weightRoots| && Stands(h, cfg, proof.weightRoots[m.wId], w, W, padding)
      && |m.rho| == w.nOut && Wide(cfg, m.wOpening)
      && Stands(h, cfg, m.xRoot, xs, X, xPadding) && |m.tau| == xs.nOut && Wide(cfg, m.aOpening)
    ensures cfg.ELL > 0 && Rectangular(W) && Rectangular(X)
    ensures BlocksAre(cfg, W, proof.matmuls[k].rho, proof.matmuls[k].pBlocks)
    ensures BlocksAre(cfg, X, proof.matmuls[k].tau, proof.matmuls[k].aBlocks)
    ensures forall g :: Built(h, cfg, g) && g.root == proof.matmuls[k].pRoot ==> OpenedAre(cfg, g, proof.matmuls[k].wOpening)
    ensures forall g :: Built(h, cfg, g) && g.root == proof.matmuls[k].aRoot ==> OpenedAre(cfg, g, proof.matmuls[k].aOpening)
  {
    hide *;
    FullChecks(h, cfg, proof, gates, oracle);
    MatmulSound(h, cfg, proof.weightRoots, proof.matmuls[k], w, W, padding, xs, X, xPadding);
  }

  /** And at expert e of its k-th routed node. */
  lemma FullRoutedSound(h: Hash<Bytes>, cfg: Config, proof: FullLayerProof, gates: seq<Gate>, oracle: RoundOracle, k: nat, e: nat,
                        w: Weights<Bytes>, W: Matrix, padding: Padding)
    requires Binding(h) && FullVerdict(h, cfg, proof, gates, oracle) == Accept && k < |proof.moe|
    requires e < |proof.moe[k].pRoots| && e < |proof.moe[k].wOpenings|
    requires e < |proof.moe[k].wIds| && proof.moe[k].wIds[e] < |proof.weightRoots| ==>
      Stands(h, cfg, proof.weightRoots[proof.moe[k].wIds[e]], w, W, padding)
    requires |proof.moe[k].rho| == w.nOut && Wide(cfg, proof.moe[k].wOpenings[e])
    ensures proof.moe[k].scanOk && proof.moe[k].permSrc == proof.moe[k].permDst
    ensures e < |proof.moe[k].pBlocks| && cfg.ELL > 0 && Rectangular(W)
    ensures BlocksAre(cfg, W, proof.moe[k].rho, proof.moe[k].pBlocks[e])
    ensures forall g :: Built(h, cfg, g) && g.root == proof.moe[k].pRoots[e] ==> OpenedAre(cfg, g, proof.moe[k].wOpenings[e])
  {
    hide *;
    FullChecks(h, cfg, proof, gates, oracle);
    RoutedSound(h, cfg, proof.weightRoots, proof.moe[k], e, w, W, padding);
  }

  // ---------------------------------------------------------- gates and lookups

  /** An accepted batch claims the carried-in mask and no more; unmasked with none carried in, either its
      combined residuals sum to zero at the point or some round was lucky. */
  lemma BatchSound(proof: SumcheckProof, gates: seq<Gate>, z: seq<int>, lambdas: seq<int>, mu0: int, oracle: RoundOracle, name: string)
    returns (k: nat)
    requires BatchVerdict(proof, gates, z, lambdas, mu0, oracle, name) == Accept
    requires AllInZoo(gates, Pow2(BatchLog(gates))) && |z| == BatchLog(gates) && |lambdas| == |gates|
    ensures gates != [] && proof.claim % P == mu0 % P
    ensures !proof.masked && mu0 % P != Mle(Residuals(lambdas, gates, Pow2(|z|)), Reverse(z)) ==>
      |proof.roundPolys| == |proof.challenges| == |z| && k < |z|
      && LuckyRound(BatchTerms(Eq(z), lambdas, gates, Pow2(|z|)), |z|, proof.roundPolys, proof.challenges, k)
  {
    hide *;
    PIsPositive();
    BatchVerdictIs(proof, gates, z, lambdas, mu0, oracle, name);
    k := 0;
    if !proof.masked && mu0 % P != Mle(Residuals(lambdas, gates, Pow2(|z|)), Reverse(z)) {
      var terms, coin := BatchTerms(Eq(z), lambdas, gates, Pow2(|z|)), BatchCoins(oracle, name, z, lambdas);
      EqLength(z);
      BatchIsUniform(Eq(z), lambdas, gates, Pow2(|z|));
      UniformSize(terms, Pow2(|z|));
      VerifyResultIs(proof, terms, coin, Pow2(|z|));
      ClaimIsExtension(z, lambdas, gates);
      k := FalseClaimNeedsLuck(proof, terms, |z|, coin);
    }
  }

  /** An accepted lookup passed all four sumchecks and all three comparisons, and the converse. */
  lemma LogUpChecks(proof: LogUpProof, qVals: seq<int>, tVals: seq<int>, mult: seq<int>, alpha: int)
    ensures LogUpVerdict(proof, qVals, tVals, mult, alpha) == Accept <==>
      (&& ProductVerdict(proof.queryConstraint, [Eq(proof.zQuery), PadPow2(proof.rQuery), PadPow2(Diffs(alpha, qVals))]) == Accept
       && ProductVerdict(proof.tableConstraint, [Eq(proof.zTable), PadPow2(proof.rTable), PadPow2(Diffs(alpha, tVals))]) == Accept
       && ProductVerdict(proof.querySum, [PadPow2(proof.rQuery)]) == Accept
       && ProductVerdict(proof.tableSum, [PadPow2(Logup.Weighted(mult, proof.rTable))]) == Accept
       && proof.queryConstraint.claim == SumOf(Eq(proof.zQuery)) % P && proof.tableConstraint.claim == SumOf(Eq(proof.zTable)) % P
       && proof.sumQuery == proof.sumTable)
  {
    hide ProductVerdict, Eq, PadPow2, Diffs, Logup.Weighted, SumOf;
  }

  // ------------------------------------------------------ the flat messages and claims

  /** The sumcheck speaks of the flat messages, the binding of the blocks, and the verifier compares neither
      with the other: whatever flat messages and sumcheck stand in an otherwise accepted proof, it is accepted
      exactly when that sumcheck is. */
  lemma FlatApart(h: Hash<Bytes>, cfg: Config, roots: seq<Bytes>, m: MatmulProof, a: seq<int>, p: seq<int>, s: SumcheckProof)
    requires MatmulVerdict(h, cfg, roots, m) == Accept
    ensures MatmulVerdict(h, cfg, roots, m.(aMessage := a, pMessage := p, sumcheck := s)) == ProductVerdict(s, Sides2(a, p, m.nIn))
  {
    hide SeamVerdict, BindVerdict, ProductVerdict, Sides2;
  }

  /** So any two flat messages come with an accepted claim, their own inner product. */
  lemma AnyFlatAccepted(h: Hash<Bytes>, cfg: Config, roots: seq<Bytes>, m: MatmulProof, a: seq<int>, p: seq<int>, coins: seq<int>)
    requires MatmulVerdict(h, cfg, roots, m) == Accept && |a| == |p| == m.nIn && |coins| >= CeilLog(m.nIn)
    ensures var s := ProductProof(Sides2(a, p, m.nIn), CeilLog(m.nIn), coins);
      MatmulVerdict(h, cfg, roots, m.(aMessage := a, pMessage := p, sumcheck := s)) == Accept && s.claim == Inner(a, p, m.nIn) % P
  {
    var s := ProductProof(Sides2(a, p, m.nIn), CeilLog(m.nIn), coins);
    FlatApart(h, cfg, roots, m, a, p, s);
    WidenedSum(a, p, m.nIn);
    hide *;
    HonestProductAccepted(Sides2(a, p, m.nIn), CeilLog(m.nIn), coins);
  }

  /** The flat messages are, modulo P, the blocks without their tails: what a verifier would compare. */
  ghost predicate FlatOf(cfg: Config, nIn: nat, flat: seq<int>, blocks: Matrix)
    requires cfg.ELL > 0
  {
    |flat| == nIn && forall j :: 0 <= j < nIn ==> flat[j] % P == Slot(cfg, blocks, j) % P
  }

  /** Where they are, an accepted unmasked matmul claims the doubly weighted product of its own tensors, or was
      lucky in a round. */
  lemma ClaimSound(h: Hash<Bytes>, cfg: Config, roots: seq<Bytes>, m: MatmulProof, w: Weights<Bytes>, W: Matrix, padding: Padding,
                   xs: Weights<Bytes>, X: Matrix, xPadding: Padding) returns (k: nat)
    requires Binding(h) && MatmulVerdict(h, cfg, roots, m) == Accept && m.wId < |roots| && !m.sumcheck.masked
    requires Stands(h, cfg, roots[m.wId], w, W, padding) && |m.rho| == w.nOut && Wide(cfg, m.wOpening)
    requires Stands(h, cfg, m.xRoot, xs, X, xPadding) && |m.tau| == xs.nOut && Wide(cfg, m.aOpening)
    requires cfg.ELL > 0 && m.nIn == w.nIn == xs.nIn && FlatOf(cfg, m.nIn, m.pMessage, m.pBlocks) && FlatOf(cfg, m.nIn, m.aMessage, m.aBlocks)
    ensures m.sumcheck.claim % P != Doubled(X, m.tau, W, m.rho, m.nIn) % P ==>
      |m.sumcheck.roundPolys| == |m.sumcheck.challenges| == CeilLog(m.nIn) && k < CeilLog(m.nIn)
      && LuckyRound(OneProduct(Sides2(m.aMessage, m.pMessage, m.nIn)), CeilLog(m.nIn), m.sumcheck.roundPolys, m.sumcheck.challenges, k)
  {
    hide *;
    PIsPositive();
    k := 0;
    MatmulChecks(h, cfg, roots, m);
    MatmulSound(h, cfg, roots, m, w, W, padding, xs, X, xPadding);
    BehindIs(h, cfg, roots[m.wId], w, W, padding);
    BehindIs(h, cfg, m.xRoot, xs, X, xPadding);
    FlatInner(cfg, m.nIn, m.aMessage, m.aBlocks, X, m.tau, m.pMessage, m.pBlocks, W, m.rho);
    ContractionIdentity(X, m.tau, W, m.rho, m.nIn);
    FlatSum(cfg, m.nIn, m.aMessage, m.pMessage, m.aBlocks, m.pBlocks);
    if m.sumcheck.claim % P != Doubled(X, m.tau, W, m.rho, m.nIn) % P {
      SidesAreFactors(m.aMessage, m.pMessage, m.nIn);
      k := ProductSound(m.sumcheck, Sides2(m.aMessage, m.pMessage, m.nIn), CeilLog(m.nIn));
    }
  }

  lemma FlatSum(cfg: Config, n: nat, a: seq<int>, p: seq<int>, aBlocks: Matrix, pBlocks: Matrix)
    requires cfg.ELL > 0 && FlatOf(cfg, n, a, aBlocks) && FlatOf(cfg, n, p, pBlocks)
    ensures ProductSum(Sides2(a, p, n), Pow2(CeilLog(n))) == Inner(a, p, n)
  {
    hide ProductSum, Sides2, Inner, Slot;
    WidenedSum(a, p, n);
  }

  lemma SidesAreFactors(a: seq<int>, p: seq<int>, n: nat)
    ensures Factors(Sides2(a, p, n), CeilLog(n))
  {}

  lemma FlatInner(cfg: Config, n: nat, a: seq<int>, aBlocks: Matrix, X: Matrix, tau: seq<int>, p: seq<int>, pBlocks: Matrix, W: Matrix,
                  rho: seq<int>)
    requires cfg.ELL > 0 && Rectangular(W) && Rectangular(X) && |W[0]| == n == |X[0]|
    requires BlocksAre(cfg, X, tau, aBlocks) && BlocksAre(cfg, W, rho, pBlocks)
    requires FlatOf(cfg, n, a, aBlocks) && FlatOf(cfg, n, p, pBlocks)
    ensures Inner(a, p, n) % P == Inner(Blend(X, tau, n), Blend(W, rho, n), n) % P
  {
    hide Slot, Mix;
    InnerCongruent(a, Blend(X, tau, n), p, Blend(W, rho, n), n);
  }
}
