/** prove_layer as it runs on its scheduled transcript, and the chain: honest layers whose inputs are
    the previous outputs verify by root equality. */
module Chain {
  import opened NumberTheory
  import opened Field
  import opened Polynomial
  import opened Domain
  import opened Rows
  import opened Rs
  import opened Commit
  import opened Projection
  import opened Seam
  import opened Protocol
  import opened Products
  import opened PowerOfTwo
  import opened Contraction
  import opened MatmulStep
  import opened DenseLayer
  import LP = LogupProver
  import T = Transcript

  datatype LayerResult = Refused | AssertionFailed | Proved(proof: LayerProof)

  // ---------------------------------------------------------------- small facts

  lemma LayerParts(l: Layer)
    requires l.Valid()
    ensures l.cfg.Valid() && LP.ByteHash(l.h) && IsLagrangeMatrix(l.cfg, l.L) && l.weights.cfg == l.cfg
    ensures Enrolled(l.h, l.weights, l.W, l.padding) && Rectangular(l.X) && AllWide(l.X, l.weights.nIn)
    ensures |l.X[0]| == l.weights.nIn && |l.W| == l.weights.nOut && l.weights.nBlocks == 1 && l.weights.nIn > 0
    ensures Built(l.h, l.cfg, l.weights.commit)
    ensures l.state.Computed? ==> IsState(l.h, l.cfg, l.W, l.X, l.state)
  {
    hide LP.ByteHash, IsLagrangeMatrix, IsState, Messages;
    OneBlock(l.cfg, l.weights.nIn);
  }

  lemma StateParts(h: Hash<Bytes>, cfg: Config, W: Matrix, X: Matrix, s: State)
    requires IsState(h, cfg, W, X, s) && 0 < |X[0]| <= cfg.ELL
    ensures s.inState.cfg == cfg && Enrolled(h, s.inState, X, NoPadding) && s.inState.nOut == |X| && s.inState.nIn == |X[0]|
    ensures s.inState.nBlocks == 1 && Built(h, cfg, s.inState.commit) && Committed(h, cfg, s.outCommit, Output(X, W, |X[0]|))
    ensures s.Y == Output(X, W, |X[0]|) && IsOutput(s.Y, X, W, |X[0]|)
    ensures cfg.Valid()
  {
    hide Messages, Output, IsOutput;
    OneBlock(cfg, |X[0]|);
    OutputIs(X, W, |X[0]|);
  }

  lemma CommittedParts(h: Hash<Bytes>, cfg: Config, c: Commitment<Bytes>, messages: Matrix)
    ensures Built(h, cfg, c) && c.rows == Encoded(cfg, messages) <==> Committed(h, cfg, c, messages)
  {
    hide Built, Encoded;
  }

  lemma RootFits(h: Hash<Bytes>, cfg: Config, c: Commitment<Bytes>)
    requires LP.ByteHash(h) && Built(h, cfg, c)
    ensures |c.root| < Pow2(64)
  {
    hide LP.ByteHash, Built, Pow2;
    LP.CommitmentRoot(h, cfg, c);
  }

  lemma ZeroRootFits(zeros: Bytes)
    requires |zeros| == 32
    ensures |zeros| < Pow2(64)
  {
    Pow2Monotone(6, 64);
    assert Pow2(6) == 64;
  }

  lemma OpenedIs(h: Hash<Bytes>, cfg: Config, w: Commitment<Bytes>, p: Commitment<Bytes>, columns: seq<int>, o: Opening<Bytes>)
    requires Built(h, cfg, w) && Built(h, cfg, p) && InRange(cfg, columns) && o.columns == columns
    ensures AllWide(w.rows, cfg.N()) && AllWide(p.rows, cfg.N())
    ensures IsOpening(h, cfg, w, p, o) <==> Opened(h, cfg, w, p, columns, o)
  {
    hide IsOpening;
  }

  lemma RangeIs(cfg: Config, columns: seq<int>)
    ensures (forall k :: 0 <= k < |columns| ==> 0 <= columns[k] < cfg.N()) <==> InRange(cfg, columns)
  {}

  lemma YieldsAt(src: ColumnSource, q: nat, nLig: nat, seed: Bytes)
    requires Yields(src, q, nLig)
    ensures nLig > 0
    ensures |FirstSeen((i: nat) => src.challenge(seed)(i) % nLig, src.bound(seed))| >= q
  {}

  /** The first q different columns of a seed. */
  method Columns(src: ColumnSource, seed: Bytes, q: nat, cfg: Config) returns (columns: seq<int>)
    requires Yields(src, q, cfg.N())
    ensures |columns| == q && NoDuplicates(columns) && InRange(cfg, columns) && columns <= ColumnsSeen(src, seed, cfg.N())
  {
    hide FirstSeen;
    var n := cfg.N();
    ghost var draw := src.challenge(seed);
    YieldsAt(src, q, n, seed);
    SameStream(src, seed, n, q);
    columns := SampleRange(src.challenge(seed), q, n, src.bound(seed));
    RangeIs(cfg, columns);
  }

  lemma SameStream(src: ColumnSource, seed: Bytes, n: nat, q: nat)
    requires n > 0 && |FirstSeen((i: nat) => src.challenge(seed)(i) % n, src.bound(seed))| >= q
    ensures var c := src.challenge(seed); |FirstSeen((i: nat) => c(i) % n, src.bound(seed))| >= q
    ensures var c := src.challenge(seed); FirstSeen((i: nat) => c(i) % n, src.bound(seed)) == ColumnsSeen(src, seed, n)
  {
    var c := src.challenge(seed);
    SameDraws((i: nat) => src.challenge(seed)(i) % n, (i: nat) => c(i) % n, src.bound(seed));
  }

  lemma {:induction false} SameDraws(a: nat -> int, b: nat -> int, n: nat)
    requires forall i: nat :: i < n ==> a(i) == b(i)
    ensures FirstSeen(a, n) == FirstSeen(b, n)
  {
    if n > 0 { SameDraws(a, b, n - 1); }
  }

  // ------------------------------------------------------------------ prove_layer

  /** One side's projected commitment. */
  method ProjectSide(h: Hash<Bytes>, w: Weights<Bytes>, chi: seq<int>, ghost W: Matrix, ghost padding: Padding)
    returns (c: Commitment<Bytes>)
    requires Enrolled(h, w, W, padding) && |chi| == w.nOut && LP.ByteHash(h)
    ensures IsSide(h, w, W, padding, chi, c) && Built(h, w.cfg, c) && |c.root| < Pow2(64)
  {
    ghost var blocks := Projected(w.cfg, W, padding, chi, w.nBlocks);
    hide *;
    var r := CommitProjection(h, w, chi, W, padding);
    c := r.value;
    CommittedParts(h, w.cfg, c, blocks);
    SideIs(h, w, W, padding, chi, c);
    RootFits(h, w.cfg, c);
  }

  method OpenSide(h: Hash<Bytes>, cfg: Config, w: Commitment<Bytes>, p: Commitment<Bytes>, columns: seq<int>)
    returns (o: Opening<Bytes>)
    requires Built(h, cfg, w) && Built(h, cfg, p) && InRange(cfg, columns)
    ensures Opened(h, cfg, w, p, columns, o)
  {
    hide *;
    o := OpenProjection(h, cfg, w, p, columns);
    OpenedIs(h, cfg, w, p, columns, o);
  }

  /** The states, then each projection right after its coin. */
  method SeamStage(l: Layer, s: State, tr: T.Transcript)
    returns (ok: bool, rho: seq<int>, tau: seq<int>, p: Commitment<Bytes>, a: Commitment<Bytes>)
    requires l.Valid() && l.state == s && s.Computed? && tr.Valid()
    modifies tr, tr.schedule
    ensures tr.Valid() && (old(On(tr, 0)) ==> ok && On(tr, 6))
    ensures ok ==> |rho| == l.weights.nOut && |tau| == |l.X| && Built(l.h, l.cfg, p) && Built(l.h, l.cfg, a)
    ensures ok ==> IsSide(l.h, l.weights, l.W, l.padding, rho, p) && IsSide(l.h, s.inState, l.X, NoPadding, tau, a)
  {
    DenseSteps();
    hide *;
    LayerParts(l);
    InputFits(l);
    StateParts(l.h, l.cfg, l.W, l.X, s);
    rho, tau, p, a := [], [], s.outCommit, s.outCommit;
    CommittedParts(l.h, l.cfg, s.outCommit, Output(l.X, l.W, l.weights.nIn));
    RootFits(l.h, l.cfg, s.inState.commit);
    RootFits(l.h, l.cfg, s.outCommit);
    ok := Put(tr, 0, "R_in", s.inState.commit.root);
    if !ok { return; }
    ok := Put(tr, 1, "R_out", s.outCommit.root);
    if !ok { return; }
    var r := Draw(tr, 2, "rho", l.weights.nOut);
    ok := r.Drew?;
    if !ok { return; }
    p := ProjectSide(l.h, l.weights, r.values, l.W, l.padding);
    ok := Put(tr, 3, "R_P", p.root);
    if !ok { return; }
    var t := Draw(tr, 4, "tau", |l.X|);
    ok := t.Drew?;
    if !ok { return; }
    a := ProjectSide(l.h, s.inState, t.values, l.X, NoPadding);
    ok := Put(tr, 5, "R_A", a.root);
    rho, tau := r.values, t.values;
  }

  /** A commitment to the projection of an enrolled tensor. */
  ghost predicate IsSide(h: Hash<Bytes>, w: Weights<Bytes>, W: Matrix, padding: Padding, chi: seq<int>, c: Commitment<Bytes>) {
    Enrolled(h, w, W, padding) && Committed(h, w.cfg, c, Projected(w.cfg, W, padding, chi, w.nBlocks))
  }

  /** The prover's run, in the order of the schedule: on a fresh scheduled (or unscheduled)
      transcript it ends with an honest proof, and its identity assertion never fails. */
  method ProveLayer(l: Layer, tr: T.Transcript, q: nat, src: ColumnSource) returns (r: LayerResult, ghost b: Behind)
    requires l.Valid() && tr.Valid() && Yields(src, q, l.cfg.N())
    modifies l, tr, tr.schedule
    ensures l.Valid() && tr.Valid() && r != AssertionFailed
    ensures old(On(tr, 0)) ==> r.Proved?
    ensures r.Proved? ==> IsLayerProof(l.h, l.cfg, l.weights, l.W, l.padding, l.X, r.proof, b)
  {
    DenseSteps();
    hide *;
    if l.state.NotYet? {
      l.Compute();
    }
    var s := l.state;
    LayerParts(l);
    InputFits(l);
    StateParts(l.h, l.cfg, l.W, l.X, s);
    b := Behind(s.inState, s.outCommit, s.outCommit, s.outCommit, []);
    var ok, rho, tau, p, a := SeamStage(l, s, tr);
    if !ok { return Refused, b; }
    var coins := Draw(tr, 6, "sumcheck", RoundCount(l.weights.nIn));
    if coins.Refused? { return Refused, b; }
    var c := Contract(l.h, l.weights, l.W, l.padding, s.inState, l.X, s.Y, rho, tau, coins.values);
    var zeros := seq(32, _ => '\0');
    ZeroRootFits(zeros);
    ok := Put(tr, 7, "R_terminal", zeros);
    if !ok { return Refused, b; }
    var seed := DrawSeed(tr, 8, "columns");
    if seed.NoSeed? { return Refused, b; }
    var columns := Columns(src, seed.seed, q, l.cfg);
    var wO := OpenSide(l.h, l.cfg, l.weights.commit, p, columns);
    var aO := OpenSide(l.h, l.cfg, s.inState.commit, a, columns);
    b := Behind(s.inState, s.outCommit, p, a, coins.values);
    var lp := LayerProof(s.inState.commit.root, s.outCommit.root, p.root, a.root, rho, tau, wO, aO, c.proof,
                         columns, c.pMsg, c.aMsg, c.pBlk, c.aBlk);
    SideIs(l.h, l.weights, l.W, l.padding, rho, p);
    SideIs(l.h, s.inState, l.X, NoPadding, tau, a);
    IsContractionIs(l.h, l.weights, l.W, l.padding, s.inState, l.X, rho, tau, coins.values, c);
    IsLayerProofIs(l.h, l.cfg, l.weights, l.W, l.padding, l.X, lp, b);
    r := if c.failed then AssertionFailed else Proved(lp);
  }

  datatype Contracted = Contracted(pBlk: Matrix, aBlk: Matrix, pMsg: seq<int>, aMsg: seq<int>, proof: SumcheckProof, failed: bool)

  /** The two messages, the sumcheck over them, and the prover's own identity assertion. */
  method Contract(ghost h: Hash<Bytes>, w: Weights<Bytes>, ghost W: Matrix, ghost padding: Padding, xs: Weights<Bytes>,
                  ghost X: Matrix, Y: Matrix, rho: seq<int>, tau: seq<int>, coins: seq<int>) returns (c: Contracted)
    requires Enrolled(h, w, W, padding) && Enrolled(h, xs, X, NoPadding) && IsOutput(Y, X, W, w.nIn) && xs.nIn == w.nIn
    requires |rho| == w.nOut && |tau| == xs.nOut && |coins| >= CeilLog(w.nIn)
    ensures !c.failed && IsContraction(h, w, W, padding, xs, X, rho, tau, coins, c)
  {
    hide *;
    var nIn := w.nIn;
    EnrolledSizes(h, w, W, padding);
    EnrolledSizes(h, xs, X, NoPadding);
    var pBlk, pMsg := ProjectFlat(h, w, rho, W, padding);
    var aBlk, aMsg := ProjectFlat(h, xs, tau, X, NoPadding);
    var proof := ProveProduct(Sides2(aMsg, pMsg, nIn), coins, CeilLog(nIn));
    var direct := DirectSum(tau, rho, Y, X, W, nIn);
    ContractionAccepted(X, tau, W, rho, nIn, coins);
    c := Contracted(pBlk, aBlk, pMsg, aMsg, proof, proof.claim != direct);
    IsContractionIs(h, w, W, padding, xs, X, rho, tau, coins, c);
  }

  lemma EnrolledSizes(h: Hash<Bytes>, w: Weights<Bytes>, W: Matrix, padding: Padding)
    requires Enrolled(h, w, W, padding)
    ensures w.nOut == |W| > 0 && w.nIn == |W[0]| && AllWide(W, w.nIn) && w.cfg.Valid() && Built(h, w.cfg, w.commit)
    ensures Rectangular(W) && w.cfg.ELL > 0 && w.nBlocks == Blocks(w.cfg, w.nIn) && PaddingFits(w.cfg, W, padding)
  {
    hide Messages, Built;
  }

  ghost predicate IsContraction(h: Hash<Bytes>, w: Weights<Bytes>, W: Matrix, padding: Padding, xs: Weights<Bytes>, X: Matrix,
                                rho: seq<int>, tau: seq<int>, coins: seq<int>, c: Contracted) {
    && Enrolled(h, w, W, padding) && Enrolled(h, xs, X, NoPadding)
    && c.pBlk == Projected(w.cfg, W, padding, rho, w.nBlocks) && c.aBlk == Projected(xs.cfg, X, NoPadding, tau, xs.nBlocks)
    && c.pMsg == Mixed(W, rho, w.nIn) && c.aMsg == Mixed(X, tau, w.nIn)
    && c.proof == ProductProof(Sides2(c.aMsg, c.pMsg, w.nIn), CeilLog(w.nIn), coins)
  }

  lemma IsContractionIs(h: Hash<Bytes>, w: Weights<Bytes>, W: Matrix, padding: Padding, xs: Weights<Bytes>, X: Matrix,
                        rho: seq<int>, tau: seq<int>, coins: seq<int>, c: Contracted)
    requires Enrolled(h, w, W, padding) && Enrolled(h, xs, X, NoPadding)
    ensures IsContraction(h, w, W, padding, xs, X, rho, tau, coins, c)
      <==> (c.pBlk == Projected(w.cfg, W, padding, rho, w.nBlocks) && c.aBlk == Projected(xs.cfg, X, NoPadding, tau, xs.nBlocks)
            && c.pMsg == Mixed(W, rho, w.nIn) && c.aMsg == Mixed(X, tau, w.nIn)
            && c.proof == ProductProof(Sides2(c.aMsg, c.pMsg, w.nIn), CeilLog(w.nIn), coins))
  {
    hide Projected, Mixed, ProductProof, Sides2;
  }

  lemma SideIs(h: Hash<Bytes>, w: Weights<Bytes>, W: Matrix, padding: Padding, chi: seq<int>, c: Commitment<Bytes>)
    requires Enrolled(h, w, W, padding)
    ensures IsSide(h, w, W, padding, chi, c) <==> Committed(h, w.cfg, c, Projected(w.cfg, W, padding, chi, w.nBlocks))
  {
    hide Committed, Projected;
  }

  lemma InputFits(l: Layer)
    requires l.Valid()
    ensures 0 < l.weights.nIn <= l.cfg.ELL
  {}

  /** max(width.bit_length() - 1, 1) for the padded width. */
  function RoundCount(nIn: nat): (n: nat)
    ensures n >= CeilLog(nIn)
  {
    Log2OfPow2(CeilLog(nIn));
    var bits := Log2(Pow2(CeilLog(nIn)));
    if bits >= 1 then bits else 1
  }

  lemma IsLayerProofIs(h: Hash<Bytes>, cfg: Config, w: Weights<Bytes>, W: Matrix, padding: Padding, X: Matrix,
                       proof: LayerProof, b: Behind)
    requires w.cfg == cfg && b.xs.cfg == cfg && Enrolled(h, w, W, padding) && Enrolled(h, b.xs, X, NoPadding)
    requires w.nBlocks == 1 == b.xs.nBlocks && b.xs.nIn == w.nIn
    requires proof.inRoot == b.xs.commit.root && proof.outRoot == b.out.root && proof.pRoot == b.p.root && proof.aRoot == b.a.root
    requires Committed(h, cfg, b.out, Output(X, W, w.nIn)) && |proof.rho| == w.nOut && |proof.tau| == b.xs.nOut
    requires proof.pBlocks == Projected(cfg, W, padding, proof.rho, 1) && proof.aBlocks == Projected(cfg, X, NoPadding, proof.tau, 1)
    requires Committed(h, cfg, b.p, proof.pBlocks) && Committed(h, cfg, b.a, proof.aBlocks)
    requires Opened(h, cfg, w.commit, b.p, proof.columns, proof.wOpening)
    requires Opened(h, cfg, b.xs.commit, b.a, proof.columns, proof.aOpening)
    requires proof.pMessage == Mixed(W, proof.rho, w.nIn) && proof.aMessage == Mixed(X, proof.tau, w.nIn)
    requires |b.coins| >= CeilLog(w.nIn)
    requires proof.sumcheck == ProductProof(Sides2(proof.aMessage, proof.pMessage, w.nIn), CeilLog(w.nIn), b.coins)
    ensures IsLayerProof(h, cfg, w, W, padding, X, proof, b)
  {
    hide Enrolled, Committed, Opened, Mixed, ProductProof, Projected, Output, Sides2;
  }

  // -------------------------------------------------------------------- the chain

  /** verify_chain from layer l on: each layer's verdict, then its link to the one before. */
  ghost function ChainVerdict(h: Hash<Bytes>, cfg: Config, wRoots: seq<Bytes>, proofs: seq<LayerProof>, nIns: seq<nat>, l: nat): Verdict
    requires |wRoots| >= |proofs| && |nIns| >= |proofs|
    decreases |proofs| - l
  {
    if l >= |proofs| then Accept
    else
      var v := LayerVerdict(h, cfg, wRoots[l], proofs[l], nIns[l]);
      if !v.Accept? then v
      else if l > 0 && proofs[l].inRoot != proofs[l - 1].outRoot then Reject
      else ChainVerdict(h, cfg, wRoots, proofs, nIns, l + 1)
  }

  method VerifyChain(h: Hash<Bytes>, cfg: Config, L: seq<seq<int>>, wRoots: seq<Bytes>, proofs: seq<LayerProof>, nIns: seq<nat>)
    returns (v: Verdict)
    requires cfg.Valid() && IsLagrangeMatrix(cfg, L) && |wRoots| >= |proofs| && |nIns| >= |proofs|
    ensures v == ChainVerdict(h, cfg, wRoots, proofs, nIns, 0)
  {
    hide LayerVerdict, IsLagrangeMatrix;
    for l := 0 to |proofs|
      invariant ChainVerdict(h, cfg, wRoots, proofs, nIns, l) == ChainVerdict(h, cfg, wRoots, proofs, nIns, 0)
    {
      v := VerifyLayer(h, cfg, L, wRoots[l], proofs[l], nIns[l]);
      if !v.Accept? { return; }
      if l > 0 && proofs[l].inRoot != proofs[l - 1].outRoot {
        return Reject;
      }
    }
    v := Accept;
  }

  /** An accepted chain is accepted layer by layer and spliced nowhere, and the converse. */
  lemma {:induction false} ChainAccepted(h: Hash<Bytes>, cfg: Config, wRoots: seq<Bytes>, proofs: seq<LayerProof>, nIns: seq<nat>, l: nat)
    requires |wRoots| >= |proofs| && |nIns| >= |proofs|
    ensures ChainVerdict(h, cfg, wRoots, proofs, nIns, l) == Accept
            <==> forall k :: l <= k < |proofs| ==> LayerVerdict(h, cfg, wRoots[k], proofs[k], nIns[k]) == Accept && LinkedTo(proofs, k)
    decreases |proofs| - l
  {
    hide LayerVerdict;
    if l < |proofs| { ChainAccepted(h, cfg, wRoots, proofs, nIns, l + 1); }
  }

  predicate LinkedTo(proofs: seq<LayerProof>, k: nat) {
    k > 0 && k < |proofs| ==> proofs[k].inRoot == proofs[k - 1].outRoot
  }

  /** Zero padding to ELL does not change a codeword. */
  lemma PaddedCodeword(cfg: Config, m: seq<int>, padded: seq<int>)
    requires |m| <= |padded| == cfg.ELL && padded[..|m|] == m && forall j :: |m| <= j < |padded| ==> padded[j] == 0
    ensures Codeword(cfg, padded) == Codeword(cfg, m)
  {
    assert padded == Padded(m, cfg.ELL);
    forall x ensures Eval(MessagePoly(cfg, padded), x) == Eval(MessagePoly(cfg, m), x) {
      PaddingIsFree(cfg, m, cfg.ELL, x);
    }
    assert Codeword(cfg, padded) == Codeword(cfg, m);
  }

  /** Enrolling a one-block state without padding commits to the rows themselves. */
  lemma StateRows(h: Hash<Bytes>, w: Weights<Bytes>, X: Matrix)
    requires Enrolled(h, w, X, NoPadding) && 0 < w.nIn <= w.cfg.ELL
    ensures w.commit.rows == Encoded(w.cfg, X)
  {
    OneBlock(w.cfg, w.nIn);
    BlockOf(w.cfg, X, NoPadding, 1, 0);
    assert w.messages == w.messages[0..0 + |X|];
    hide Codeword, Messages;
    forall i | 0 <= i < |X| ensures Codeword(w.cfg, w.messages[i]) == Codeword(w.cfg, X[i]) {
      UnpaddedRow(w.cfg, X, i);
      PaddedCodeword(w.cfg, X[i], w.messages[i]);
    }
  }

  lemma UnpaddedRow(cfg: Config, X: Matrix, i: nat)
    requires cfg.ELL > 0 && Rectangular(X) && 0 < |X[0]| <= cfg.ELL && Blocks(cfg, |X[0]|) == 1 && i < |X|
    ensures var r := BlockRows(cfg, X, NoPadding, 0)[i];
      |r| == cfg.ELL && r[..|X[i]|] == X[i] && forall j :: |X[i]| <= j < |r| ==> r[j] == 0
  {
    assert Lo(cfg, 0) == 0 && Hi(cfg, |X[0]|, 0) == |X[0]|;
    assert BlockRows(cfg, X, NoPadding, 0)[i] == MessageRow(cfg, X, NoPadding, 0, i);
  }

  /** The link: a layer fed with the previous output opens under the previous output root. */
  lemma RootsLink(h: Hash<Bytes>, cfg: Config, w: Weights<Bytes>, W: Matrix, padding: Padding, X: Matrix, proof: LayerProof, b: Behind,
                  w': Weights<Bytes>, W': Matrix, padding': Padding, X': Matrix, proof': LayerProof, b': Behind)
    requires IsLayerProof(h, cfg, w, W, padding, X, proof, b) && IsLayerProof(h, cfg, w', W', padding', X', proof', b')
    requires X' == Output(X, W, w.nIn) && 0 < w'.nIn <= cfg.ELL
    ensures proof'.inRoot == proof.outRoot
  {
    hide Messages, Encoded, Output, ProductProof, Projected, Mixed, Opened;
    StateRows(h, b'.xs, X');
    assert b'.xs.commit.rows == b.out.rows;
  }

  /** What the k-th of a chain's layers starts from. */
  datatype Link = Link(w: Weights<Bytes>, W: Matrix, padding: Padding, X: Matrix)

  ghost predicate HonestAt(h: Hash<Bytes>, cfg: Config, k: Link, proof: LayerProof, b: Behind) {
    0 < k.w.nIn <= cfg.ELL && IsLayerProof(h, cfg, k.w, k.W, k.padding, k.X, proof, b)
  }

  /** Each input is the previous layer's output. */
  ghost predicate Fed(links: seq<Link>) {
    forall k :: 1 <= k < |links| ==> links[k].X == Output(links[k - 1].X, links[k - 1].W, links[k - 1].w.nIn)
  }

  /** Honest layers feeding one another are accepted as a chain, of any length and shapes. */
  lemma HonestChainAccepted(h: Hash<Bytes>, cfg: Config, links: seq<Link>, proofs: seq<LayerProof>, behind: seq<Behind>,
                            wRoots: seq<Bytes>, nIns: seq<nat>)
    requires |links| == |proofs| == |behind| == |wRoots| == |nIns| && Fed(links)
    requires forall k :: 0 <= k < |links| ==> HonestAt(h, cfg, links[k], proofs[k], behind[k])
    requires forall k :: 0 <= k < |links| ==> wRoots[k] == links[k].w.commit.root && nIns[k] == links[k].w.nIn
    ensures ChainVerdict(h, cfg, wRoots, proofs, nIns, 0) == Accept
  {
    hide LayerVerdict, IsLayerProof, Output;
    forall k | 0 <= k < |proofs|
      ensures LayerVerdict(h, cfg, wRoots[k], proofs[k], nIns[k]) == Accept && LinkedTo(proofs, k)
    {
      var a := links[k];
      assert HonestAt(h, cfg, a, proofs[k], behind[k]);
      HonestLayerAccepted(h, cfg, a.w, a.W, a.padding, a.X, proofs[k], behind[k]);
      if k > 0 {
        var z := links[k - 1];
        assert HonestAt(h, cfg, z, proofs[k - 1], behind[k - 1]);
        RootsLink(h, cfg, z.w, z.W, z.padding, z.X, proofs[k - 1], behind[k - 1], a.w, a.W, a.padding, a.X, proofs[k], behind[k]);
      }
    }
    ChainAccepted(h, cfg, wRoots, proofs, nIns, 0);
  }

  ghost predicate Distinct(layers: seq<Layer>) {
    forall i, j :: 0 <= i < j < |layers| ==> layers[i] != layers[j]
  }

  ghost function LinkOf(l: Layer): Link {
    Link(l.weights, l.W, l.padding, l.X)
  }

  ghost function LinksOf(layers: seq<Layer>): (links: seq<Link>)
    ensures |links| == |layers| && forall k :: 0 <= k < |links| ==> links[k] == LinkOf(layers[k])
  {
    seq(|layers|, k requires 0 <= k < |layers| => LinkOf(layers[k]))
  }

  /** The first layers' proofs are honest. */
  ghost predicate AllHonest(h: Hash<Bytes>, cfg: Config, links: seq<Link>, proofs: seq<LayerProof>, behind: seq<Behind>) {
    |proofs| == |behind| <= |links| && forall k :: 0 <= k < |proofs| ==> HonestAt(h, cfg, links[k], proofs[k], behind[k])
  }

  lemma AllHonestSnoc(h: Hash<Bytes>, cfg: Config, links: seq<Link>, proofs: seq<LayerProof>, behind: seq<Behind>,
                      proof: LayerProof, b: Behind)
    requires AllHonest(h, cfg, links, proofs, behind) && |proofs| < |links| && HonestAt(h, cfg, links[|proofs|], proof, b)
    ensures AllHonest(h, cfg, links, proofs + [proof], behind + [b])
  {
    hide HonestAt;
  }

  /** Ready to be proved under one hash and configuration. */
  ghost predicate AllReady(h: Hash<Bytes>, cfg: Config, layers: seq<Layer>)
    reads layers
  {
    forall k :: 0 <= k < |layers| ==> layers[k].Valid() && layers[k].h == h && layers[k].cfg == cfg
  }

  /** One layer on a scheduled transcript of its own: never refused. */
  method ProveOne(l: Layer, oracle: T.Oracle, domain: Bytes, q: nat, src: ColumnSource) returns (proof: LayerProof, ghost b: Behind)
    requires l.Valid() && Yields(src, q, l.cfg.N())
    modifies l
    ensures l.Valid() && HonestAt(l.h, l.cfg, LinkOf(l), proof, b)
  {
    hide IsLayerProof, Setup, IsState, Yields;
    InputFits(l);
    var schedule := new T.Schedule(DENSE_LAYER_SCHEDULE);
    var tr := new T.Transcript(oracle, domain, schedule);
    var r;
    r, b := ProveLayer(l, tr, q, src);
    proof := r.proof;
  }

  /** prove_chain: layer after layer. */
  method ProveChain(h: Hash<Bytes>, cfg: Config, layers: seq<Layer>, oracle: T.Oracle, domains: nat -> Bytes, q: nat, src: ColumnSource)
    returns (proofs: seq<LayerProof>, ghost behind: seq<Behind>)
    requires Distinct(layers) && Yields(src, q, cfg.N()) && AllReady(h, cfg, layers)
    modifies layers
    ensures |proofs| == |layers| && AllHonest(h, cfg, LinksOf(layers), proofs, behind)
  {
    ghost var links := LinksOf(layers);
    proofs, behind := [], [];
    assert AllHonest(h, cfg, links, proofs, behind);
    hide *;
    for l := 0 to |layers|
      invariant |proofs| == |behind| == l && AllReady(h, cfg, layers)
      invariant AllHonest(h, cfg, links, proofs, behind)
    {
      proofs, behind := ProveNext(h, cfg, layers, oracle, domains(l), q, src, proofs, behind);
    }
  }

  method ProveNext(h: Hash<Bytes>, cfg: Config, layers: seq<Layer>, oracle: T.Oracle, domain: Bytes, q: nat, src: ColumnSource,
                   before: seq<LayerProof>, ghost behind0: seq<Behind>) returns (proofs: seq<LayerProof>, ghost behind: seq<Behind>)
    requires Distinct(layers) && Yields(src, q, cfg.N()) && AllReady(h, cfg, layers) && |before| < |layers|
    requires AllHonest(h, cfg, LinksOf(layers), before, behind0)
    modifies layers
    ensures AllReady(h, cfg, layers) && |proofs| == |behind| == |before| + 1
    ensures AllHonest(h, cfg, LinksOf(layers), proofs, behind)
  {
    hide HonestAt, Setup, IsState, Yields, AllHonest, Layer.Valid;
    var l := |before|;
    var proof;
    ghost var b;
    proof, b := ProveOne(layers[l], oracle, domain, q, src);
    AllHonestSnoc(h, cfg, LinksOf(layers), before, behind0, proof, b);
    assert |before| == |behind0| by { AllHonestSizes(h, cfg, LinksOf(layers), before, behind0); }
    proofs, behind := before + [proof], behind0 + [b];
  }

  lemma AllHonestSizes(h: Hash<Bytes>, cfg: Config, links: seq<Link>, proofs: seq<LayerProof>, behind: seq<Behind>)
    requires AllHonest(h, cfg, links, proofs, behind)
    ensures |proofs| == |behind| <= |links|
  {}

  /** A stack of layers proved and verified end to end. */
  method ProveThenVerifyChain(h: Hash<Bytes>, cfg: Config, L: seq<seq<int>>, layers: seq<Layer>, oracle: T.Oracle,
                              domains: nat -> Bytes, q: nat, src: ColumnSource) returns (v: Verdict)
    requires cfg.Valid() && IsLagrangeMatrix(cfg, L) && Distinct(layers) && Yields(src, q, cfg.N())
    requires AllReady(h, cfg, layers) && Fed(LinksOf(layers))
    modifies layers
    ensures v == Accept
  {
    hide Setup, IsState, Yields, IsLagrangeMatrix, HonestAt, Output, ChainVerdict, AllReady, Fed;
    ghost var links := LinksOf(layers);
    var proofs;
    ghost var behind;
    proofs, behind := ProveChain(h, cfg, layers, oracle, domains, q, src);
    var wRoots := seq(|layers|, k requires 0 <= k < |layers| => layers[k].weights.commit.root);
    var nIns := seq(|layers|, k requires 0 <= k < |layers| => layers[k].weights.nIn);
    AllHonestSizes(h, cfg, links, proofs, behind);
    HonestChainAccepted(h, cfg, links, proofs, behind, wRoots, nIns);
    v := VerifyChain(h, cfg, L, wRoots, proofs, nIns);
  }
}
