/** layergkr/layer.py: one dense layer proved through both projection seams and a sumcheck, and a
    chain of layers linked by root equality alone. */
module DenseLayer {
  import opened NumberTheory
  import opened Field
  import opened Polynomial
  import opened Domain
  import opened Rows
  import opened Rs
  import opened Commit
  import opened Projection
  import opened Seam
  import opened Merkle
  import opened Protocol
  import opened Products
  import opened PowerOfTwo
  import opened Contraction
  import opened MatmulStep
  import LP = LogupProver
  import T = Transcript

  type Bytes = T.Bytes

  // --------------------------------------------------------------- the schedule

  const DENSE_LAYER_SCHEDULE: seq<T.Step> := [
    T.Step("absorb", "R_in"), T.Step("absorb", "R_out"), T.Step("coin", "rho"), T.Step("absorb", "R_P"),
    T.Step("coin", "tau"), T.Step("absorb", "R_A"), T.Step("coin", "sumcheck"), T.Step("absorb", "R_terminal"),
    T.Step("coin", "columns")]

  /** The transcript stands before step k, or follows no schedule at all. */
  ghost predicate On(tr: T.Transcript, k: nat)
    reads tr, tr.schedule
  {
    tr.Valid() && (tr.schedule != null ==> tr.schedule.steps == DENSE_LAYER_SCHEDULE && tr.schedule.pos == k)
  }

  method Put(tr: T.Transcript, ghost k: nat, name: string, data: Bytes) returns (ok: bool)
    requires tr.Valid() && |name| < 65536 && |data| < Pow2(64)
    modifies tr, tr.schedule
    ensures tr.Valid()
    ensures old(On(tr, k)) && k < 9 && DENSE_LAYER_SCHEDULE[k] == T.Step("absorb", name) ==> ok && On(tr, k + 1)
  {
    hide T.FedBy, T.Steps, Pow2;
    ok := tr.Absorb(name, data);
  }

  method Draw(tr: T.Transcript, ghost k: nat, name: string, count: nat) returns (d: T.Drawn)
    requires tr.Valid() && |name| < 65536
    modifies tr, tr.schedule
    ensures tr.Valid() && (d.Drew? ==> |d.values| == count)
    ensures old(On(tr, k)) && k < 9 && DENSE_LAYER_SCHEDULE[k] == T.Step("coin", name) ==> d.Drew? && On(tr, k + 1)
  {
    hide T.FedBy, T.Steps;
    d := tr.DrawCoin(name, count);
  }

  method DrawSeed(tr: T.Transcript, ghost k: nat, name: string) returns (d: T.Seeded)
    requires tr.Valid() && |name| < 65536
    modifies tr, tr.schedule
    ensures tr.Valid()
    ensures old(On(tr, k)) && k < 9 && DENSE_LAYER_SCHEDULE[k] == T.Step("coin", name) ==> d.Seed? && On(tr, k + 1)
  {
    hide T.FedBy, T.Steps;
    d := tr.CoinBytes(name);
  }

  lemma DenseSteps()
    ensures DENSE_LAYER_SCHEDULE[0] == T.Step("absorb", "R_in") && DENSE_LAYER_SCHEDULE[1] == T.Step("absorb", "R_out")
    ensures DENSE_LAYER_SCHEDULE[2] == T.Step("coin", "rho") && DENSE_LAYER_SCHEDULE[3] == T.Step("absorb", "R_P")
    ensures DENSE_LAYER_SCHEDULE[4] == T.Step("coin", "tau") && DENSE_LAYER_SCHEDULE[5] == T.Step("absorb", "R_A")
    ensures DENSE_LAYER_SCHEDULE[6] == T.Step("coin", "sumcheck") && DENSE_LAYER_SCHEDULE[7] == T.Step("absorb", "R_terminal")
    ensures DENSE_LAYER_SCHEDULE[8] == T.Step("coin", "columns") && |DENSE_LAYER_SCHEDULE| == 9
  {}

  // ------------------------------------------------------------- column sampling

  /** challenge(seed, i, "cols"), and how many draws it takes to see q different columns. */
  datatype ColumnSource = ColumnSource(challenge: Bytes -> nat -> int, ghost bound: Bytes -> nat)

  ghost predicate Yields(src: ColumnSource, q: nat, nLig: nat) {
    nLig > 0 && forall seed :: |FirstSeen((i: nat) => src.challenge(seed)(i) % nLig, src.bound(seed))| >= q
  }

  /** The different columns the first draws of a seed show, in order of first appearance. */
  ghost function ColumnsSeen(src: ColumnSource, seed: Bytes, nLig: nat): seq<int>
    requires nLig > 0
  {
    FirstSeen((i: nat) => src.challenge(seed)(i) % nLig, src.bound(seed))
  }

  /** Columns from a stream of challenges. */
  method SampleRange(challenge: nat -> int, q: nat, nLig: nat, ghost bound: nat) returns (columns: seq<int>)
    requires nLig > 0 && |FirstSeen((i: nat) => challenge(i) % nLig, bound)| >= q
    ensures |columns| == q && NoDuplicates(columns) && forall k :: 0 <= k < q ==> 0 <= columns[k] < nLig
    ensures columns <= FirstSeen((i: nat) => challenge(i) % nLig, bound)
  {
    columns := SampleColumns(challenge, q, nLig, bound);
  }

  // ------------------------------------------------------------------- the layer

  /** Y = X W^T, reduced. */
  function Output(X: Matrix, W: Matrix, n: nat): (Y: Matrix)
    ensures |Y| == |X| && AllWide(Y, |W|)
    ensures forall t, i :: 0 <= t < |X| && 0 <= i < |W| ==> Y[t][i] == Inner(X[t], W[i], n) % P
  {
    seq(|X|, t requires 0 <= t < |X| => seq(|W|, i requires 0 <= i < |W| => Inner(X[t], W[i], n) % P))
  }

  lemma OutputIs(X: Matrix, W: Matrix, n: nat)
    ensures IsOutput(Output(X, W, n), X, W, n)
  {
    forall t, i | 0 <= t < |X| && 0 <= i < |W| ensures Output(X, W, n)[t][i] % P == Inner(X[t], W[i], n) % P {
      ModMod(Inner(X[t], W[i], n), P);
    }
  }

  datatype State = NotYet | Computed(Y: Matrix, inState: Weights<Bytes>, outCommit: Commitment<Bytes>)

  ghost predicate IsState(h: Hash<Bytes>, cfg: Config, W: Matrix, X: Matrix, s: State) {
    && s.Computed? && Rectangular(X) && s.Y == Output(X, W, |X[0]|)
    && s.inState.cfg == cfg && Enrolled(h, s.inState, X, NoPadding)
    && Built(h, cfg, s.outCommit) && s.outCommit.rows == Encoded(cfg, s.Y)
  }

  /** What a layer is made of; widths up to ELL, so each tensor is one block. */
  ghost predicate Setup(h: Hash<Bytes>, cfg: Config, L: seq<seq<int>>, w: Weights<Bytes>, W: Matrix, padding: Padding, X: Matrix) {
    && cfg.Valid() && LP.ByteHash(h) && IsLagrangeMatrix(cfg, L) && w.cfg == cfg && Enrolled(h, w, W, padding)
    && Rectangular(X) && |X[0]| == w.nIn && 0 < w.nIn <= cfg.ELL && w.nOut <= cfg.ELL
  }

  class Layer {
    const h: Hash<Bytes>
    const cfg: Config
    const L: seq<seq<int>>
    const weights: Weights<Bytes>
    const X: Matrix
    var state: State
    ghost const W: Matrix
    ghost const padding: Padding

    ghost predicate Valid()
      reads this
    {
      Setup(h, cfg, L, weights, W, padding, X) && (state.Computed? ==> IsState(h, cfg, W, X, state))
    }

    constructor (h: Hash<Bytes>, cfg: Config, L: seq<seq<int>>, weights: Weights<Bytes>, X: Matrix, ghost W: Matrix,
                 ghost padding: Padding)
      requires Setup(h, cfg, L, weights, W, padding, X)
      ensures Valid() && state == NotYet && this.h == h && this.cfg == cfg && this.weights == weights && this.X == X
      ensures this.W == W && this.padding == padding && this.L == L
    {
      this.h, this.cfg, this.L, this.weights, this.X := h, cfg, L, weights, X;
      this.W, this.padding := W, padding;
      state := NotYet;
    }

    /** The output, and the commitments to both states. */
    method Compute()
      requires Valid()
      modifies this
      ensures Valid() && state.Computed?
    {
      hide IsLagrangeMatrix, LP.ByteHash, Output, Messages, Inner;
      OneBlockCarries(cfg, W, padding);
      var Y := MessageProduct(X, weights.messages, weights.nIn, weights.nOut, W);
      var inState := Enroll(h, cfg, L, X, NoPadding);
      var out := FromMessages(h, cfg, L, Y);
      state := Computed(Y, inState.value, out.value);
    }
  }

  /** The messages carry the weights in their first n slots. */
  ghost predicate Carries(messages: Matrix, W: Matrix, n: nat) {
    |messages| == |W| && forall i :: 0 <= i < |W| ==> |messages[i]| >= n && |W[i]| == n && messages[i][..n] == W[i]
  }

  lemma OneBlockCarries(cfg: Config, W: Matrix, padding: Padding)
    requires cfg.ELL > 0 && Rectangular(W) && 0 < |W[0]| <= cfg.ELL && PaddingFits(cfg, W, padding)
    ensures Carries(Messages(cfg, W, padding, Blocks(cfg, |W[0]|)), W, |W[0]|)
  {
    OneBlock(cfg, |W[0]|);
    BlockOf(cfg, W, padding, 1, 0);
    var messages := Messages(cfg, W, padding, 1);
    assert messages == messages[0..0 + |W|];
    hide *;
    FirstBlockCarries(cfg, W, padding);
  }

  lemma FirstBlockCarries(cfg: Config, W: Matrix, padding: Padding)
    requires cfg.ELL > 0 && Rectangular(W) && 0 < |W[0]| <= cfg.ELL && PaddingFits(cfg, W, padding)
    requires Blocks(cfg, |W[0]|) == 1
    ensures Carries(BlockRows(cfg, W, padding, 0), W, |W[0]|)
  {
    hide MessageRow, Blocks, PaddingFits, BlockRows;
    forall i | 0 <= i < |W|
      ensures |BlockRows(cfg, W, padding, 0)[i]| >= |W[0]| && BlockRows(cfg, W, padding, 0)[i][..|W[0]|] == W[i]
    {
      BlockRow(cfg, W, padding, i);
    }
  }

  /** Y[t][i] = sum_j X[t][j] * messages[i][j] */
  method MessageProduct(X: Matrix, messages: Matrix, nIn: nat, nOut: nat, ghost W: Matrix) returns (Y: Matrix)
    requires Carries(messages, W, nIn) && |W| == nOut && AllWide(X, nIn)
    ensures Y == Output(X, W, nIn)
  {
    hide Inner;
    Y := [];
    for t := 0 to |X|
      invariant |Y| == t && AllWide(Y, |W|)
      invariant forall s, i :: 0 <= s < t && 0 <= i < |W| ==> Y[s][i] == Inner(X[s], W[i], nIn) % P
    {
      var row: seq<int> := [];
      for i := 0 to nOut
        invariant |row| == i && forall k :: 0 <= k < i ==> row[k] == Inner(X[t], W[k], nIn) % P
      {
        var sum := RowProduct(X[t], messages[i], W[i], nIn);
        row := row + [sum % P];
      }
      Y := Y + [row];
    }
    SameMatrix(Y, Output(X, W, nIn), |W|);
  }

  method RowProduct(x: seq<int>, message: seq<int>, ghost row: seq<int>, n: nat) returns (sum: int)
    requires |x| == n == |row| && |message| >= n && message[..n] == row
    ensures sum == Inner(x, row, n)
  {
    sum := 0;
    for j := 0 to n
      invariant sum == Inner(x, row, j)
    {
      assert message[j] == message[..n][j];
      sum := sum + x[j] * message[j];
    }
  }

  lemma OneBlock(cfg: Config, n: nat)
    requires cfg.ELL > 0 && 0 < n <= cfg.ELL
    ensures Blocks(cfg, n) == 1
  {
    BlockFits(cfg, n, 0);
    BlockFits(cfg, n, 1);
  }

  lemma BlockRow(cfg: Config, W: Matrix, padding: Padding, i: nat)
    requires cfg.ELL > 0 && Rectangular(W) && 0 < |W[0]| <= cfg.ELL && PaddingFits(cfg, W, padding) && i < |W|
    requires Blocks(cfg, |W[0]|) == 1
    ensures |BlockRows(cfg, W, padding, 0)[i]| == cfg.ELL
    ensures forall j :: 0 <= j < |W[0]| ==> BlockRows(cfg, W, padding, 0)[i][j] == W[i][j]
  {
    assert Lo(cfg, 0) == 0;
    assert BlockRows(cfg, W, padding, 0)[i] == MessageRow(cfg, W, padding, 0, i);
  }

  // ------------------------------------------------------------------- the proof

  datatype LayerProof = LayerProof(
    inRoot: Bytes, outRoot: Bytes, pRoot: Bytes, aRoot: Bytes, rho: seq<int>, tau: seq<int>,
    wOpening: Opening<Bytes>, aOpening: Opening<Bytes>, sumcheck: SumcheckProof, columns: seq<int>,
    pMessage: seq<int>, aMessage: seq<int>, pBlocks: Matrix, aBlocks: Matrix)

  /** The prover's own data behind a proof. */
  datatype Behind = Behind(xs: Weights<Bytes>, out: Commitment<Bytes>, p: Commitment<Bytes>, a: Commitment<Bytes>, coins: seq<int>)

  ghost predicate Committed(h: Hash<Bytes>, cfg: Config, c: Commitment<Bytes>, messages: Matrix) {
    Built(h, cfg, c) && c.rows == Encoded(cfg, messages)
  }

  ghost predicate Opened(h: Hash<Bytes>, cfg: Config, w: Commitment<Bytes>, p: Commitment<Bytes>, columns: seq<int>,
                         o: Opening<Bytes>) {
    && AllWide(w.rows, cfg.N()) && AllWide(p.rows, cfg.N()) && InRange(cfg, columns)
    && o.columns == columns && IsOpening(h, cfg, w, p, o)
  }

  /** The honest proof of X against the enrolled W. */
  ghost predicate IsLayerProof(h: Hash<Bytes>, cfg: Config, w: Weights<Bytes>, W: Matrix, padding: Padding, X: Matrix,
                               proof: LayerProof, b: Behind) {
    && w.cfg == cfg && b.xs.cfg == cfg && Enrolled(h, w, W, padding) && Enrolled(h, b.xs, X, NoPadding)
    && w.nBlocks == 1 == b.xs.nBlocks && b.xs.nIn == w.nIn
    && proof.inRoot == b.xs.commit.root && proof.outRoot == b.out.root && proof.pRoot == b.p.root && proof.aRoot == b.a.root
    && Committed(h, cfg, b.out, Output(X, W, w.nIn)) && |proof.rho| == w.nOut && |proof.tau| == b.xs.nOut
    && proof.pBlocks == Projected(cfg, W, padding, proof.rho, 1) && proof.aBlocks == Projected(cfg, X, NoPadding, proof.tau, 1)
    && Committed(h, cfg, b.p, proof.pBlocks) && Committed(h, cfg, b.a, proof.aBlocks)
    && Opened(h, cfg, w.commit, b.p, proof.columns, proof.wOpening)
    && Opened(h, cfg, b.xs.commit, b.a, proof.columns, proof.aOpening)
    && proof.pMessage == Mixed(W, proof.rho, w.nIn) && proof.aMessage == Mixed(X, proof.tau, w.nIn)
    && |b.coins| >= CeilLog(w.nIn)
    && proof.sumcheck == ProductProof(Sides2(proof.aMessage, proof.pMessage, w.nIn), CeilLog(w.nIn), b.coins)
  }

  // ------------------------------------------------------------------ the verifier

  /** What verify_layer answers: both seams, both bindings, the sumcheck. */
  ghost function LayerVerdict(h: Hash<Bytes>, cfg: Config, wRoot: Bytes, proof: LayerProof, nIn: nat): Verdict {
    var v1 := SeamVerdict(h, cfg, wRoot, proof.pRoot, proof.rho, proof.wOpening, 0);
    if !v1.Accept? then v1 else
    var v2 := SeamVerdict(h, cfg, proof.inRoot, proof.aRoot, proof.tau, proof.aOpening, 0);
    if !v2.Accept? then v2 else
    SeamInRange(h, cfg, wRoot, proof.pRoot, proof.rho, proof.wOpening);
    SeamInRange(h, cfg, proof.inRoot, proof.aRoot, proof.tau, proof.aOpening);
    var v3 := BindVerdict(cfg, proof.pBlocks, proof.wOpening);
    if !v3.Accept? then v3 else
    var v4 := BindVerdict(cfg, proof.aBlocks, proof.aOpening);
    if !v4.Accept? then v4 else
    ProductVerdict(proof.sumcheck, Sides2(proof.aMessage, proof.pMessage, nIn))
  }

  lemma SeamInRange(h: Hash<Bytes>, cfg: Config, wRoot: Bytes, pRoot: Bytes, chi: seq<int>, o: Opening<Bytes>)
    requires SeamVerdict(h, cfg, wRoot, pRoot, chi, o, 0) == Accept
    ensures |o.pValues| == |o.columns| && InRange(cfg, o.columns)
  {
    hide SeamVerdict, Checks, BlocksHold;
    SeamShape(h, cfg, wRoot, pRoot, chi, o);
    forall k | 0 <= k < |o.columns| ensures 0 <= o.columns[k] < cfg.N() {
      AcceptedParts(h, cfg, wRoot, pRoot, chi, o, k);
      ChecksInRange(h, cfg, wRoot, o.columns[k], o.wValues[k], o.wPaths[k]);
    }
  }

  lemma SeamShape(h: Hash<Bytes>, cfg: Config, wRoot: Bytes, pRoot: Bytes, chi: seq<int>, o: Opening<Bytes>)
    requires SeamVerdict(h, cfg, wRoot, pRoot, chi, o, 0) == Accept
    ensures |o.columns| == |o.wValues| == |o.pValues|
  {}

  lemma ChecksInRange(h: Hash<Bytes>, cfg: Config, root: Bytes, col: int, values: seq<int>, path: Path<Bytes>)
    requires Checks(h, cfg, root, col, values, path)
    ensures 0 <= col < cfg.N()
  {}

  method VerifyLayer(h: Hash<Bytes>, cfg: Config, L: seq<seq<int>>, wRoot: Bytes, proof: LayerProof, nIn: nat) returns (v: Verdict)
    requires cfg.Valid() && IsLagrangeMatrix(cfg, L)
    ensures v == LayerVerdict(h, cfg, wRoot, proof, nIn)
  {
    hide SeamVerdict, BindVerdict, ProductVerdict, IsLagrangeMatrix, Widened;
    v := VerifyProjection(h, cfg, wRoot, proof.pRoot, proof.rho, proof.wOpening);
    if !v.Accept? { return; }
    v := VerifyProjection(h, cfg, proof.inRoot, proof.aRoot, proof.tau, proof.aOpening);
    if !v.Accept? { return; }
    SeamInRange(h, cfg, wRoot, proof.pRoot, proof.rho, proof.wOpening);
    SeamInRange(h, cfg, proof.inRoot, proof.aRoot, proof.tau, proof.aOpening);
    v := BindBlocks(cfg, L, proof.pBlocks, proof.wOpening);
    if !v.Accept? { return; }
    v := BindBlocks(cfg, L, proof.aBlocks, proof.aOpening);
    if !v.Accept? { return; }
    v := VerifyProduct(proof.sumcheck, Sides2(proof.aMessage, proof.pMessage, nIn));
  }

  /** Completeness of a layer: any weights, padding, input, coins and columns. */
  lemma HonestLayerAccepted(h: Hash<Bytes>, cfg: Config, w: Weights<Bytes>, W: Matrix, padding: Padding, X: Matrix,
                            proof: LayerProof, b: Behind)
    requires IsLayerProof(h, cfg, w, W, padding, X, proof, b)
    ensures LayerVerdict(h, cfg, w.commit.root, proof, w.nIn) == Accept
  {
    SeamStep(h, w, W, padding, proof.rho, b.p, proof.columns, proof.wOpening, proof.pBlocks);
    SeamStep(h, b.xs, X, NoPadding, proof.tau, b.a, proof.columns, proof.aOpening, proof.aBlocks);
    ContractionAccepted(X, proof.tau, W, proof.rho, w.nIn, b.coins);
    hide SeamVerdict, BindVerdict, ProductVerdict, ProductProof, Projected, Enrolled, Opened, Committed, Sides2;
  }

  /** One operand: its seam and its binding, for any number of blocks once a column is opened. */
  lemma SeamStep(h: Hash<Bytes>, w: Weights<Bytes>, W: Matrix, padding: Padding, chi: seq<int>, p: Commitment<Bytes>,
                 columns: seq<int>, o: Opening<Bytes>, blocks: Matrix)
    requires Enrolled(h, w, W, padding) && |chi| == w.nOut && (w.nBlocks == 1 || columns != [])
    requires blocks == Projected(w.cfg, W, padding, chi, w.nBlocks) && Committed(h, w.cfg, p, blocks)
    requires Opened(h, w.cfg, w.commit, p, columns, o)
    ensures SeamVerdict(h, w.cfg, w.commit.root, p.root, chi, o, 0) == Accept
    ensures |o.pValues| == |o.columns| && InRange(w.cfg, o.columns) && BindVerdict(w.cfg, blocks, o) == Accept
  {
    hide SeamVerdict, BindVerdict, IsOpening, Built, Encoded, Messages, ProjectedBlock;
    HonestSeamAccepted(h, w, W, padding, chi, p, o);
    SeamInRange(h, w.cfg, w.commit.root, p.root, chi, o);
    HonestBind(h, w.cfg, w.commit, p, blocks, o);
  }
}
