/** One matmul of prove_full_layer: weights enrolled, both operands projected and committed in
    transcript order, the contraction proved; and the verifier's answer to it. */
module FullMatmul {
  import opened NumberTheory
  import opened Field
  import opened Polynomial
  import opened Domain
  import opened Rows
  import opened Rs
  import opened Commit
  import opened Projection
  import opened Seam
  import opened Protocol
  import opened Products
  import opened PowerOfTwo
  import opened Contraction
  import opened MatmulStep
  import opened DenseLayer
  import opened Chain
  import opened Semantics
  import opened FullVerifier
  import opened Enrolling
  import LP = LogupProver
  import T = Transcript

  /** A proof without its openings, and the commitments they will come from. */
  datatype MatmulWork = MatmulWork(proof: MatmulProof, pw: Weights<Bytes>, xs: Weights<Bytes>,
                                   pc: Commitment<Bytes>, ac: Commitment<Bytes>)

  datatype MatmulBehind = MatmulBehind(W: Matrix, padding: Padding, X: Matrix, coins: seq<int>)

  function ContractedOf(p: MatmulProof): Contracted {
    Contracted(p.pBlocks, p.aBlocks, p.pMessage, p.aMessage, p.sumcheck, false)
  }

  /** Honest work against the enrolled weights ws. */
  ghost predicate IsMatmulWork(h: Hash<Bytes>, cfg: Config, ws: seq<Weights<Bytes>>, m: MatmulWork, b: MatmulBehind) {
    && m.pw.cfg == cfg == m.xs.cfg && m.xs.nIn == m.pw.nIn == m.proof.nIn && m.proof.wId < |ws| && ws[m.proof.wId] == m.pw
    && |m.proof.rho| == m.pw.nOut && |m.proof.tau| == m.xs.nOut && |b.coins| >= CeilLog(m.pw.nIn)
    && IsSide(h, m.pw, b.W, b.padding, m.proof.rho, m.pc) && IsSide(h, m.xs, b.X, NoPadding, m.proof.tau, m.ac)
    && IsContraction(h, m.pw, b.W, b.padding, m.xs, b.X, m.proof.rho, m.proof.tau, b.coins, ContractedOf(m.proof))
    && m.proof.pRoot == m.pc.root && m.proof.aRoot == m.ac.root && m.proof.xRoot == m.xs.commit.root
  }

  lemma MoreWeights(h: Hash<Bytes>, cfg: Config, ws: seq<Weights<Bytes>>, ws': seq<Weights<Bytes>>, m: MatmulWork, b: MatmulBehind)
    requires IsMatmulWork(h, cfg, ws, m, b) && ws <= ws'
    ensures IsMatmulWork(h, cfg, ws', m, b)
  {
    hide IsSide, IsContraction, CeilLog;
  }

  lemma MatmulWorkIs(h: Hash<Bytes>, cfg: Config, ws: seq<Weights<Bytes>>, m: MatmulWork, b: MatmulBehind)
    ensures IsMatmulWork(h, cfg, ws, m, b) <==>
      (&& m.pw.cfg == cfg == m.xs.cfg && m.xs.nIn == m.pw.nIn == m.proof.nIn && m.proof.wId < |ws| && ws[m.proof.wId] == m.pw
       && |m.proof.rho| == m.pw.nOut && |m.proof.tau| == m.xs.nOut && |b.coins| >= CeilLog(m.pw.nIn)
       && IsSide(h, m.pw, b.W, b.padding, m.proof.rho, m.pc) && IsSide(h, m.xs, b.X, NoPadding, m.proof.tau, m.ac)
       && IsContraction(h, m.pw, b.W, b.padding, m.xs, b.X, m.proof.rho, m.proof.tau, b.coins, ContractedOf(m.proof))
       && m.proof.pRoot == m.pc.root && m.proof.aRoot == m.ac.root && m.proof.xRoot == m.xs.commit.root)
  {
    hide IsSide, IsContraction, CeilLog;
  }

  // -------------------------------------------------------------- transcript steps

  /** A step of an unscheduled transcript is never refused. */
  method Give(tr: T.Transcript, name: string, data: Bytes)
    requires tr.Valid() && tr.schedule == null && |name| < 65536 && |data| < Pow2(64)
    modifies tr
    ensures tr.Valid() && tr.log == old(tr.log) + [T.Absorbed(name, data)]
  {
    hide *;
    LP.AllowsAll(tr);
    var ok := tr.Absorb(name, data);
  }

  method Ask(tr: T.Transcript, name: string, count: nat) returns (c: seq<int>)
    requires tr.Valid() && tr.schedule == null && |name| < 65536
    modifies tr
    ensures tr.Valid() && |c| == count && tr.log == old(tr.log) + [T.Coin(name, count)]
    ensures c == T.CoinsAfter(tr.oracle, tr.domain, old(tr.log), name, count)
  {
    hide *;
    LP.AllowsAll(tr);
    var d := tr.DrawCoin(name, count);
    c := d.values;
  }

  // ------------------------------------------------------------------ the prover

  /** What one matmul adds to the log: each root after the coin it depends on. */
  function MatmulLog(p: MatmulProof): (es: seq<T.Entry>)
    ensures |es| == 6
  {
    [T.Coin("rho_" + p.name, |p.rho|), T.Absorbed("R_P_" + p.name, p.pRoot), T.Absorbed("R_X_" + p.name, p.xRoot),
     T.Coin("tau_" + p.name, |p.tau|), T.Absorbed("R_A_" + p.name, p.aRoot), T.Coin("sc_" + p.name, RoundCount(p.nIn))]
  }

  /** The proof's coins are those of the log before each of them. */
  ghost predicate MatmulDrawn(oracle: T.Oracle, domain: Bytes, log: seq<T.Entry>, p: MatmulProof, coins: seq<int>) {
    var es := MatmulLog(p);
    && p.rho == T.CoinsAfter(oracle, domain, log, "rho_" + p.name, |p.rho|)
    && p.tau == T.CoinsAfter(oracle, domain, log + es[..3], "tau_" + p.name, |p.tau|)
    && coins == T.CoinsAfter(oracle, domain, log + es[..5], "sc_" + p.name, RoundCount(p.nIn))
  }

  /** The work of this matmul, run after this log. */
  ghost predicate MatmulRun(m: Matmul, w: MatmulWork, b: MatmulBehind, oracle: T.Oracle, domain: Bytes, log: seq<T.Entry>) {
    w.proof.name == m.name && b.W == m.W && b.X == m.X && MatmulDrawn(oracle, domain, log, w.proof, b.coins)
  }

  lemma MatmulLogIs(p: MatmulProof, log: seq<T.Entry>)
    ensures var es := MatmulLog(p);
      var a := log + [T.Coin("rho_" + p.name, |p.rho|)] + [T.Absorbed("R_P_" + p.name, p.pRoot)]
               + [T.Absorbed("R_X_" + p.name, p.xRoot)];
      var c := a + [T.Coin("tau_" + p.name, |p.tau|)] + [T.Absorbed("R_A_" + p.name, p.aRoot)];
      log + es[..3] == a && log + es[..5] == c && log + es == c + [T.Coin("sc_" + p.name, RoundCount(p.nIn))]
  {
    hide RoundCount;
  }

  lemma MatmulRunIs(m: Matmul, w: MatmulWork, b: MatmulBehind, oracle: T.Oracle, domain: Bytes, log: seq<T.Entry>)
    requires w.proof.name == m.name && b.W == m.W && b.X == m.X
    requires var p, es := w.proof, MatmulLog(w.proof);
      (p.rho == T.CoinsAfter(oracle, domain, log, "rho_" + p.name, |p.rho|)
       && p.tau == T.CoinsAfter(oracle, domain, log + es[..3], "tau_" + p.name, |p.tau|)
       && b.coins == T.CoinsAfter(oracle, domain, log + es[..5], "sc_" + p.name, RoundCount(p.nIn)))
    ensures MatmulRun(m, w, b, oracle, domain, log)
  {
    hide MatmulLog, T.CoinsAfter, RoundCount;
  }

  ghost predicate LabelsFit(log: seq<T.Entry>, name: string) {
    T.AllShort(T.Keys(log), T.LABEL_LIMIT) && |name| + 5 < T.LABEL_LIMIT
  }

  /** After one log, whoever commits to another input, or to another projection of the weights, draws (for some
      oracle) another tau; and with another projected input, other round challenges: neither is known before. */
  lemma MatmulCoinsBind(oracle: T.Oracle, domain: Bytes, log: seq<T.Entry>, p: MatmulProof, q: MatmulProof)
    returns (o: T.Oracle)
    requires T.Collisionless(oracle.digest) && LabelsFit(log, p.name) && p.name == q.name
    requires (p.pRoot, p.xRoot, p.aRoot) != (q.pRoot, q.xRoot, q.aRoot)
    requires RootsShort(p) && RootsShort(q)
    ensures o.digest == oracle.digest
    ensures forall c, d :: MatmulDrawn(o, domain, log, p, c) && MatmulDrawn(o, domain, log, q, d) ==>
      if (p.pRoot, p.xRoot) != (q.pRoot, q.xRoot) then |p.tau| > 0 && |q.tau| > 0 ==> p.tau[0] != q.tau[0]
      else RoundCount(p.nIn) > 0 && RoundCount(q.nIn) > 0 ==> c[0] != d[0]
  {
    hide *;
    if (p.pRoot, p.xRoot) != (q.pRoot, q.xRoot) {
      o := StepBinds(oracle, domain, log, p, q, 3, "tau_" + p.name);
      DrawnApart(o, domain, log, p, q, 3, "tau_" + p.name);
    } else {
      o := StepBinds(oracle, domain, log, p, q, 5, "sc_" + p.name);
      DrawnApart(o, domain, log, p, q, 5, "sc_" + p.name);
    }
  }

  ghost predicate RootsShort(p: MatmulProof) {
    |p.pRoot| < Pow2(64) && |p.xRoot| < Pow2(64) && |p.aRoot| < Pow2(64)
  }

  /** What is logged before step k differs, so some oracle's next coins do. */
  lemma StepBinds(oracle: T.Oracle, domain: Bytes, log: seq<T.Entry>, p: MatmulProof, q: MatmulProof, k: nat, coin: string)
    returns (o: T.Oracle)
    requires T.Collisionless(oracle.digest) && LabelsFit(log, p.name) && p.name == q.name && RootsShort(p) && RootsShort(q)
    requires if k == 3 then (p.pRoot, p.xRoot) != (q.pRoot, q.xRoot) else k == 5 && p.aRoot != q.aRoot
    ensures k <= 5 && o.digest == oracle.digest
    ensures T.CoinsAfter(o, domain, log + MatmulLog(p)[..k], coin, 1)[0] != T.CoinsAfter(o, domain, log + MatmulLog(q)[..k], coin, 1)[0]
  {
    hide *;
    KeysShort(log, p, k);
    KeysShort(log, q, k);
    var j := if k == 5 then 4 else if p.pRoot != q.pRoot then 1 else 2;
    StepKey(log, p, k, j);
    StepKey(log, q, k, j);
    var challenge, seed := T.CoinsBind(oracle, domain, log + MatmulLog(p)[..k], log + MatmulLog(q)[..k], coin);
    o := oracle.(challenge := challenge);
  }

  lemma StepKey(log: seq<T.Entry>, p: MatmulProof, k: nat, j: nat)
    requires j < k <= 5 && (j == 1 || j == 2 || j == 4)
    ensures |T.Keys(log + MatmulLog(p)[..k])| > |log| + j
    ensures T.Keys(log + MatmulLog(p)[..k])[|log| + j]
            == if j == 1 then T.AbsorbKey("R_P_" + p.name, p.pRoot) else if j == 2 then T.AbsorbKey("R_X_" + p.name, p.xRoot)
               else T.AbsorbKey("R_A_" + p.name, p.aRoot)
  {
    hide RoundCount;
    assert (log + MatmulLog(p)[..k])[|log| + j] == MatmulLog(p)[j];
  }

  lemma KeysShort(log: seq<T.Entry>, p: MatmulProof, k: nat)
    requires LabelsFit(log, p.name) && k <= 5 && RootsShort(p)
    ensures T.AllShort(T.Keys(log + MatmulLog(p)[..k]), T.LABEL_LIMIT)
  {
    hide Pow2;
    var es := MatmulLog(p)[..k];
    forall i | 0 <= i < |log + es| ensures T.Short(T.Keys(log + es)[i], T.LABEL_LIMIT) {
      if i < |log| { assert T.Keys(log + es)[i] == T.Keys(log)[i]; } else { assert (log + es)[i] == es[i - |log|]; }
    }
  }

  lemma DrawnApart(o: T.Oracle, domain: Bytes, log: seq<T.Entry>, p: MatmulProof, q: MatmulProof, k: nat, coin: string)
    requires p.name == q.name && (k == 3 || k == 5) && coin == (if k == 3 then "tau_" else "sc_") + p.name
    requires T.CoinsAfter(o, domain, log + MatmulLog(p)[..k], coin, 1)[0] != T.CoinsAfter(o, domain, log + MatmulLog(q)[..k], coin, 1)[0]
    ensures forall c, d :: MatmulDrawn(o, domain, log, p, c) && MatmulDrawn(o, domain, log, q, d) ==>
      if k == 3 then |p.tau| > 0 && |q.tau| > 0 ==> p.tau[0] != q.tau[0]
      else RoundCount(p.nIn) > 0 && RoundCount(q.nIn) > 0 ==> c[0] != d[0]
  {
    hide MatmulLog, RoundCount, T.FedBy;
  }

  lemma RightShapes(m: Matmul)
    requires MatmulRight(m) && m.X != []
    ensures Rectangular(m.W) && Rectangular(m.X) && |m.X[0]| == |m.W[0]| && IsOutput(m.Y, m.X, m.W, |m.W[0]|)
  {
    hide Inner;
    forall t, i | 0 <= t < |m.X| && 0 <= i < |m.W| ensures m.Y[t][i] % P == Inner(m.X[t], m.W[i], |m.W[0]|) % P {
      ModMod(Inner(m.X[t], m.W[i], |m.W[0]|), P);
    }
  }

  /** The identity assertion never fails; what comes out is the honest work of this matmul, each of
      its coins drawn from the log before it. */
  method ProveMatmul(enrol: Enrollment, tr: T.Transcript, m: Matmul, rng: Rng)
    returns (w: MatmulWork, failed: bool, ghost b: MatmulBehind)
    requires enrol.Valid() && tr.Valid() && tr.schedule == null && MatmulRight(m) && m.X != [] && |m.name| < 65000
    modifies enrol, tr
    ensures enrol.Valid() && tr.Valid() && old(enrol.weights) <= enrol.weights
    ensures !failed && IsMatmulWork(enrol.h, enrol.cfg, enrol.weights, w, b)
    ensures MatmulRun(m, w, b, tr.oracle, tr.domain, old(tr.log)) && tr.log == old(tr.log) + MatmulLog(w.proof)
  {
    hide *;
    ghost var log := tr.log;
    RightShapes(m);
    var h, cfg := enrol.h, enrol.cfg;
    var id := enrol.Enroll(m.W, rng);
    enrol.Parts();
    enrol.Holds(id);
    var pw := enrol.weights[id];
    ghost var padding := enrol.pads[id];
    EnrolledSizes(h, pw, m.W, padding);
    var rho := Ask(tr, "rho_" + m.name, pw.nOut);
    var pc := ProjectSide(h, pw, rho, m.W, padding);
    Give(tr, "R_P_" + m.name, pc.root);
    NoPaddingFits(cfg, m.X);
    var x := Projection.Enroll(h, cfg, enrol.L, m.X, NoPadding);
    var xs := x.value;
    EnrolledSizes(h, xs, m.X, NoPadding);
    RootFits(h, cfg, xs.commit);
    Give(tr, "R_X_" + m.name, xs.commit.root);
    var tau := Ask(tr, "tau_" + m.name, |m.X|);
    var ac := ProjectSide(h, xs, tau, m.X, NoPadding);
    Give(tr, "R_A_" + m.name, ac.root);
    var coins := Ask(tr, "sc_" + m.name, RoundCount(pw.nIn));
    var c := Contract(h, pw, m.W, padding, xs, m.X, m.Y, rho, tau, coins);
    var proof := MatmulProof(m.name, id, pw.nIn, pc.root, xs.commit.root, ac.root, rho, tau, NoOpening(), NoOpening(), c.proof,
                             c.pMsg, c.aMsg, c.pBlk, c.aBlk);
    w := MatmulWork(proof, pw, xs, pc, ac);
    b := MatmulBehind(m.W, padding, m.X, coins);
    failed := c.failed;
    assert c == ContractedOf(proof) by { ContractedIs(c, proof); }
    MatmulWorkIs(h, cfg, enrol.weights, w, b);
    MatmulLogIs(proof, log);
    MatmulRunIs(m, w, b, tr.oracle, tr.domain, log);
  }

  lemma ContractedIs(c: Contracted, proof: MatmulProof)
    requires proof.pBlocks == c.pBlk && proof.aBlocks == c.aBlk && proof.pMessage == c.pMsg && proof.aMessage == c.aMsg
    requires proof.sumcheck == c.proof && !c.failed
    ensures c == ContractedOf(proof)
  {}

  function NoOpening(): Opening<Bytes> { Opening([], [], [], [], []) }

  lemma NoPaddingFits(cfg: Config, X: Matrix)
    requires cfg.ELL > 0 && Rectangular(X)
    ensures PaddingFits(cfg, X, NoPadding)
  {}

  /** Both openings, at the sampled columns. */
  method OpenMatmul(h: Hash<Bytes>, cfg: Config, ghost ws: seq<Weights<Bytes>>, m: MatmulWork, columns: seq<int>, ghost b: MatmulBehind)
    returns (proof: MatmulProof)
    requires IsMatmulWork(h, cfg, ws, m, b) && InRange(cfg, columns)
    ensures IsOpenedMatmul(h, cfg, m, columns, proof)
  {
    hide *;
    MatmulWorkIs(h, cfg, ws, m, b);
    SideBuilt(h, m.pw, b.W, b.padding, m.proof.rho, m.pc);
    SideBuilt(h, m.xs, b.X, NoPadding, m.proof.tau, m.ac);
    var w := OpenSide(h, cfg, m.pw.commit, m.pc, columns);
    var a := OpenSide(h, cfg, m.xs.commit, m.ac, columns);
    proof := m.proof.(wOpening := w, aOpening := a);
    OpenedMatmulIs(h, cfg, m, columns, proof);
  }

  ghost predicate IsOpenedMatmul(h: Hash<Bytes>, cfg: Config, m: MatmulWork, columns: seq<int>, proof: MatmulProof) {
    && proof == m.proof.(wOpening := proof.wOpening, aOpening := proof.aOpening)
    && Opened(h, cfg, m.pw.commit, m.pc, columns, proof.wOpening) && Opened(h, cfg, m.xs.commit, m.ac, columns, proof.aOpening)
  }

  lemma OpenedMatmulIs(h: Hash<Bytes>, cfg: Config, m: MatmulWork, columns: seq<int>, proof: MatmulProof)
    requires proof == m.proof.(wOpening := proof.wOpening, aOpening := proof.aOpening)
    requires Opened(h, cfg, m.pw.commit, m.pc, columns, proof.wOpening) && Opened(h, cfg, m.xs.commit, m.ac, columns, proof.aOpening)
    ensures IsOpenedMatmul(h, cfg, m, columns, proof)
  {
    hide Opened;
  }

  lemma SideBuilt(h: Hash<Bytes>, w: Weights<Bytes>, W: Matrix, padding: Padding, chi: seq<int>, c: Commitment<Bytes>)
    requires IsSide(h, w, W, padding, chi, c)
    ensures Enrolled(h, w, W, padding) && Built(h, w.cfg, w.commit) && Built(h, w.cfg, c)
    ensures Committed(h, w.cfg, c, Projected(w.cfg, W, padding, chi, w.nBlocks))
  {
    hide Messages, Encoded, Projected, Built;
  }

  // ----------------------------------------------------------------- the verifier

  /** The roots of the enrolled weights, by number. */
  ghost predicate RootsOf(roots: seq<Bytes>, ws: seq<Weights<Bytes>>) {
    |roots| == |ws| && forall k :: 0 <= k < |ws| ==> roots[k] == ws[k].commit.root
  }

  /** Completeness of a matmul, over any number of blocks once a column is opened. */
  lemma MatmulAccepted(h: Hash<Bytes>, cfg: Config, ws: seq<Weights<Bytes>>, roots: seq<Bytes>, m: MatmulWork, b: MatmulBehind,
                       columns: seq<int>, proof: MatmulProof)
    requires IsMatmulWork(h, cfg, ws, m, b) && RootsOf(roots, ws) && columns != [] && IsOpenedMatmul(h, cfg, m, columns, proof)
    ensures MatmulVerdict(h, cfg, roots, proof) == Accept
  {
    OpenedMatmulParts(h, cfg, m, columns, proof);
    RootsAt(roots, ws, proof.wId);
    hide *;
    MatmulWorkIs(h, cfg, ws, m, b);
    SideBuilt(h, m.pw, b.W, b.padding, m.proof.rho, m.pc);
    SideBuilt(h, m.xs, b.X, NoPadding, m.proof.tau, m.ac);
    IsContractionIs(h, m.pw, b.W, b.padding, m.xs, b.X, m.proof.rho, m.proof.tau, b.coins, ContractedOf(m.proof));
    ContractedFields(m.proof);
    SeamStep(h, m.pw, b.W, b.padding, proof.rho, m.pc, columns, proof.wOpening, proof.pBlocks);
    SeamStep(h, m.xs, b.X, NoPadding, proof.tau, m.ac, columns, proof.aOpening, proof.aBlocks);
    ContractionAccepted(b.X, proof.tau, b.W, proof.rho, m.pw.nIn, b.coins);
    MatmulVerdictIs(h, cfg, roots, proof);
  }

  lemma ContractedFields(p: MatmulProof)
    ensures ContractedOf(p) == Contracted(p.pBlocks, p.aBlocks, p.pMessage, p.aMessage, p.sumcheck, false)
  {}

  lemma OpenedMatmulParts(h: Hash<Bytes>, cfg: Config, m: MatmulWork, columns: seq<int>, p: MatmulProof)
    requires IsOpenedMatmul(h, cfg, m, columns, p)
    ensures Opened(h, cfg, m.pw.commit, m.pc, columns, p.wOpening) && Opened(h, cfg, m.xs.commit, m.ac, columns, p.aOpening)
    ensures p.wId == m.proof.wId && p.nIn == m.proof.nIn && p.pRoot == m.proof.pRoot && p.xRoot == m.proof.xRoot
    ensures p.aRoot == m.proof.aRoot && p.rho == m.proof.rho && p.tau == m.proof.tau && p.sumcheck == m.proof.sumcheck
    ensures p.pMessage == m.proof.pMessage && p.aMessage == m.proof.aMessage
    ensures p.pBlocks == m.proof.pBlocks && p.aBlocks == m.proof.aBlocks
  {
    hide Opened;
  }

  lemma RootsAt(roots: seq<Bytes>, ws: seq<Weights<Bytes>>, k: nat)
    requires RootsOf(roots, ws)
    ensures k < |ws| ==> k < |roots| && roots[k] == ws[k].commit.root
  {}

  lemma MatmulVerdictIs(h: Hash<Bytes>, cfg: Config, roots: seq<Bytes>, m: MatmulProof)
    requires m.wId < |roots| && SeamVerdict(h, cfg, roots[m.wId], m.pRoot, m.rho, m.wOpening, 0) == Accept
    requires SeamVerdict(h, cfg, m.xRoot, m.aRoot, m.tau, m.aOpening, 0) == Accept
    requires |m.wOpening.pValues| == |m.wOpening.columns| && InRange(cfg, m.wOpening.columns)
    requires |m.aOpening.pValues| == |m.aOpening.columns| && InRange(cfg, m.aOpening.columns)
    requires BindVerdict(cfg, m.pBlocks, m.wOpening) == Accept && BindVerdict(cfg, m.aBlocks, m.aOpening) == Accept
    requires ProductVerdict(m.sumcheck, Sides2(m.aMessage, m.pMessage, m.nIn)) == Accept
    ensures MatmulVerdict(h, cfg, roots, m) == Accept
  {
    hide SeamVerdict, BindVerdict, ProductVerdict, Sides2;
  }
}
