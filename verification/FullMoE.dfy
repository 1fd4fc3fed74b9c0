/** One routed node of prove_full_layer: a seam per expert, the hidden route's stream checks, and the
    flattened sumcheck; and the verifier's answer to it. */
module FullMoE {
  import opened NumberTheory
  import opened Field
  import opened Polynomial
  import opened Domain
  import opened Rows
  import opened Rs
  import opened Commit
  import opened Projection
  import opened Seam
  import opened Protocol
  import opened Products
  import opened PowerOfTwo
  import opened Scan
  import opened Permutation
  import opened MatmulStep
  import opened MoeStep
  import opened DenseLayer
  import opened Chain
  import opened Semantics
  import opened FullVerifier
  import opened Enrolling
  import opened FullMatmul
  import O = Order
  import LP = LogupProver
  import T = Transcript

  // ------------------------------------------------------------------ the labels

  function Digit(n: nat): string { ["0123456789"[n % 10]] }

  /** str(n) */
  function Dec(n: nat): string {
    if n < 10 then Digit(n) else Dec(n / 10) + Digit(n)
  }

  lemma {:induction false} DecShort(n: nat, bits: nat)
    requires n < Pow2(bits)
    ensures |Dec(n)| <= bits + 1
  {
    if n >= 10 {
      assert Pow2(bits) == 2 * Pow2(bits - 1);
      DecShort(n / 10, bits - 1);
    }
  }

  // ------------------------------------------------------------------- the experts

  datatype ExpertSeam = ExpertSeam(wId: nat, pw: Weights<Bytes>, pc: Commitment<Bytes>, blocks: Matrix, message: seq<int>)

  /** Expert tensor W, honestly enrolled, projected and committed. */
  ghost predicate IsExpert(h: Hash<Bytes>, cfg: Config, ws: seq<Weights<Bytes>>, x: ExpertSeam, W: Matrix, padding: Padding,
                           rho: seq<int>, n: nat) {
    && x.pw.cfg == cfg && x.pw.nIn == n && x.wId < |ws| && ws[x.wId] == x.pw && |rho| == x.pw.nOut
    && IsSide(h, x.pw, W, padding, rho, x.pc)
    && x.blocks == ProjectionOf(h, x.pw, W, padding, rho) && x.message == Mixed(W, rho, n)
  }

  ghost function ProjectionOf(h: Hash<Bytes>, w: Weights<Bytes>, W: Matrix, padding: Padding, chi: seq<int>): Matrix
    requires Enrolled(h, w, W, padding)
  {
    Projected(w.cfg, W, padding, chi, w.nBlocks)
  }

  lemma ExpertIs(h: Hash<Bytes>, cfg: Config, ws: seq<Weights<Bytes>>, x: ExpertSeam, W: Matrix, padding: Padding, rho: seq<int>, n: nat)
    requires Enrolled(h, x.pw, W, padding)
    ensures IsExpert(h, cfg, ws, x, W, padding, rho, n) <==>
      (&& x.pw.cfg == cfg && x.pw.nIn == n && x.wId < |ws| && ws[x.wId] == x.pw && |rho| == x.pw.nOut
       && IsSide(h, x.pw, W, padding, rho, x.pc)
       && x.blocks == Projected(x.pw.cfg, W, padding, rho, x.pw.nBlocks) && x.message == Mixed(W, rho, n))
  {
    hide IsSide, Projected, Mixed;
  }

  lemma ExpertEnrolled(h: Hash<Bytes>, cfg: Config, ws: seq<Weights<Bytes>>, x: ExpertSeam, W: Matrix, padding: Padding, rho: seq<int>, n: nat)
    requires IsExpert(h, cfg, ws, x, W, padding, rho, n)
    ensures Enrolled(h, x.pw, W, padding)
  {
    hide ProjectionOf, Mixed;
  }

  ghost predicate AreExperts(h: Hash<Bytes>, cfg: Config, ws: seq<Weights<Bytes>>, xs: seq<ExpertSeam>, W: seq<Matrix>,
                             pads: seq<Padding>, rho: seq<int>, n: nat) {
    && |xs| == |pads| <= |W|
    && forall e :: 0 <= e < |xs| ==> IsExpert(h, cfg, ws, xs[e], W[e], pads[e], rho, n)
  }

  lemma ExpertLater(h: Hash<Bytes>, cfg: Config, ws: seq<Weights<Bytes>>, ws': seq<Weights<Bytes>>, x: ExpertSeam, W: Matrix,
                    padding: Padding, rho: seq<int>, n: nat)
    requires IsExpert(h, cfg, ws, x, W, padding, rho, n) && ws <= ws'
    ensures IsExpert(h, cfg, ws', x, W, padding, rho, n)
  {
    hide IsSide, ProjectionOf, Mixed;
  }

  lemma ExpertsLater(h: Hash<Bytes>, cfg: Config, ws: seq<Weights<Bytes>>, ws': seq<Weights<Bytes>>, xs: seq<ExpertSeam>,
                     W: seq<Matrix>, pads: seq<Padding>, rho: seq<int>, n: nat)
    requires AreExperts(h, cfg, ws, xs, W, pads, rho, n) && ws <= ws'
    ensures AreExperts(h, cfg, ws', xs, W, pads, rho, n)
  {
    hide IsExpert;
    forall e | 0 <= e < |xs| ensures IsExpert(h, cfg, ws', xs[e], W[e], pads[e], rho, n) {
      ExpertLater(h, cfg, ws, ws', xs[e], W[e], pads[e], rho, n);
    }
  }

  lemma ExpertsSnoc(h: Hash<Bytes>, cfg: Config, ws: seq<Weights<Bytes>>, xs: seq<ExpertSeam>, x: ExpertSeam, W: seq<Matrix>,
                    pads: seq<Padding>, padding: Padding, rho: seq<int>, n: nat)
    requires AreExperts(h, cfg, ws, xs, W, pads, rho, n) && |xs| < |W| && IsExpert(h, cfg, ws, x, W[|xs|], padding, rho, n)
    ensures AreExperts(h, cfg, ws, xs + [x], W, pads + [padding], rho, n)
  {
    hide IsExpert;
  }

  lemma NoExperts(h: Hash<Bytes>, cfg: Config, ws: seq<Weights<Bytes>>, W: seq<Matrix>, rho: seq<int>, n: nat)
    ensures AreExperts(h, cfg, ws, [], W, [], rho, n)
  {}

  lemma StackAt(W: seq<Matrix>, dOut: nat, n: nat, e: nat)
    requires Stack(W, dOut, n) && e < |W|
    ensures |W[e]| == dOut > 0 && AllWide(W[e], n) && Rectangular(W[e]) && |W[e][0]| == n
  {}

  /** Enrol, project, commit, absorb: one expert's seam. */
  method ProveExpert(enrol: Enrollment, tr: T.Transcript, name: string, W: Matrix, rho: seq<int>, n: nat, rng: Rng)
    returns (x: ExpertSeam, ghost padding: Padding)
    requires enrol.Valid() && tr.Valid() && tr.schedule == null && |name| < 65536
    requires Rectangular(W) && |W[0]| == n && |rho| == |W|
    modifies enrol, tr
    ensures enrol.Valid() && tr.Valid() && old(enrol.weights) <= enrol.weights
    ensures IsExpert(enrol.h, enrol.cfg, enrol.weights, x, W, padding, rho, n)
    ensures tr.log == old(tr.log) + [T.Absorbed(name, x.pc.root)]
  {
    hide *;
    var h, cfg := enrol.h, enrol.cfg;
    var id := enrol.Enroll(W, rng);
    enrol.Parts();
    enrol.Holds(id);
    var pw := enrol.weights[id];
    padding := enrol.pads[id];
    EnrolledSizes(h, pw, W, padding);
    var pc := ProjectSide(h, pw, rho, W, padding);
    Give(tr, name, pc.root);
    var blocks, message := ProjectFlat(h, pw, rho, W, padding);
    x := ExpertSeam(id, pw, pc, blocks, message);
    ExpertIs(h, cfg, enrol.weights, x, W, padding, rho, n);
  }

  function ExpertRoot(name: string, e: nat, root: Bytes): T.Entry {
    T.Absorbed("R_P_" + name + "_" + Dec(e), root)
  }

  /** The experts' roots, by number. */
  function ExpertRoots(name: string, roots: seq<Bytes>): (es: seq<T.Entry>)
    ensures |es| == |roots| && forall e :: 0 <= e < |es| ==> es[e] == ExpertRoot(name, e, roots[e])
  {
    seq(|roots|, e requires 0 <= e < |roots| => ExpertRoot(name, e, roots[e]))
  }

  lemma ExpertRootsSnoc(name: string, xs: seq<ExpertSeam>, x: ExpertSeam, log: seq<T.Entry>)
    ensures log + ExpertRoots(name, RootsIn(xs + [x]))
            == log + ExpertRoots(name, RootsIn(xs)) + [ExpertRoot(name, |xs|, x.pc.root)]
  {
    hide *;
    RootsInNext(xs, x);
    RootsNext(name, RootsIn(xs), x.pc.root);
    Associated(log, ExpertRoots(name, RootsIn(xs)), ExpertRoot(name, |xs|, x.pc.root));
  }

  lemma Associated(log: seq<T.Entry>, a: seq<T.Entry>, e: T.Entry)
    ensures log + (a + [e]) == log + a + [e]
  {}

  lemma RootEntry(name: string, e: nat, root: Bytes)
    ensures ExpertRoot(name, e, root) == T.Absorbed("R_P_" + name + "_" + Dec(e), root)
  {}

  lemma RootsInNext(xs: seq<ExpertSeam>, x: ExpertSeam)
    ensures RootsIn(xs + [x]) == RootsIn(xs) + [x.pc.root] && |RootsIn(xs)| == |xs|
  {}

  lemma RootsNext(name: string, roots: seq<Bytes>, r: Bytes)
    ensures ExpertRoots(name, roots + [r]) == ExpertRoots(name, roots) + [ExpertRoot(name, |roots|, r)]
  {
    hide ExpertRoot;
  }

  lemma NoRoots(name: string, log: seq<T.Entry>)
    ensures log + ExpertRoots(name, RootsIn([])) == log
  {}

  method ProveExperts(enrol: Enrollment, tr: T.Transcript, name: string, W: seq<Matrix>, rho: seq<int>, n: nat, rng: Rng)
    returns (xs: seq<ExpertSeam>, ghost pads: seq<Padding>)
    requires enrol.Valid() && tr.Valid() && tr.schedule == null && |name| < 65000
    requires Stack(W, |rho|, n) && |W| < Pow2(64)
    modifies enrol, tr
    ensures enrol.Valid() && tr.Valid() && old(enrol.weights) <= enrol.weights
    ensures |xs| == |W| && AreExperts(enrol.h, enrol.cfg, enrol.weights, xs, W, pads, rho, n)
    ensures tr.log == old(tr.log) + ExpertRoots(name, RootsIn(xs))
  {
    hide *;
    xs, pads := [], [];
    ghost var log := tr.log;
    NoRoots(name, log);
    NoExperts(enrol.h, enrol.cfg, enrol.weights, W, rho, n);
    for e := 0 to |W|
      invariant enrol.Valid() && tr.Valid() && old(enrol.weights) <= enrol.weights && |xs| == e
      invariant AreExperts(enrol.h, enrol.cfg, enrol.weights, xs, W, pads, rho, n)
      invariant tr.log == log + ExpertRoots(name, RootsIn(xs))
    {
      ghost var before := enrol.weights;
      StackAt(W, |rho|, n, e);
      DecShort(e, 64);
      var x, padding := ProveExpert(enrol, tr, "R_P_" + name + "_" + Dec(e), W[e], rho, n, rng);
      ExpertsLater(enrol.h, enrol.cfg, before, enrol.weights, xs, W, pads, rho, n);
      ExpertsSnoc(enrol.h, enrol.cfg, enrol.weights, xs, x, W, pads, padding, rho, n);
      ExpertRootsSnoc(name, xs, x, log);
      RootEntry(name, e, x.pc.root);
      xs, pads := xs + [x], pads + [padding];
    }
  }

  function SentMessages(xs: seq<ExpertSeam>): (m: Matrix)
    ensures |m| == |xs| && forall e :: 0 <= e < |xs| ==> m[e] == xs[e].message
  {
    seq(|xs|, e requires 0 <= e < |xs| => xs[e].message)
  }

  lemma ExpertMessages(h: Hash<Bytes>, cfg: Config, ws: seq<Weights<Bytes>>, xs: seq<ExpertSeam>, W: seq<Matrix>,
                       pads: seq<Padding>, rho: seq<int>, n: nat)
    requires AreExperts(h, cfg, ws, xs, W, pads, rho, n) && |xs| == |W|
    ensures AreProjections(SentMessages(xs), W, rho, n) && AllWide(SentMessages(xs), n)
  {
    hide IsSide, ProjectionOf, Mix;
    forall e | 0 <= e < |W| ensures SentMessages(xs)[e] == Mixed(W[e], rho, n) {
      assert IsExpert(h, cfg, ws, xs[e], W[e], pads[e], rho, n);
    }
  }

  // --------------------------------------------------------------- the whole node

  datatype MoEWork = MoEWork(proof: MoEProof, experts: seq<ExpertSeam>)
  datatype MoEBehind = MoEBehind(W: seq<Matrix>, pads: seq<Padding>, rho: seq<int>, A: Matrix, coins: seq<int>)

  /** The flattened factors, as long as the padded (expert, coordinate) domain. */
  ghost predicate IsFlatProof(p: MoEProof, A: Matrix, Ps: Matrix, n: nat, coins: seq<int>) {
    var f := FlatSides(A, Ps, n);
    && p.aFlat == f[0] && p.nIn == n && p.pMessages == Ps
    && p.sumcheck == ProductProof(f, CeilLog(Base(|A|, n)), coins)
    && ProductVerdict(p.sumcheck, f) == Accept
  }

  ghost predicate IsMoEWork(h: Hash<Bytes>, cfg: Config, ws: seq<Weights<Bytes>>, m: MoEWork, b: MoEBehind) {
    && AreExperts(h, cfg, ws, m.experts, b.W, b.pads, b.rho, m.proof.nIn) && |m.experts| == |b.W| == |b.A| && m.proof.rho == b.rho
    && m.proof.scanOk && m.proof.permSrc == m.proof.permDst
    && AllWide(b.A, m.proof.nIn) && AllWide(SentMessages(m.experts), m.proof.nIn)
    && IsFlatProof(m.proof, b.A, SentMessages(m.experts), m.proof.nIn, b.coins)
    && |m.proof.wIds| == |m.proof.pRoots| == |m.proof.pBlocks| == |m.experts|
    && forall e :: 0 <= e < |m.experts| ==>
         && m.proof.wIds[e] == m.experts[e].wId && m.proof.pRoots[e] == m.experts[e].pc.root
         && m.proof.pBlocks[e] == m.experts[e].blocks
  }

  lemma MoELater(h: Hash<Bytes>, cfg: Config, ws: seq<Weights<Bytes>>, ws': seq<Weights<Bytes>>, m: MoEWork, b: MoEBehind)
    requires IsMoEWork(h, cfg, ws, m, b) && ws <= ws'
    ensures IsMoEWork(h, cfg, ws', m, b)
  {
    hide AreExperts, IsFlatProof, AllWide;
    ExpertsLater(h, cfg, ws, ws', m.experts, b.W, b.pads, b.rho, m.proof.nIn);
  }

  lemma RightRouted(m: MoEMatmul)
    requires MoERight(m)
    ensures |m.W| > 0 && |m.W[0]| > 0 && Stack(m.W, |m.W[0]|, |m.W[0][0]|)
    ensures Sides(m.X, |m.route|, |m.W[0][0]|) && forall t :: 0 <= t < |m.route| ==> m.route[t] < |m.W|
    ensures (forall e :: 0 <= e < |m.W| ==> |m.W[e]| == |m.W[0]|)
    ensures IsRoutedOutput(m.Y, m.X, m.W, m.route, |m.W[0]|, |m.W[0][0]|)
  {
    hide Inner;
    var n := |m.W[0][0]|;
    forall t, i | 0 <= t < |m.X| && 0 <= i < |m.W[0]| ensures m.Y[t][i] % P == Inner(m.X[t], m.W[m.route[t]][i], n) % P {
      ModMod(Inner(m.X[t], m.W[m.route[t]][i], n), P);
    }
  }

  // ------------------------------------------------------------------ the prover

  /** What one routed node adds to the log: the experts' roots after rho, the stream's coins and the
      sumcheck's after the roots. */
  function MoELog(p: MoEProof): (es: seq<T.Entry>)
    ensures |es| == |p.pRoots| + 5
  {
    [T.Coin("rho_" + p.name, |p.rho|), T.Coin("tau_" + p.name, |p.tau|)] + ExpertRoots(p.name, p.pRoots)
    + [T.Coin("perm_beta_" + p.name, 1), T.Coin("perm_z_" + p.name, 1),
       T.Coin("sc_" + p.name, RoundCount(Base(|p.pRoots|, p.nIn)))]
  }

  /** The coins of the two permutation products, from the log before each of them. */
  function StreamCoins(oracle: T.Oracle, domain: Bytes, log: seq<T.Entry>, p: MoEProof): (c: (int, int)) {
    var es := MoELog(p);
    (T.CoinsAfter(oracle, domain, log + es[..|es| - 3], "perm_beta_" + p.name, 1)[0],
     T.CoinsAfter(oracle, domain, log + es[..|es| - 2], "perm_z_" + p.name, 1)[0])
  }

  ghost predicate MoEDrawn(oracle: T.Oracle, domain: Bytes, log: seq<T.Entry>, p: MoEProof, coins: seq<int>) {
    var es := MoELog(p);
    && p.rho == T.CoinsAfter(oracle, domain, log, "rho_" + p.name, |p.rho|)
    && p.tau == T.CoinsAfter(oracle, domain, log + es[..1], "tau_" + p.name, |p.tau|)
    && coins == T.CoinsAfter(oracle, domain, log + es[..|es| - 1], "sc_" + p.name, RoundCount(Base(|p.pRoots|, p.nIn)))
  }

  /** The work of this routed node, run after this log: its experts, its segment sums under its
      route, its stream's product. */
  ghost predicate MoERun(m: MoEMatmul, w: MoEWork, b: MoEBehind, oracle: T.Oracle, domain: Bytes, log: seq<T.Entry>) {
    var p, c := w.proof, StreamCoins(oracle, domain, log, w.proof);
    && p.name == m.name && b.W == m.W && |p.tau| == |m.route| && Sides(m.X, |m.route|, p.nIn)
    && IsSegmentTable(b.A, m.route, m.X, p.tau, |m.W|, p.nIn)
    && p.permSrc == CharProduct(O.SourceRecords(0, 1, m.route, m.X, p.nIn, |m.route|), c.0, c.1)
    && MoEDrawn(oracle, domain, log, p, b.coins)
  }

  lemma MoELogIs(p: MoEProof, log: seq<T.Entry>)
    ensures var es := MoELog(p);
      var a := log + [T.Coin("rho_" + p.name, |p.rho|)];
      var r := a + [T.Coin("tau_" + p.name, |p.tau|)] + ExpertRoots(p.name, p.pRoots);
      var z := r + [T.Coin("perm_beta_" + p.name, 1)];
      var s := z + [T.Coin("perm_z_" + p.name, 1)];
      && log + es[..1] == a && log + es[..|es| - 3] == r && log + es[..|es| - 2] == z && log + es[..|es| - 1] == s
      && log + es == s + [T.Coin("sc_" + p.name, RoundCount(Base(|p.pRoots|, p.nIn)))]
  {
    hide RoundCount, ExpertRoots, Base;
    var es := MoELog(p);
    var r := [T.Coin("rho_" + p.name, |p.rho|), T.Coin("tau_" + p.name, |p.tau|)] + ExpertRoots(p.name, p.pRoots);
    assert es[..|es| - 3] == r;
    assert es[..|es| - 2] == r + [T.Coin("perm_beta_" + p.name, 1)];
    assert es[..|es| - 1] == r + [T.Coin("perm_beta_" + p.name, 1)] + [T.Coin("perm_z_" + p.name, 1)];
  }

  lemma MoERunIs(m: MoEMatmul, w: MoEWork, b: MoEBehind, oracle: T.Oracle, domain: Bytes, log: seq<T.Entry>)
    requires w.proof.name == m.name && b.W == m.W && |w.proof.tau| == |m.route| && Sides(m.X, |m.route|, w.proof.nIn)
    requires IsSegmentTable(b.A, m.route, m.X, w.proof.tau, |m.W|, w.proof.nIn)
    requires var p, es := w.proof, MoELog(w.proof);
      (p.rho == T.CoinsAfter(oracle, domain, log, "rho_" + p.name, |p.rho|)
       && p.tau == T.CoinsAfter(oracle, domain, log + es[..1], "tau_" + p.name, |p.tau|)
       && b.coins == T.CoinsAfter(oracle, domain, log + es[..|es| - 1], "sc_" + p.name, RoundCount(Base(|p.pRoots|, p.nIn)))
       && p.permSrc == CharProduct(O.SourceRecords(0, 1, m.route, m.X, p.nIn, |m.route|),
                                   T.CoinsAfter(oracle, domain, log + es[..|es| - 3], "perm_beta_" + p.name, 1)[0],
                                   T.CoinsAfter(oracle, domain, log + es[..|es| - 2], "perm_z_" + p.name, 1)[0]))
    ensures MoERun(m, w, b, oracle, domain, log)
  {
    hide MoELog, T.CoinsAfter, RoundCount, Base, CharProduct, O.SourceRecords, IsSegmentTable, Sides;
  }

  /** The scan and the permutation hold on the prover's own stream, the identity assertion never
      fails, and what comes out is the honest work of this node, for any route. */
  method ProveMoE(enrol: Enrollment, tr: T.Transcript, m: MoEMatmul, rng: Rng)
    returns (w: MoEWork, failed: bool, ghost b: MoEBehind)
    requires enrol.Valid() && tr.Valid() && tr.schedule == null && MoERight(m) && m.X != [] && |m.name| < 65000 && |m.W| < Pow2(64)
    modifies enrol, tr
    ensures enrol.Valid() && tr.Valid() && old(enrol.weights) <= enrol.weights
    ensures !failed && IsMoEWork(enrol.h, enrol.cfg, enrol.weights, w, b)
    ensures MoERun(m, w, b, tr.oracle, tr.domain, old(tr.log)) && tr.log == old(tr.log) + MoELog(w.proof)
  {
    hide *;
    ghost var log := tr.log;
    RightRouted(m);
    var dOut, n, E := |m.W[0]|, |m.W[0][0]|, |m.W|;
    SameRows(m.X, |m.route|, n);
    FirstRow(m.X, n);
    var rho := Ask(tr, "rho_" + m.name, dOut);
    var tau := Ask(tr, "tau_" + m.name, |m.X|);
    var xs, pads := ProveExperts(enrol, tr, m.name, m.W, rho, n, rng);
    var beta := Ask(tr, "perm_beta_" + m.name, 1);
    var z := Ask(tr, "perm_z_" + m.name, 1);
    var A := SegmentTable(m.route, m.X, tau, E);
    var check := CheckStream(m.route, m.X, tau, E, A, n, beta[0], z[0]);
    var coins := Ask(tr, "sc_" + m.name, RoundCount(Base(E, n)));
    ExpertMessages(enrol.h, enrol.cfg, enrol.weights, xs, m.W, pads, rho, n);
    var Ps := SentMessages(xs);
    TablesAreWide(A, Ps, m.route, m.X, tau, m.W, rho, n);
    var flat, proof := FlatSumcheck(A, Ps, E, n, coins, m.X, tau, m.route, m.W, rho);
    var direct := RoutedDirect(tau, rho, m.Y, m.X, m.W, m.route, dOut, n);
    failed := proof.claim != direct;
    w := MoEWork(MoEProof(m.name, IdsOf(xs), n, rho, tau, RootsIn(xs), [], Ps, BlocksIn(xs), flat, proof,
                          check.permSrc, check.permDst, check.scanOk), xs);
    b := MoEBehind(m.W, pads, rho, A, coins);
    FlatProofIs(w.proof, A, Ps, n, coins);
    MoEWorkIs(enrol.h, enrol.cfg, enrol.weights, w, b);
    MoELogIs(w.proof, log);
    MoERunIs(m, w, b, tr.oracle, tr.domain, log);
  }

  lemma FirstRow(X: Matrix, n: nat)
    requires X != [] && AllWide(X, n)
    ensures |X[0]| == n && Rectangular(X)
  {}

  lemma SameRows(X: Matrix, rows: nat, n: nat)
    requires Sides(X, rows, n)
    ensures |X| == rows && AllWide(X, n)
  {}

  function IdsOf(xs: seq<ExpertSeam>): (ids: seq<nat>)
    ensures |ids| == |xs| && forall e :: 0 <= e < |xs| ==> ids[e] == xs[e].wId
  {
    seq(|xs|, e requires 0 <= e < |xs| => xs[e].wId)
  }

  function RootsIn(xs: seq<ExpertSeam>): (roots: seq<Bytes>)
    ensures |roots| == |xs| && forall e :: 0 <= e < |xs| ==> roots[e] == xs[e].pc.root
  {
    seq(|xs|, e requires 0 <= e < |xs| => xs[e].pc.root)
  }

  function BlocksIn(xs: seq<ExpertSeam>): (bs: seq<Matrix>)
    ensures |bs| == |xs| && forall e :: 0 <= e < |xs| ==> bs[e] == xs[e].blocks
  {
    seq(|xs|, e requires 0 <= e < |xs| => xs[e].blocks)
  }

  lemma FlatProofIs(p: MoEProof, A: Matrix, Ps: Matrix, n: nat, coins: seq<int>)
    ensures IsFlatProof(p, A, Ps, n, coins) <==>
      (&& p.aFlat == FlatSides(A, Ps, n)[0] && p.nIn == n && p.pMessages == Ps
       && p.sumcheck == ProductProof(FlatSides(A, Ps, n), CeilLog(Base(|A|, n)), coins)
       && ProductVerdict(p.sumcheck, FlatSides(A, Ps, n)) == Accept)
  {
    hide ProductProof, ProductVerdict, CeilLog, Base;
  }

  lemma MoEWorkIs(h: Hash<Bytes>, cfg: Config, ws: seq<Weights<Bytes>>, m: MoEWork, b: MoEBehind)
    requires AreExperts(h, cfg, ws, m.experts, b.W, b.pads, b.rho, m.proof.nIn) && |m.experts| == |b.W| == |b.A| && m.proof.rho == b.rho
    requires m.proof.scanOk && m.proof.permSrc == m.proof.permDst
    requires AllWide(b.A, m.proof.nIn) && AllWide(SentMessages(m.experts), m.proof.nIn)
    requires IsFlatProof(m.proof, b.A, SentMessages(m.experts), m.proof.nIn, b.coins)
    requires m.proof.wIds == IdsOf(m.experts) && m.proof.pRoots == RootsIn(m.experts) && m.proof.pBlocks == BlocksIn(m.experts)
    ensures IsMoEWork(h, cfg, ws, m, b)
  {
    hide AreExperts, IsFlatProof, AllWide;
  }

  /** The sumcheck over the flattened sums and projections. */
  method FlatSumcheck(A: Matrix, Ps: Matrix, E: nat, n: nat, coins: seq<int>, ghost X: Matrix, ghost tau: seq<int>,
                      ghost route: seq<nat>, ghost W: seq<Matrix>, ghost rho: seq<int>)
    returns (flat: seq<int>, proof: SumcheckProof)
    requires |tau| == |route| == |X| && (forall t :: 0 <= t < |route| ==> route[t] < |W|) && E == |W| == |A|
    requires IsSegmentTable(A, route, X, tau, |W|, n) && AreProjections(Ps, W, rho, n)
    requires |coins| >= CeilLog(Base(E, n))
    ensures flat == FlatSides(A, Ps, n)[0] && proof == ProductProof(FlatSides(A, Ps, n), CeilLog(Base(|A|, n)), coins)
    ensures ProductVerdict(proof, FlatSides(A, Ps, n)) == Accept && proof.claim == RoutedDouble(X, tau, route, W, rho, n) % P
  {
    hide *;
    FlatSidesIs(A, Ps, n);
    var f := FlatSides(A, Ps, n);
    TwoSides(A, Ps, n);
    flat := f[0];
    proof := ProveProduct(f, coins, CeilLog(Base(|A|, n)));
    RoutedAccepted(A, Ps, X, tau, route, W, rho, n, coins);
  }

  lemma TwoSides(A: Matrix, Ps: Matrix, n: nat)
    ensures var f := FlatSides(A, Ps, n);
      && |f| == 2 && f == [f[0], f[1]] && f[0] == Widened(Flat(A), Base(|A|, n))
      && f[1] == Widened(Flat(Ps), Base(|A|, n)) && |f[0]| == |f[1]| == Pow2(CeilLog(Base(|A|, n)))
  {
    hide Flat, Base, CeilLog, Widened;
  }

  // -------------------------------------------------------- openings and the verifier

  /** One opening per expert, at the sampled columns. */
  method OpenMoE(h: Hash<Bytes>, cfg: Config, ghost ws: seq<Weights<Bytes>>, m: MoEWork, columns: seq<int>, ghost b: MoEBehind)
    returns (proof: MoEProof)
    requires IsMoEWork(h, cfg, ws, m, b) && InRange(cfg, columns)
    ensures IsOpenedMoE(h, cfg, m, columns, proof)
  {
    hide *;
    var os: seq<Opening<Bytes>> := [];
    OpenedNone(h, cfg, m.experts, columns);
    for e := 0 to |m.experts|
      invariant OpenedUpTo(h, cfg, m.experts, columns, os, e)
    {
      MoEWorkExpert(h, cfg, ws, m, b, e);
      ExpertEnrolled(h, cfg, ws, m.experts[e], b.W[e], b.pads[e], b.rho, m.proof.nIn);
      ExpertIs(h, cfg, ws, m.experts[e], b.W[e], b.pads[e], b.rho, m.proof.nIn);
      SideBuilt(h, m.experts[e].pw, b.W[e], b.pads[e], b.rho, m.experts[e].pc);
      var o := OpenSide(h, cfg, m.experts[e].pw.commit, m.experts[e].pc, columns);
      OpenedSnoc(h, cfg, m.experts, columns, os, e, o);
      os := os + [o];
    }
    proof := m.proof.(wOpenings := os);
    OpenedMoEIs(h, cfg, m, columns, proof);
  }

  ghost predicate OpenedUpTo(h: Hash<Bytes>, cfg: Config, xs: seq<ExpertSeam>, columns: seq<int>, os: seq<Opening<Bytes>>, n: nat) {
    && |os| == n <= |xs| && forall e :: 0 <= e < n ==> Opened(h, cfg, xs[e].pw.commit, xs[e].pc, columns, os[e])
  }

  lemma OpenedNone(h: Hash<Bytes>, cfg: Config, xs: seq<ExpertSeam>, columns: seq<int>)
    ensures OpenedUpTo(h, cfg, xs, columns, [], 0)
  {}

  lemma OpenedSnoc(h: Hash<Bytes>, cfg: Config, xs: seq<ExpertSeam>, columns: seq<int>, os: seq<Opening<Bytes>>, n: nat, o: Opening<Bytes>)
    requires OpenedUpTo(h, cfg, xs, columns, os, n) && n < |xs| && Opened(h, cfg, xs[n].pw.commit, xs[n].pc, columns, o)
    ensures OpenedUpTo(h, cfg, xs, columns, os + [o], n + 1)
  {
    hide Opened;
  }

  ghost predicate IsOpenedMoE(h: Hash<Bytes>, cfg: Config, m: MoEWork, columns: seq<int>, proof: MoEProof) {
    proof == m.proof.(wOpenings := proof.wOpenings) && OpenedUpTo(h, cfg, m.experts, columns, proof.wOpenings, |m.experts|)
  }

  lemma OpenedMoEIs(h: Hash<Bytes>, cfg: Config, m: MoEWork, columns: seq<int>, proof: MoEProof)
    ensures IsOpenedMoE(h, cfg, m, columns, proof)
      <==> (proof == m.proof.(wOpenings := proof.wOpenings) && OpenedUpTo(h, cfg, m.experts, columns, proof.wOpenings, |m.experts|))
  {
    hide OpenedUpTo;
  }

  lemma MoEWorkExpert(h: Hash<Bytes>, cfg: Config, ws: seq<Weights<Bytes>>, m: MoEWork, b: MoEBehind, e: nat)
    requires IsMoEWork(h, cfg, ws, m, b) && e < |m.experts|
    ensures e < |b.W| && e < |b.pads| && e < |m.proof.wIds| && e < |m.proof.pRoots| && e < |m.proof.pBlocks|
    ensures IsExpert(h, cfg, ws, m.experts[e], b.W[e], b.pads[e], b.rho, m.proof.nIn) && m.proof.rho == b.rho
    ensures m.proof.wIds[e] == m.experts[e].wId && m.proof.pRoots[e] == m.experts[e].pc.root
    ensures m.proof.pBlocks[e] == m.experts[e].blocks
  {
    hide IsExpert, IsFlatProof, AllWide;
  }

  lemma MoEWorkSizes(h: Hash<Bytes>, cfg: Config, ws: seq<Weights<Bytes>>, m: MoEWork, b: MoEBehind)
    requires IsMoEWork(h, cfg, ws, m, b)
    ensures |m.proof.wIds| == |m.proof.pRoots| == |m.proof.pBlocks| == |m.experts| == |b.A|
    ensures m.proof.scanOk && m.proof.permSrc == m.proof.permDst
    ensures AllWide(SentMessages(m.experts), m.proof.nIn) && IsFlatProof(m.proof, b.A, SentMessages(m.experts), m.proof.nIn, b.coins)
  {
    hide AreExperts, IsFlatProof, AllWide;
  }

  lemma {:induction false} ExpertsAccepted(h: Hash<Bytes>, cfg: Config, ws: seq<Weights<Bytes>>, roots: seq<Bytes>, m: MoEWork,
                                           b: MoEBehind, columns: seq<int>, proof: MoEProof, e: nat)
    requires IsMoEWork(h, cfg, ws, m, b) && RootsOf(roots, ws) && columns != [] && IsOpenedMoE(h, cfg, m, columns, proof)
    ensures ExpertsVerdict(h, cfg, roots, proof, e) == Accept
    decreases |m.experts| - e
  {
    OpenedMoEFields(h, cfg, m, columns, proof);
    hide *;
    MoEWorkSizes(h, cfg, ws, m, b);
    if e >= |m.experts| {
      ExpertsDone(h, cfg, roots, proof, e);
    } else {
      ExpertsAccepted(h, cfg, ws, roots, m, b, columns, proof, e + 1);
      MoEWorkExpert(h, cfg, ws, m, b, e);
      var x := m.experts[e];
      ExpertEnrolled(h, cfg, ws, x, b.W[e], b.pads[e], b.rho, m.proof.nIn);
      ExpertIs(h, cfg, ws, x, b.W[e], b.pads[e], b.rho, m.proof.nIn);
      SideBuilt(h, x.pw, b.W[e], b.pads[e], b.rho, x.pc);
      RootsAt(roots, ws, x.wId);
      OpenedAt(h, cfg, m.experts, columns, proof.wOpenings, e);
      SeamStep(h, x.pw, b.W[e], b.pads[e], b.rho, x.pc, columns, proof.wOpenings[e], x.blocks);
      ExpertsStep(h, cfg, roots, proof, e);
    }
  }

  lemma OpenedAt(h: Hash<Bytes>, cfg: Config, xs: seq<ExpertSeam>, columns: seq<int>, os: seq<Opening<Bytes>>, e: nat)
    requires OpenedUpTo(h, cfg, xs, columns, os, |xs|) && e < |xs|
    ensures e < |os| && Opened(h, cfg, xs[e].pw.commit, xs[e].pc, columns, os[e])
  {
    hide Opened;
  }

  lemma OpenedMoEFields(h: Hash<Bytes>, cfg: Config, m: MoEWork, columns: seq<int>, p: MoEProof)
    requires IsOpenedMoE(h, cfg, m, columns, p)
    ensures p.wIds == m.proof.wIds && p.nIn == m.proof.nIn && p.rho == m.proof.rho && p.pRoots == m.proof.pRoots
    ensures p.pMessages == m.proof.pMessages && p.pBlocks == m.proof.pBlocks && p.aFlat == m.proof.aFlat
    ensures p.sumcheck == m.proof.sumcheck && p.permSrc == m.proof.permSrc && p.permDst == m.proof.permDst
    ensures p.scanOk == m.proof.scanOk && OpenedUpTo(h, cfg, m.experts, columns, p.wOpenings, |m.experts|)
    ensures |p.wOpenings| == |m.experts|
  {
    hide Opened;
  }

  lemma ExpertsDone(h: Hash<Bytes>, cfg: Config, roots: seq<Bytes>, m: MoEProof, e: nat)
    requires e >= |m.pRoots|
    ensures ExpertsVerdict(h, cfg, roots, m, e) == Accept
  {}

  lemma ExpertsStep(h: Hash<Bytes>, cfg: Config, roots: seq<Bytes>, m: MoEProof, e: nat)
    requires e < |m.pRoots| && e < |m.wOpenings| && e < |m.wIds| && m.wIds[e] < |roots| && e < |m.pBlocks|
    requires SeamVerdict(h, cfg, roots[m.wIds[e]], m.pRoots[e], m.rho, m.wOpenings[e], 0) == Accept
    requires |m.wOpenings[e].pValues| == |m.wOpenings[e].columns| && InRange(cfg, m.wOpenings[e].columns)
    requires BindVerdict(cfg, m.pBlocks[e], m.wOpenings[e]) == Accept
    ensures ExpertsVerdict(h, cfg, roots, m, e) == ExpertsVerdict(h, cfg, roots, m, e + 1)
  {
    hide SeamVerdict, BindVerdict;
  }

  lemma {:induction false} MessagesFlat(messages: Matrix, n: nat, e: nat)
    requires AllWide(messages, n) && e <= |messages|
    ensures FlatMessages(messages, n, e) == Flat(messages[..e])
  {
    if e > 0 {
      MessagesFlat(messages, n, e - 1);
      assert messages[..e][..e - 1] == messages[..e - 1];
      assert messages[e - 1][..n] == messages[e - 1];
    }
  }

  lemma WidenedIsPad(v: seq<int>, n: nat, width: nat)
    requires |v| == n && width == Pow2(CeilLog(n))
    ensures PadTo(v, width) == Widened(v, n)
  {
    CeilLogExact(n);
  }

  lemma WideMessages(messages: Matrix, n: nat)
    requires AllWide(messages, n)
    ensures LongEnough(messages, |messages|, n)
  {}

  /** The verifier's own flattening gives the prover's second factor. */
  lemma FlattenedAgain(A: Matrix, Ps: Matrix, n: nat)
    requires AllWide(Ps, n) && |A| == |Ps|
    ensures LongEnough(Ps, |Ps|, n)
    ensures FlatSides(A, Ps, n) == [FlatSides(A, Ps, n)[0], PadTo(FlatMessages(Ps, n, |Ps|), |FlatSides(A, Ps, n)[0]|)]
  {
    hide *;
    WideMessages(Ps, n);
    MessagesFlat(Ps, n, |Ps|);
    assert Ps[..|Ps|] == Ps;
    FlatSize(Ps, n);
    TwoSides(A, Ps, n);
    WidenedIsPad(Flat(Ps), Base(|A|, n), Pow2(CeilLog(Base(|A|, n))));
  }

  /** Completeness of a routed node, for every route, empty experts and any number of blocks. */
  lemma MoEAccepted(h: Hash<Bytes>, cfg: Config, ws: seq<Weights<Bytes>>, roots: seq<Bytes>, m: MoEWork, b: MoEBehind,
                    columns: seq<int>, proof: MoEProof)
    requires IsMoEWork(h, cfg, ws, m, b) && RootsOf(roots, ws) && columns != [] && IsOpenedMoE(h, cfg, m, columns, proof)
    ensures MoEVerdict(h, cfg, roots, proof) == Accept
  {
    OpenedMoEFields(h, cfg, m, columns, proof);
    hide *;
    MoEWorkSizes(h, cfg, ws, m, b);
    ExpertsAccepted(h, cfg, ws, roots, m, b, columns, proof, 0);
    var Ps := SentMessages(m.experts);
    FlatProofIs(m.proof, b.A, Ps, m.proof.nIn, b.coins);
    FlattenedAgain(b.A, Ps, m.proof.nIn);
    MoEVerdictIs(h, cfg, roots, proof);
  }

  lemma MoEVerdictIs(h: Hash<Bytes>, cfg: Config, roots: seq<Bytes>, m: MoEProof)
    requires m.scanOk && m.permSrc == m.permDst && ExpertsVerdict(h, cfg, roots, m, 0) == Accept
    requires LongEnough(m.pMessages, |m.pRoots|, m.nIn)
    requires ProductVerdict(m.sumcheck, [m.aFlat, PadTo(FlatMessages(m.pMessages, m.nIn, |m.pRoots|), |m.aFlat|)]) == Accept
    ensures MoEVerdict(h, cfg, roots, m) == Accept
  {
    hide ExpertsVerdict, ProductVerdict;
  }
}
