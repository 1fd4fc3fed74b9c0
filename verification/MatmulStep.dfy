/** The pieces layer.py and full_layer.py share for one matmul. */
module MatmulStep {
  // Binding the sent blocks to the opened columns by re-encoding, and the sumcheck over the two flat projections.

  import opened NumberTheory
  import opened Field
  import opened Polynomial
  import opened Domain
  import opened Rows
  import opened Rs
  import opened Commit
  import opened Projection
  import opened Seam
  import opened Protocol
  import opened Products
  import opened PowerOfTwo
  import opened Contraction

  // ------------------------------------------------------------ binding by re-encoding

  /** Row b re-encoded against the opened values, from the k-th column on. */
  function RowVerdict<T>(cfg: Config, block: seq<int>, o: Opening<T>, b: nat, k: nat): Verdict
    requires forall i :: 0 <= i < |o.columns| ==> 0 <= o.columns[i] < cfg.N()
    requires |o.pValues| == |o.columns|
    decreases |o.columns| - k
  {
    if k >= |o.columns| then Accept
    else if b >= |o.pValues[k]| then Raise
    else if Codeword(cfg, block)[o.columns[k]] != o.pValues[k][b] then Reject
    else RowVerdict(cfg, block, o, b, k + 1)
  }

  function BlocksFrom<T>(cfg: Config, blocks: Matrix, o: Opening<T>, b: nat): Verdict
    requires forall i :: 0 <= i < |o.columns| ==> 0 <= o.columns[i] < cfg.N()
    requires |o.pValues| == |o.columns|
    decreases |blocks| - b
  {
    if b >= |blocks| then Accept
    else if |blocks[b]| > cfg.ELL then Raise
    else
      var v := RowVerdict(cfg, blocks[b], o, b, 0);
      if v.Accept? then BlocksFrom(cfg, blocks, o, b + 1) else v
  }

  /** _bind_blocks and _bind_small_vector: as many blocks as committed rows (one, if no column
      was opened), each the codeword its opened values say. */
  function BindVerdict<T>(cfg: Config, blocks: Matrix, o: Opening<T>): Verdict
    requires forall i :: 0 <= i < |o.columns| ==> 0 <= o.columns[i] < cfg.N()
    requires |o.pValues| == |o.columns|
  {
    var nBlocks := if o.pValues != [] then |o.pValues[0]| else 1;
    if |blocks| != nBlocks then Reject else BlocksFrom(cfg, blocks, o, 0)
  }

  method BindBlocks<T>(cfg: Config, L: seq<seq<int>>, blocks: Matrix, o: Opening<T>) returns (v: Verdict)
    requires cfg.Valid() && IsLagrangeMatrix(cfg, L) && InRange(cfg, o.columns) && |o.pValues| == |o.columns|
    ensures v == BindVerdict(cfg, blocks, o)
  {
    hide Codeword, IsLagrangeMatrix;
    var nBlocks := if o.pValues != [] then |o.pValues[0]| else 1;
    if |blocks| != nBlocks {
      return Reject;
    }
    for b := 0 to nBlocks
      invariant BlocksFrom(cfg, blocks, o, b) == BlocksFrom(cfg, blocks, o, 0)
    {
      var reenc := EncodeRow(cfg, L, blocks[b]);
      if reenc.ValueError? {
        return Raise;
      }
      CodewordAt(cfg, blocks[b]);
      for k := 0 to |o.columns|
        invariant RowVerdict(cfg, blocks[b], o, b, k) == RowVerdict(cfg, blocks[b], o, b, 0)
      {
        if b >= |o.pValues[k]| {
          return Raise;
        }
        if reenc.value[o.columns[k]] != o.pValues[k][b] {
          return Reject;
        }
      }
    }
    v := Accept;
  }

  lemma {:induction false} HonestRow<T>(h: Hash<T>, cfg: Config, w: Commitment<T>, p: Commitment<T>, blocks: Matrix, o: Opening<T>,
                                        b: nat, k: nat)
    requires AllWide(w.rows, cfg.N()) && p.rows == Encoded(cfg, blocks) && AllWide(p.rows, cfg.N())
    requires InRange(cfg, o.columns) && IsOpening(h, cfg, w, p, o) && b < |blocks|
    ensures RowVerdict(cfg, blocks[b], o, b, k) == Accept
    decreases |o.columns| - k
  {
    hide Codeword, OpenPath;
    if k < |o.columns| {
      HonestRow(h, cfg, w, p, blocks, o, b, k + 1);
      assert o.pValues[k] == Column(p.rows, cfg.N(), o.columns[k]);
    }
  }

  lemma {:induction false} HonestBlocks<T>(h: Hash<T>, cfg: Config, w: Commitment<T>, p: Commitment<T>, blocks: Matrix,
                                           o: Opening<T>, b: nat)
    requires AllWide(w.rows, cfg.N()) && p.rows == Encoded(cfg, blocks) && AllWide(p.rows, cfg.N())
    requires InRange(cfg, o.columns) && IsOpening(h, cfg, w, p, o) && AllFit(blocks, cfg.ELL)
    ensures BlocksFrom(cfg, blocks, o, b) == Accept
    decreases |blocks| - b
  {
    if b < |blocks| {
      HonestRow(h, cfg, w, p, blocks, o, b, 0);
      HonestBlocks(h, cfg, w, p, blocks, o, b + 1);
    }
  }

  /** Honest blocks bind exactly when a column was opened or there is one block: with no columns
      the verifier expects a single row. */
  lemma HonestBind<T>(h: Hash<T>, cfg: Config, w: Commitment<T>, p: Commitment<T>, blocks: Matrix, o: Opening<T>)
    requires AllWide(w.rows, cfg.N()) && p.rows == Encoded(cfg, blocks) && AllWide(p.rows, cfg.N())
    requires InRange(cfg, o.columns) && IsOpening(h, cfg, w, p, o) && AllFit(blocks, cfg.ELL)
    ensures BindVerdict(cfg, blocks, o) == if o.columns != [] || |blocks| == 1 then Accept else Reject
  {
    hide Codeword, OpenPath, RowVerdict;
    HonestBlocks(h, cfg, w, p, blocks, o, 0);
    if o.columns != [] {
      assert o.pValues[0] == Column(p.rows, cfg.N(), o.columns[0]);
    }
  }

  // ------------------------------------------------------------- the contraction

  /** v[:n] padded to the next power of two. */
  function Widened(v: seq<int>, n: nat): (r: seq<int>)
    ensures |r| == Pow2(CeilLog(n))
  {
    CeilLogExact(n);
    var c := if |v| <= n then v else v[..n];
    Padded(c, Pow2(CeilLog(n)))
  }

  /** Both sides of the contraction, as the prover and the verifier pad them. */
  function Sides2(a: seq<int>, p: seq<int>, n: nat): (f: seq<seq<int>>)
    ensures Factors(f, CeilLog(n))
  {
    [Widened(a, n), Widened(p, n)]
  }

  /** The honest sumcheck over the flat projections: accepted, and its claim is the doubly
      weighted output. */
  lemma ContractionAccepted(X: Matrix, tau: seq<int>, W: Matrix, rho: seq<int>, n: nat, coins: seq<int>)
    requires |coins| >= CeilLog(n)
    ensures var f := Sides2(Mixed(X, tau, n), Mixed(W, rho, n), n);
      && ProductVerdict(ProductProof(f, CeilLog(n), coins), f) == Accept
      && ProductProof(f, CeilLog(n), coins).claim == Doubled(X, tau, W, rho, n) % P
  {
    var a, p := Mixed(X, tau, n), Mixed(W, rho, n);
    var f := Sides2(a, p, n);
    WidenedSum(a, p, n);
    forall j | 0 <= j < n
      ensures At(a, j) % P == At(Blend(X, tau, n), j) % P && At(p, j) % P == At(Blend(W, rho, n), j) % P
    {
      ModMod(Mix(X, tau, j), P);
      ModMod(Mix(W, rho, j), P);
    }
    InnerCongruent(a, Blend(X, tau, n), p, Blend(W, rho, n), n);
    ContractionIdentity(X, tau, W, rho, n);
    hide *;
    HonestProductAccepted(f, CeilLog(n), coins);
  }

  lemma WidenedSum(a: seq<int>, p: seq<int>, n: nat)
    requires |a| == |p| == n
    ensures ProductSum(Sides2(a, p, n), Pow2(CeilLog(n))) == Inner(a, p, n)
  {
    var w := Pow2(CeilLog(n));
    CeilLogExact(n);
    PaddedFactorsSum(a, p, n, w);
  }

  lemma {:induction false} PaddedFactorsSum(a: seq<int>, p: seq<int>, n: nat, m: nat)
    requires |a| == |p| == n
    ensures ProductSum([Widened(a, n), Widened(p, n)], m) == Inner(a, p, if m <= n then m else n)
  {
    if m > 0 {
      PaddedFactorsSum(a, p, n, m - 1);
      TwoFactors(Widened(a, n), Widened(p, n), m - 1);
      WidenedAt(a, n, m - 1);
      WidenedAt(p, n, m - 1);
      if m > n { TimesZero(At(p, m - 1)); }
    }
  }

  lemma WidenedAt(a: seq<int>, n: nat, i: nat)
    requires |a| == n
    ensures At(Widened(a, n), i) == At(a, i)
  {
    CeilLogExact(n);
  }

  /** The flat projection is the combination of the weight rows, every block in its place. */
  lemma FlatIsMixed(cfg: Config, W: Matrix, padding: Padding, chi: seq<int>, flat: seq<int>)
    requires cfg.Valid() && Rectangular(W) && PaddingFits(cfg, W, padding) && |flat| == |W[0]|
    requires forall j :: 0 <= j < |flat|
               ==> flat[j] == Slot(cfg, Projected(cfg, W, padding, chi, Blocks(cfg, |W[0]|)), j)
    ensures flat == Mixed(W, chi, |W[0]|)
  {
    hide Slot, Projected, Mix;
    forall j | 0 <= j < |flat| ensures flat[j] == Mix(W, chi, j) % P {
      FlatIsProjection(cfg, W, padding, chi, j);
    }
  }

  /** project_message then flatten_projection. */
  method ProjectFlat<T>(ghost h: Hash<T>, w: Weights<T>, chi: seq<int>, ghost W: Matrix, ghost padding: Padding)
    returns (blocks: Matrix, flat: seq<int>)
    requires Enrolled(h, w, W, padding) && |chi| == w.nOut
    ensures blocks == Projected(w.cfg, W, padding, chi, w.nBlocks) && flat == Mixed(W, chi, w.nIn)
  {
    hide Slot, Mix, ProjectedBlock, Messages;
    var r := ProjectMessage(h, w, chi, W, padding);
    blocks := r.value;
    flat := FlattenProjection(w.cfg, w.nIn, blocks);
    FlatIsMixed(w.cfg, W, padding, chi, flat);
  }
}
