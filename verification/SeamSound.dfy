/** What an accepted seam and binding leave open: nothing. */
module SeamSound {
  // One side of a matmul, as layer.py and full_layer.py check it: the opened columns against both roots, the
  // sent blocks re-encoded against them. With K different columns the blocks are the projection.

  import opened NumberTheory
  import opened Field
  import opened Polynomial
  import opened Domain
  import opened Rows
  import opened Rs
  import opened Merkle
  import opened Commit
  import opened Projection
  import opened Seam
  import opened Protocol
  import opened Prover
  import opened Sumcheck
  import opened Soundness
  import opened Products
  import opened PowerOfTwo
  import opened MatmulStep

  /** Both checks of one side passed. */
  ghost predicate SideAccepted<T>(h: Hash<T>, cfg: Config, wRoot: T, pRoot: T, chi: seq<int>, o: Opening<T>, blocks: Matrix) {
    && SeamVerdict(h, cfg, wRoot, pRoot, chi, o, 0) == Accept
    && |o.pValues| == |o.columns| && InRange(cfg, o.columns) && BindVerdict(cfg, blocks, o) == Accept
  }

  // ------------------------------------------------------------- binding, taken apart

  lemma {:induction false} RowAccepted<T>(cfg: Config, block: seq<int>, o: Opening<T>, b: nat, k: nat, i: nat)
    requires InRange(cfg, o.columns) && |o.pValues| == |o.columns| && RowVerdict(cfg, block, o, b, k) == Accept
    requires k <= i < |o.columns|
    ensures b < |o.pValues[i]| && |Codeword(cfg, block)| == cfg.N() && Codeword(cfg, block)[o.columns[i]] == o.pValues[i][b]
    decreases |o.columns| - k
  {
    CodewordAt(cfg, block);
    hide Codeword;
    if i > k { RowAccepted(cfg, block, o, b, k + 1, i); }
  }

  lemma {:induction false} BlockAccepted<T>(cfg: Config, blocks: Matrix, o: Opening<T>, from: nat, b: nat)
    requires InRange(cfg, o.columns) && |o.pValues| == |o.columns| && BlocksFrom(cfg, blocks, o, from) == Accept
    requires from <= b < |blocks|
    ensures |blocks[b]| <= cfg.ELL && RowVerdict(cfg, blocks[b], o, b, 0) == Accept
    decreases |blocks| - from
  {
    hide RowVerdict;
    if b > from { BlockAccepted(cfg, blocks, o, from + 1, b); }
  }

  lemma BindParts<T>(cfg: Config, blocks: Matrix, o: Opening<T>)
    requires InRange(cfg, o.columns) && |o.pValues| == |o.columns| > 0 && BindVerdict(cfg, blocks, o) == Accept
    ensures |blocks| == |o.pValues[0]| && BlocksFrom(cfg, blocks, o, 0) == Accept
  {
    hide BlocksFrom;
  }

  // ------------------------------------------------------------------- one column

  /** What is opened behind the weights' root is the enrolled column; so the projected value is that of the
      true projection, and what is opened behind any commitment of that root is its column too. */
  lemma OpenedProjection<T(!new)>(h: Hash<T>, w: Weights<T>, W: Matrix, padding: Padding, chi: seq<int>, pRoot: T, o: Opening<T>,
                                  k: nat, b: nat)
    requires Binding(h) && Enrolled(h, w, W, padding) && |chi| == w.nOut && k < |o.columns| && b < w.nBlocks
    requires SeamVerdict(h, w.cfg, w.commit.root, pRoot, chi, o, 0) == Accept
    ensures k < |o.pValues| && |o.pValues[k]| == w.nBlocks && 0 <= o.columns[k] < w.cfg.N()
    ensures |Codeword(w.cfg, ProjectedBlock(w.cfg, W, padding, chi, b))| == w.cfg.N()
    ensures o.pValues[k][b] == Codeword(w.cfg, ProjectedBlock(w.cfg, W, padding, chi, b))[o.columns[k]]
  {
    CodewordAt(w.cfg, ProjectedBlock(w.cfg, W, padding, chi, b));
    hide *;
    PIsPositive();
    EnrolledParts(h, w, W, padding);
    AcceptedParts(h, w.cfg, w.commit.root, pRoot, chi, o, k);
    OpeningBinds(h, w.cfg, w.commit, o.columns[k], o.wValues[k], o.wPaths[k]);
    var lo := Base(b, w.nOut);
    BlockCodewords(h, w, W, padding, b, lo);
    ColumnSize(w.commit.rows, w.cfg.N(), o.columns[k]);
    BaseProduct(|o.pValues[k]|, w.nOut);
    SameBlocks(|o.pValues[k]|, w.nBlocks, w.nOut);
    BlockColumn(h, w, W, padding, chi, b, lo, o.columns[k]);
    BlockAt(chi, o.wValues[k], o.pValues[k], b, lo);
  }

  lemma BlockCount<T(!new)>(h: Hash<T>, w: Weights<T>, W: Matrix, padding: Padding, chi: seq<int>, pRoot: T, o: Opening<T>, k: nat)
    requires Binding(h) && Enrolled(h, w, W, padding) && |chi| == w.nOut && k < |o.columns|
    requires SeamVerdict(h, w.cfg, w.commit.root, pRoot, chi, o, 0) == Accept
    ensures k < |o.pValues| && |o.pValues[k]| == w.nBlocks
  {
    hide *;
    EnrolledParts(h, w, W, padding);
    EnrolledRows(h, w, W, padding);
    AcceptedParts(h, w.cfg, w.commit.root, pRoot, chi, o, k);
    OpeningBinds(h, w.cfg, w.commit, o.columns[k], o.wValues[k], o.wPaths[k]);
    ColumnSize(w.commit.rows, w.cfg.N(), o.columns[k]);
    SameCount(|o.pValues[k]|, w.nBlocks, w.nOut);
  }

  lemma EnrolledRows<T>(h: Hash<T>, w: Weights<T>, W: Matrix, padding: Padding)
    requires Enrolled(h, w, W, padding)
    ensures |w.commit.rows| == w.nBlocks * w.nOut
  {
    hide Codeword;
  }

  lemma SameCount(a: nat, b: nat, d: nat)
    requires d > 0 && a * d == b * d
    ensures a == b
  {
    assert (a - b) * d == 0;
  }

  lemma ColumnSize(rows: Matrix, n: nat, c: nat)
    requires AllWide(rows, n) && c < n
    ensures |Column(rows, n, c)| == |rows|
  {}

  lemma {:induction false} BaseProduct(a: nat, d: nat)
    ensures Base(a, d) == a * d
  {
    BaseNext(a, d);
    if a > 0 {
      BaseProduct(a - 1, d);
      BaseNext(a - 1, d);
      assert a * d == (a - 1) * d + d;
    }
  }

  /** Behind the projection's root stand these values and no others. */
  lemma RootHolds<T(!new)>(h: Hash<T>, cfg: Config, wRoot: T, g: Commitment<T>, chi: seq<int>, o: Opening<T>, k: nat)
    requires Binding(h) && Built(h, cfg, g) && SeamVerdict(h, cfg, wRoot, g.root, chi, o, 0) == Accept && k < |o.columns|
    ensures k < |o.pValues| && 0 <= o.columns[k] < cfg.N() && AllWide(g.rows, cfg.N())
    ensures o.pValues[k] == Column(g.rows, cfg.N(), o.columns[k])
  {
    hide *;
    BuiltIsWide(h, cfg, g);
    AcceptedParts(h, cfg, wRoot, g.root, chi, o, k);
    OpeningBinds(h, cfg, g, o.columns[k], o.pValues[k], o.pPaths[k]);
  }

  // ------------------------------------------------------------------- one block

  lemma WordsAgree<T(!new)>(h: Hash<T>, w: Weights<T>, W: Matrix, padding: Padding, chi: seq<int>, pRoot: T, o: Opening<T>,
                            blocks: Matrix, b: nat)
    requires Binding(h) && Enrolled(h, w, W, padding) && |chi| == w.nOut && b < w.nBlocks
    requires SideAccepted(h, w.cfg, w.commit.root, pRoot, chi, o, blocks)
    requires NoDuplicates(o.columns) && |o.columns| >= w.cfg.K()
    ensures |blocks| == w.nBlocks && |blocks[b]| <= w.cfg.ELL
    ensures Codeword(w.cfg, blocks[b]) == Codeword(w.cfg, ProjectedBlock(w.cfg, W, padding, chi, b))
  {
    hide *;
    EnrolledParts(h, w, W, padding);
    EnrolledSize(h, w, W, padding);
    KPositive(w.cfg);
    SideParts(h, w.cfg, w.commit.root, pRoot, chi, o, blocks);
    OpenedProjection(h, w, W, padding, chi, pRoot, o, 0, b);
    BlockAccepted(w.cfg, blocks, o, 0, b);
    var u, m := Codeword(w.cfg, blocks[b]), ProjectedBlock(w.cfg, W, padding, chi, b);
    var v := Codeword(w.cfg, m);
    IsTheCode(w.cfg, blocks[b]);
    IsTheCode(w.cfg, m);
    if u != v {
      Distance(w.cfg, u, v);
      forall c | c in Elements(o.columns) ensures c in Agreements(u, v) {
        var k := PositionOf(o.columns, c);
        OpenedProjection(h, w, W, padding, chi, pRoot, o, k, b);
        RowAccepted(w.cfg, blocks[b], o, b, 0, k);
        AgreementAt(u, v, c);
      }
      NoDuplicatesSize(o.columns);
      SubsetSize(Elements(o.columns), Agreements(u, v));
    }
  }

  lemma KPositive(cfg: Config)
    requires cfg.Valid()
    ensures cfg.K() > 0
  {}

  lemma SideParts<T>(h: Hash<T>, cfg: Config, wRoot: T, pRoot: T, chi: seq<int>, o: Opening<T>, blocks: Matrix)
    requires SideAccepted(h, cfg, wRoot, pRoot, chi, o, blocks) && |o.columns| > 0
    ensures SeamVerdict(h, cfg, wRoot, pRoot, chi, o, 0) == Accept && |o.pValues| == |o.columns| && InRange(cfg, o.columns)
    ensures |blocks| == |o.pValues[0]| && BlocksFrom(cfg, blocks, o, 0) == Accept
  {
    hide SeamVerdict, BlocksFrom;
    BindParts(cfg, blocks, o);
  }

  // -------------------------------------------------------------------- one side

  /** Against an honestly enrolled tensor W, K different columns bind every sent block: slot by slot it is
      the chi-combination of W's block, and coordinate j over all blocks is sum_i chi[i] * W[i][j]. */
  ghost predicate BlocksAre(cfg: Config, W: Matrix, chi: seq<int>, blocks: Matrix)
    requires cfg.ELL > 0 && Rectangular(W)
  {
    && |blocks| == Blocks(cfg, |W[0]|)
    && forall j :: 0 <= j < |W[0]| ==> Slot(cfg, blocks, j) % P == Mix(W, chi, j) % P
  }

  lemma SideSound<T(!new)>(h: Hash<T>, w: Weights<T>, W: Matrix, padding: Padding, chi: seq<int>, pRoot: T, o: Opening<T>,
                           blocks: Matrix)
    requires Binding(h) && Enrolled(h, w, W, padding) && |chi| == w.nOut
    requires SideAccepted(h, w.cfg, w.commit.root, pRoot, chi, o, blocks)
    requires NoDuplicates(o.columns) && |o.columns| >= w.cfg.K()
    ensures w.cfg.ELL > 0 && |blocks| == w.nBlocks && BlocksAre(w.cfg, W, chi, blocks)
    ensures forall b :: 0 <= b < w.nBlocks ==> Codeword(w.cfg, blocks[b]) == Codeword(w.cfg, ProjectedBlock(w.cfg, W, padding, chi, b))
    ensures forall g :: Built(h, w.cfg, g) && g.root == pRoot ==> OpenedAre(w.cfg, g, o)
  {
    hide *;
    EnrolledParts(h, w, W, padding);
    EnrolledSize(h, w, W, padding);
    forall b | 0 <= b < w.nBlocks
      ensures |blocks| == w.nBlocks && |blocks[b]| <= w.cfg.ELL
      ensures Codeword(w.cfg, blocks[b]) == Codeword(w.cfg, ProjectedBlock(w.cfg, W, padding, chi, b))
    {
      WordsAgree(h, w, W, padding, chi, pRoot, o, blocks, b);
    }
    KPositive(w.cfg);
    SideParts(h, w.cfg, w.commit.root, pRoot, chi, o, blocks);
    BlockCount(h, w, W, padding, chi, pRoot, o, 0);
    PIsPositive();
    forall j | 0 <= j < |W[0]| ensures Slot(w.cfg, blocks, j) % P == Mix(W, chi, j) % P {
      SlotSound(w.cfg, W, padding, chi, blocks, j);
    }
    BlocksAreIs(w.cfg, W, chi, blocks);
    forall g | Built(h, w.cfg, g) && g.root == pRoot ensures OpenedAre(w.cfg, g, o) {
      OpenedBehind(h, w.cfg, w.commit.root, g, chi, o, blocks);
    }
  }

  lemma EnrolledSize<T>(h: Hash<T>, w: Weights<T>, W: Matrix, padding: Padding)
    requires Enrolled(h, w, W, padding)
    ensures Rectangular(W) && PaddingFits(w.cfg, W, padding) && w.nBlocks == Blocks(w.cfg, |W[0]|)
    ensures |W[0]| > 0 ==> w.nBlocks > 0
  {
    BlockFits(w.cfg, |W[0]|, 0);
  }

  lemma SlotSound(cfg: Config, W: Matrix, padding: Padding, chi: seq<int>, blocks: Matrix, j: nat)
    requires cfg.Valid() && cfg.ELL > 0 && Rectangular(W) && PaddingFits(cfg, W, padding) && j < |W[0]|
    requires |blocks| == Blocks(cfg, |W[0]|)
    requires forall b :: 0 <= b < |blocks| ==> |blocks[b]| <= cfg.ELL
    requires forall b :: 0 <= b < |blocks| ==> Codeword(cfg, blocks[b]) == Codeword(cfg, ProjectedBlock(cfg, W, padding, chi, b))
    ensures Slot(cfg, blocks, j) % P == Mix(W, chi, j) % P
  {
    var all := Projected(cfg, W, padding, chi, Blocks(cfg, |W[0]|));
    hide Codeword, Mix, ProjectedBlock, Blocks, PaddingFits, Slot;
    var b, d := SlotPlace(cfg, |W[0]|, blocks, all, j);
    EncodingInjective(cfg, blocks[b], ProjectedBlock(cfg, W, padding, chi, b), d);
    FlatIsProjection(cfg, W, padding, chi, j);
    hide *;
    PIsPositive();
    ModMod(Mix(W, chi, j), P);
  }

  lemma SlotPlace(cfg: Config, nIn: nat, a: Matrix, c: Matrix, j: nat) returns (b: nat, d: nat)
    requires cfg.ELL > 0 && |a| == |c| == Blocks(cfg, nIn) && j < nIn
    ensures b < |a| && d < cfg.ELL && Slot(cfg, a, j) == At(a[b], d) && Slot(cfg, c, j) == At(c[b], d)
  {
    b, d := j / cfg.ELL, j % cfg.ELL;
    assert j == cfg.ELL * b + d;
    TimesCommute(cfg.ELL, b);
    BlockFits(cfg, nIn, b);
  }

  lemma BlocksAreIs(cfg: Config, W: Matrix, chi: seq<int>, blocks: Matrix)
    requires cfg.ELL > 0 && Rectangular(W) && |blocks| == Blocks(cfg, |W[0]|)
    requires forall j :: 0 <= j < |W[0]| ==> Slot(cfg, blocks, j) % P == Mix(W, chi, j) % P
    ensures BlocksAre(cfg, W, chi, blocks)
  {
    hide Slot, Mix, Blocks;
  }

  /** The projected values an opening shows are a commitment's columns. */
  ghost predicate OpenedAre<T>(cfg: Config, g: Commitment<T>, o: Opening<T>) {
    && AllWide(g.rows, cfg.N()) && |o.pValues| == |o.columns|
    && forall k :: 0 <= k < |o.columns| ==> 0 <= o.columns[k] < cfg.N() && o.pValues[k] == Column(g.rows, cfg.N(), o.columns[k])
  }

  lemma OpenedBehind<T(!new)>(h: Hash<T>, cfg: Config, wRoot: T, g: Commitment<T>, chi: seq<int>, o: Opening<T>, blocks: Matrix)
    requires Binding(h) && Built(h, cfg, g) && SideAccepted(h, cfg, wRoot, g.root, chi, o, blocks)
    ensures OpenedAre(cfg, g, o)
  {
    hide SeamVerdict, BindVerdict, Built, Column;
    BuiltIsWide(h, cfg, g);
    forall k | 0 <= k < |o.columns| ensures 0 <= o.columns[k] < cfg.N() && o.pValues[k] == Column(g.rows, cfg.N(), o.columns[k]) {
      RootHolds(h, cfg, wRoot, g, chi, o, k);
    }
  }

  // ------------------------------------------------------------------ the sumcheck

  /** An accepted unmasked product claims the product's sum, or was lucky in a round. */
  lemma ProductSound(proof: SumcheckProof, factors: seq<seq<int>>, n: nat) returns (k: nat)
    requires Factors(factors, n) && !proof.masked && ProductVerdict(proof, factors) == Accept
    requires proof.claim % P != ProductSum(factors, Pow2(n)) % P
    ensures |proof.roundPolys| == |proof.challenges| == n && k < n
    ensures LuckyRound(OneProduct(factors), n, proof.roundPolys, proof.challenges, k)
  {
    hide *;
    PIsPositive();
    ProductIsUniform(factors, n);
    TotalIsProductSum(factors, Pow2(n));
    ProductVerdictIs(proof, factors, n);
    k := FalseClaimNeedsLuck(proof, OneProduct(factors), n, CoinFnOf(Listed(proof.challenges)));
  }
}
