/** layergkr/projection.py: weights enrolled, projected and flattened. */
module Projection {
  // Weights are enrolled block-major and projected to one row per block; the seam check ties the fresh
  // projection to the persistent root, column by column.

  import opened NumberTheory
  import opened Field
  import opened Polynomial
  import opened Domain
  import opened Rs
  import opened Merkle
  import opened Rows
  import opened Commit
  import Protocol

  datatype Padding = NoPadding | Secret(rows: Matrix)

  // --------------------------------------------------------- block-major layout

  /** ceil(n_in / ELL) */
  function Blocks(cfg: Config, nIn: nat): nat
    requires cfg.ELL > 0
  {
    (nIn + cfg.ELL - 1) / cfg.ELL
  }

  function Lo(cfg: Config, b: nat): nat { b * cfg.ELL }

  function Hi(cfg: Config, nIn: nat, b: nat): nat {
    if Lo(cfg, b) + cfg.ELL <= nIn then Lo(cfg, b) + cfg.ELL else nIn
  }

  lemma BlockFits(cfg: Config, nIn: nat, b: nat)
    requires cfg.ELL > 0
    ensures b < Blocks(cfg, nIn) <==> Lo(cfg, b) < nIn
    ensures b < Blocks(cfg, nIn) ==> Lo(cfg, b) < Hi(cfg, nIn, b) <= nIn && Hi(cfg, nIn, b) - Lo(cfg, b) <= cfg.ELL
  {
    CeilDivision(nIn, cfg.ELL, b);
  }

  lemma CeilDivision(n: nat, d: nat, b: nat)
    requires d > 0
    ensures b < (n + d - 1) / d <==> b * d < n
  {
    var q := (n + d - 1) / d;
    assert n + d - 1 == q * d + (n + d - 1) % d;
    if b < q { MulMonotone(b + 1, q, d, d); assert (b + 1) * d == b * d + d; }
    else { MulMonotone(q, b, d, d); }
  }

  /** Output i's slots in block b: its weights, then the tail the last block alone has. */
  function MessageRow(cfg: Config, W: Matrix, padding: Padding, b: nat, i: nat): (r: seq<int>)
    requires cfg.ELL > 0 && Rectangular(W) && b < Blocks(cfg, |W[0]|) && i < |W| && PaddingFits(cfg, W, padding)
    ensures |r| == cfg.ELL
    ensures forall j :: 0 <= j < cfg.ELL && Lo(cfg, b) + j < |W[0]| ==> r[j] == W[i][Lo(cfg, b) + j]
  {
    BlockFits(cfg, |W[0]|, b);
    TailIsLast(cfg, |W[0]|, b);
    var lo, hi := Lo(cfg, b), Hi(cfg, |W[0]|, b);
    var tail := cfg.ELL - (hi - lo);
    W[i][lo..hi] + if tail > 0 && padding.Secret? then padding.rows[i][..tail] else seq(tail, _ => 0)
  }

  /** (-n_in) % ELL */
  function TailLength(cfg: Config, nIn: nat): nat
    requires cfg.ELL > 0
  {
    var n: int := nIn;
    (-n) % cfg.ELL
  }

  lemma TailIsLast(cfg: Config, nIn: nat, b: nat)
    requires cfg.ELL > 0 && b < Blocks(cfg, nIn)
    ensures var tail := cfg.ELL - (Hi(cfg, nIn, b) - Lo(cfg, b));
      tail == if b == Blocks(cfg, nIn) - 1 then TailLength(cfg, nIn) else 0
  {
    BlockFits(cfg, nIn, b);
    BlockFits(cfg, nIn, b + 1);
    assert Lo(cfg, b + 1) == Lo(cfg, b) + cfg.ELL;
    if b == Blocks(cfg, nIn) - 1 {
      var n: int := nIn;
      Congruent(-n, cfg.ELL - (n - Lo(cfg, b)), -(b + 1), cfg.ELL);
      assert cfg.ELL * -(b + 1) == -(Lo(cfg, b) + cfg.ELL);
      ModSmall(cfg.ELL - (nIn - Lo(cfg, b)), cfg.ELL);
    }
  }

  /** Long enough wherever a tail exists: the condition enroll checks. */
  ghost predicate PaddingFits(cfg: Config, W: Matrix, padding: Padding)
    requires cfg.ELL > 0 && |W| > 0
  {
    padding.Secret? ==> |padding.rows| >= |W| && (|W[0]| > 0 ==>
      forall i :: 0 <= i < |W| ==> |padding.rows[i]| >= TailLength(cfg, |W[0]|))
  }

  function BlockRows(cfg: Config, W: Matrix, padding: Padding, b: nat): (rows: Matrix)
    requires cfg.ELL > 0 && Rectangular(W) && b < Blocks(cfg, |W[0]|) && PaddingFits(cfg, W, padding)
    ensures |rows| == |W| && AllWide(rows, cfg.ELL)
    ensures forall i :: 0 <= i < |W| ==> rows[i] == MessageRow(cfg, W, padding, b, i)
  {
    seq(|W|, i requires 0 <= i < |W| => MessageRow(cfg, W, padding, b, i))
  }

  /** Row index = b * n_out + i. */
  function Messages(cfg: Config, W: Matrix, padding: Padding, n: nat): (rows: Matrix)
    requires cfg.ELL > 0 && Rectangular(W) && n <= Blocks(cfg, |W[0]|) && PaddingFits(cfg, W, padding)
    ensures |rows| == n * |W| && AllWide(rows, cfg.ELL)
  {
    if n == 0 then []
    else
      var before := Messages(cfg, W, padding, n - 1);
      assert (n - 1) * |W| + |W| == n * |W|;
      before + BlockRows(cfg, W, padding, n - 1)
  }

  lemma {:induction false} BlockOf(cfg: Config, W: Matrix, padding: Padding, n: nat, b: nat)
    requires cfg.ELL > 0 && Rectangular(W) && b < n <= Blocks(cfg, |W[0]|) && PaddingFits(cfg, W, padding)
    ensures b * |W| + |W| <= n * |W|
    ensures Messages(cfg, W, padding, n)[b * |W|..b * |W| + |W|] == BlockRows(cfg, W, padding, b)
  {
    MulMonotone(b + 1, n, |W|, |W|);
    assert (b + 1) * |W| == b * |W| + |W|;
    var before := Messages(cfg, W, padding, n - 1);
    assert |before| == (n - 1) * |W|;
    if b < n - 1 {
      BlockOf(cfg, W, padding, n - 1, b);
      assert Messages(cfg, W, padding, n)[b * |W|..b * |W| + |W|] == before[b * |W|..b * |W| + |W|];
    }
  }

  // ---------------------------------------------------------------- enrolment

  datatype Weights<T> = Weights(cfg: Config, nIn: nat, nOut: nat, commit: Commitment<T>, messages: Matrix, nBlocks: nat)

  ghost predicate Enrolled<T>(h: Hash<T>, w: Weights<T>, W: Matrix, padding: Padding) {
    && w.cfg.Valid() && Rectangular(W) && PaddingFits(w.cfg, W, padding)
    && w.nOut == |W| && w.nIn == |W[0]| && w.nBlocks == Blocks(w.cfg, w.nIn)
    && w.messages == Messages(w.cfg, W, padding, w.nBlocks)
    && Built(h, w.cfg, w.commit) && w.commit.rows == Encoded(w.cfg, w.messages)
  }

  method Enroll<T>(h: Hash<T>, cfg: Config, L: seq<seq<int>>, W: Matrix, padding: Padding)
    returns (r: Result<Weights<T>>)
    requires cfg.Valid() && IsLagrangeMatrix(cfg, L) && Rectangular(W)
    requires padding.Secret? ==> |padding.rows| >= |W|
    ensures r.Ok? <==> PaddingFits(cfg, W, padding)
    ensures r.Ok? ==> r.value.cfg == cfg && Enrolled(h, r.value, W, padding)
  {
    var nOut, nIn := |W|, |W[0]|;
    var blocks := Blocks(cfg, nIn);
    var msgs: Matrix := [];
    BlockFits(cfg, nIn, 0);
    for b := 0 to blocks
      invariant b == blocks && nIn > 0 ==> PaddingFits(cfg, W, padding)
      invariant b < blocks || PaddingFits(cfg, W, padding)
      invariant PaddingFits(cfg, W, padding) ==> msgs == Messages(cfg, W, padding, b)
    {
      BlockFits(cfg, nIn, b);
      TailIsLast(cfg, nIn, b);
      var lo, hi := Lo(cfg, b), Hi(cfg, nIn, b);
      var padLen := cfg.ELL - (hi - lo);
      var rows: Matrix := [];
      for i := 0 to nOut
        invariant |rows| == i
        invariant padLen > 0 && padding.Secret? ==> forall k :: 0 <= k < i ==> |padding.rows[k]| >= padLen
        invariant PaddingFits(cfg, W, padding) ==> forall k :: 0 <= k < i ==> rows[k] == MessageRow(cfg, W, padding, b, k)
      {
        if padLen > 0 && padding.Secret? && |padding.rows[i]| < padLen {
          return ValueError;
        }
        var pad := if padLen > 0 && padding.Secret? then padding.rows[i][..padLen] else seq(padLen, _ => 0);
        rows := rows + [W[i][lo..hi] + pad];
      }
      assert PaddingFits(cfg, W, padding) ==> rows == BlockRows(cfg, W, padding, b);
      msgs := msgs + rows;
    }
    var c := FromMessages(h, cfg, L, msgs);
    match c
    case ValueError =>
      return ValueError;
    case Ok(commit) =>
      r := Ok(Weights(cfg, nIn, nOut, commit, msgs, blocks));
  }

  // --------------------------------------------------------------- projection

  function ProjectedBlock(cfg: Config, W: Matrix, padding: Padding, chi: seq<int>, b: nat): (m: seq<int>)
    requires cfg.ELL > 0 && Rectangular(W) && b < Blocks(cfg, |W[0]|) && PaddingFits(cfg, W, padding)
    ensures |m| == cfg.ELL
  {
    Mixed(BlockRows(cfg, W, padding, b), chi, cfg.ELL)
  }

  function Projected(cfg: Config, W: Matrix, padding: Padding, chi: seq<int>, n: nat): (p: Matrix)
    requires cfg.ELL > 0 && Rectangular(W) && n <= Blocks(cfg, |W[0]|) && PaddingFits(cfg, W, padding)
    ensures |p| == n && AllWide(p, cfg.ELL)
    ensures forall b :: 0 <= b < n ==> p[b] == ProjectedBlock(cfg, W, padding, chi, b)
  {
    seq(n, b requires 0 <= b < n => ProjectedBlock(cfg, W, padding, chi, b))
  }

  /** The rows of one block, combined slot by slot. */
  method ProjectMessage<T>(ghost h: Hash<T>, w: Weights<T>, chi: seq<int>, ghost W: Matrix, ghost padding: Padding)
    returns (r: Result<Matrix>)
    requires Enrolled(h, w, W, padding)
    ensures r == if |chi| != w.nOut then ValueError else Ok(Projected(w.cfg, W, padding, chi, w.nBlocks))
  {
    if |chi| != w.nOut {
      return ValueError;
    }
    var out: Matrix := [];
    for b := 0 to w.nBlocks
      invariant out == Projected(w.cfg, W, padding, chi, b)
    {
      hide BlockRows, Mix, Messages, Base, Codeword;
      var base := Base(b, w.nOut);
      BlockCodewords(h, w, W, padding, b, base);
      var rows := w.messages[base..base + w.nOut];
      var acc := LinearCombination(w.cfg.ELL, rows, chi);
      assert acc.value == ProjectedBlock(w.cfg, W, padding, chi, b);
      out := out + [acc.value];
    }
    r := Ok(out);
  }

  /** The blocks without their tails, end to end. */
  method FlattenProjection(cfg: Config, nIn: nat, blocks: Matrix) returns (flat: seq<int>)
    requires cfg.ELL > 0 && |blocks| == Blocks(cfg, nIn) && AllWide(blocks, cfg.ELL)
    ensures |flat| == nIn && forall j :: 0 <= j < nIn ==> flat[j] == Slot(cfg, blocks, j)
  {
    flat := [];
    BlockFits(cfg, nIn, 0);
    BlockFits(cfg, nIn, |blocks|);
    for b := 0 to |blocks|
      invariant |flat| == if Lo(cfg, b) <= nIn then Lo(cfg, b) else nIn
      invariant forall j :: 0 <= j < |flat| ==> flat[j] == Slot(cfg, blocks, j)
    {
      BlockFits(cfg, nIn, b);
      var lo, hi := Lo(cfg, b), Hi(cfg, nIn, b);
      assert Lo(cfg, b + 1) == lo + cfg.ELL;
      var msg := blocks[b][..hi - lo];
      forall j | lo <= j < hi ensures msg[j - lo] == Slot(cfg, blocks, j) {
        SlotIsHere(cfg, blocks, b, j);
      }
      flat := flat + msg;
    }
  }

  /** Coordinate j of the flat vector, wherever its block put it. */
  function Slot(cfg: Config, blocks: Matrix, j: nat): int
    requires cfg.ELL > 0
  {
    var b := j / cfg.ELL;
    if b < |blocks| then At(blocks[b], j % cfg.ELL) else 0
  }

  lemma SlotIsHere(cfg: Config, blocks: Matrix, b: nat, j: nat)
    requires cfg.ELL > 0 && b < |blocks| && Lo(cfg, b) <= j < Lo(cfg, b) + cfg.ELL <= Lo(cfg, b) + |blocks[b]|
    ensures Slot(cfg, blocks, j) == blocks[b][j - Lo(cfg, b)]
  {
    QuotientUnique(j, cfg.ELL, b, j - Lo(cfg, b));
  }

  lemma {:induction false} MixExt(rows: Matrix, W: Matrix, chi: seq<int>, j: nat, k: nat)
    requires |rows| == |W| && forall i :: 0 <= i < |rows| ==> At(rows[i], j) == At(W[i], k)
    ensures Mix(rows, chi, j) == Mix(W, chi, k)
  {
    if rows != [] && chi != [] {
      assert At(rows[0], j) == At(W[0], k);
      forall i | 0 <= i < |rows[1..]| ensures At(rows[1..][i], j) == At(W[1..][i], k) {
        assert rows[1..][i] == rows[i + 1] && W[1..][i] == W[i + 1];
      }
      MixExt(rows[1..], W[1..], chi[1..], j, k);
    }
  }

  lemma ProjectedSlot(cfg: Config, W: Matrix, padding: Padding, chi: seq<int>, b: nat, j: nat)
    requires cfg.ELL > 0 && Rectangular(W) && b < Blocks(cfg, |W[0]|) && PaddingFits(cfg, W, padding) && j < cfg.ELL
    ensures ProjectedBlock(cfg, W, padding, chi, b)[j] == Mix(BlockRows(cfg, W, padding, b), chi, j) % P
  {
    hide BlockRows, Mix, Blocks;
  }

  /** Across all blocks the flat projection is sum_i chi[i] * W[i][j], reduced. */
  lemma FlatIsProjection(cfg: Config, W: Matrix, padding: Padding, chi: seq<int>, j: nat)
    requires cfg.Valid() && Rectangular(W) && PaddingFits(cfg, W, padding) && j < |W[0]|
    ensures Slot(cfg, Projected(cfg, W, padding, chi, Blocks(cfg, |W[0]|)), j) == Mix(W, chi, j) % P
  {
    var b := j / cfg.ELL;
    assert Lo(cfg, b) <= j < Lo(cfg, b) + cfg.ELL by {
      assert j == cfg.ELL * b + j % cfg.ELL;
    }
    hide Lo, Blocks, Slot, Mix, MessageRow, PaddingFits, BlockRows, ProjectedBlock;
    BlockFits(cfg, |W[0]|, b);
    var blocks := Projected(cfg, W, padding, chi, Blocks(cfg, |W[0]|));
    SlotIsHere(cfg, blocks, b, j);
    ProjectedSlot(cfg, W, padding, chi, b, j - Lo(cfg, b));
    var rows := BlockRows(cfg, W, padding, b);
    forall i | 0 <= i < |rows| ensures At(rows[i], j - Lo(cfg, b)) == At(W[i], j) {
      assert rows[i] == MessageRow(cfg, W, padding, b, i);
    }
    MixExt(rows, W, chi, j - Lo(cfg, b), j);
  }

  // ----------------------------------------------------- the projected commitment

  lemma {:induction false} MixConcat(r: Matrix, s: Matrix, c: seq<int>, d: seq<int>, j: nat)
    requires |r| == |c|
    ensures Mix(r + s, c + d, j) == Mix(r, c, j) + Mix(s, d, j)
  {
    if r == [] {
      assert r + s == s && c + d == d;
    } else {
      MixConcat(r[1..], s, c[1..], d, j);
      assert (r + s)[1..] == r[1..] + s && (c + d)[1..] == c[1..] + d;
    }
  }

  lemma {:induction false} MixZeros(r: Matrix, c: seq<int>, j: nat)
    requires forall i :: 0 <= i < |c| ==> c[i] == 0
    ensures Mix(r, c, j) == 0
  {
    if r != [] && c != [] {
      MixZeros(r[1..], c[1..], j);
      TimesCommute(At(r[0], j), 0);
      TimesZero(At(r[0], j));
    }
  }

  /** Zero coefficients on both sides leave the middle rows. */
  lemma MixMiddle(a: Matrix, m: Matrix, z: Matrix, zerosA: seq<int>, chi: seq<int>, zerosZ: seq<int>, j: nat)
    requires |a| == |zerosA| && |m| == |chi| && |z| == |zerosZ|
    requires (forall i :: 0 <= i < |zerosA| ==> zerosA[i] == 0) && (forall i :: 0 <= i < |zerosZ| ==> zerosZ[i] == 0)
    ensures Mix(a + m + z, zerosA + chi + zerosZ, j) == Mix(m, chi, j)
  {
    hide Mix;
    MixConcat(a + m, z, zerosA + chi, zerosZ, j);
    MixConcat(a, m, zerosA, chi, j);
    MixZeros(a, zerosA, j);
    MixZeros(z, zerosZ, j);
  }

  lemma EncodedSlice(cfg: Config, messages: Matrix, lo: nat, hi: nat)
    requires lo <= hi <= |messages|
    ensures Encoded(cfg, messages)[lo..hi] == Encoded(cfg, messages[lo..hi])
  {}

  lemma BlockCodewords<T>(h: Hash<T>, w: Weights<T>, W: Matrix, padding: Padding, b: nat, lo: nat)
    requires Enrolled(h, w, W, padding) && b < w.nBlocks && lo == Base(b, w.nOut)
    ensures lo + w.nOut <= |w.commit.rows| == |w.messages| == Base(w.nBlocks, w.nOut) == Base(w.nOut, w.nBlocks)
    ensures AllWide(w.commit.rows, w.cfg.N())
    ensures w.commit.rows[lo..lo + w.nOut] == Encoded(w.cfg, BlockRows(w.cfg, W, padding, b))
    ensures w.messages[lo..lo + w.nOut] == BlockRows(w.cfg, W, padding, b)
  {
    hide BlockRows, Codeword;
    BlockOf(w.cfg, W, padding, w.nBlocks, b);
    TimesCommute(w.nBlocks, w.nOut);
    EncodedSlice(w.cfg, w.messages, lo, lo + w.nOut);
  }

  /** The combination of one block's codewords is the encoding of its projected block. */
  lemma BlockCombination<T>(h: Hash<T>, w: Weights<T>, W: Matrix, padding: Padding, chi: seq<int>, b: nat, lo: nat)
    requires Enrolled(h, w, W, padding) && |chi| == w.nOut && b < w.nBlocks && lo == Base(b, w.nOut)
    requires lo + w.nOut <= |w.commit.rows|
    ensures Mixed(w.commit.rows[lo..lo + w.nOut], chi, w.cfg.N())
            == Codeword(w.cfg, ProjectedBlock(w.cfg, W, padding, chi, b))
  {
    hide Codeword, Mix, BlockRows;
    BlockCodewords(h, w, W, padding, b, lo);
    CodeIsLinear(w.cfg, BlockRows(w.cfg, W, padding, b), chi);
  }

  /** [0]*n with the slice lo..lo+k replaced by chi: Python changes the length with it. */
  function Placed(n: nat, lo: nat, k: nat, chi: seq<int>): (v: seq<int>)
    requires lo + k <= n
    ensures |v| == n - k + |chi|
  {
    seq(lo, _ => 0) + chi + seq(n - lo - k, _ => 0)
  }

  lemma PlacedMixed(rows: Matrix, chi: seq<int>, lo: nat, n: nat)
    requires lo + |chi| <= |rows|
    ensures Mixed(rows, Placed(|rows|, lo, |chi|, chi), n) == Mixed(rows[lo..lo + |chi|], chi, n)
  {
    hide Mix;
    var hi := lo + |chi|;
    var m := rows[lo..hi];
    ThreeParts(rows, lo, hi);
    forall j | 0 <= j < n ensures Mix(rows, Placed(|rows|, lo, |chi|, chi), j) == Mix(m, chi, j) {
      MixMiddle(rows[..lo], m, rows[hi..], seq(lo, _ => 0), chi, seq(|rows| - lo - |chi|, _ => 0), j);
    }
  }

  lemma ThreeParts<T>(s: seq<T>, lo: nat, hi: nat)
    requires lo <= hi <= |s|
    ensures s == s[..lo] + s[lo..hi] + s[hi..]
  {}

  /** The combination of one block; a chi of the wrong length is refused. */
  method CombineBlock<T>(h: Hash<T>, w: Weights<T>, chi: seq<int>, b: nat, ghost W: Matrix, ghost padding: Padding)
    returns (r: Result<seq<int>>)
    requires Enrolled(h, w, W, padding) && b < w.nBlocks
    ensures r == if |chi| != w.nOut then ValueError else Ok(Codeword(w.cfg, ProjectedBlock(w.cfg, W, padding, chi, b)))
  {
    hide *;
    PIsPositive();
    var lo, size, n := Base(b, w.nOut), Base(w.nOut, w.nBlocks), w.cfg.N();
    BlockCodewords(h, w, W, padding, b, lo);
    WidthsReach(w.commit.rows, n);
    var v := Placed(size, lo, w.nOut, chi);
    r := LinearCombination(n, w.commit.rows, v);
    if r.Ok? {
      PlacedMixed(w.commit.rows, chi, lo, n);
      BlockCombination(h, w, W, padding, chi, b, lo);
      assert r.value == Mixed(w.commit.rows, v, n);
    }
  }

  /** R_P: one row per block, each the encoding of its projected block. */
  method CommitProjection<T>(h: Hash<T>, w: Weights<T>, chi: seq<int>, ghost W: Matrix, ghost padding: Padding)
    returns (r: Result<Commitment<T>>)
    requires Enrolled(h, w, W, padding)
    ensures r.Ok? <==> |chi| == w.nOut || w.nBlocks == 0
    ensures r.Ok? ==> Built(h, w.cfg, r.value)
    ensures r.Ok? ==> r.value.rows == Encoded(w.cfg, Projected(w.cfg, W, padding, chi, w.nBlocks))
  {
    hide Codeword, Mix, BlockRows, ProjectedBlock, Built;
    var rows: Matrix := [];
    ghost var blocks := Projected(w.cfg, W, padding, chi, w.nBlocks);
    if w.nBlocks == 1 {
      BlockCodewords(h, w, W, padding, 0, 0);
      var cw := LinearCombination(w.cfg.N(), w.commit.rows, chi);
      match cw
      case ValueError =>
        return ValueError;
      case Ok(word) =>
        BlockCombination(h, w, W, padding, chi, 0, 0);
        assert w.commit.rows[0..0 + w.nOut] == w.commit.rows;
        assert word == Mixed(w.commit.rows, chi, w.cfg.N());
        rows := [word];
    } else {
      for b := 0 to w.nBlocks
        invariant |rows| == b && (b > 0 ==> |chi| == w.nOut)
        invariant forall k :: 0 <= k < b ==> rows[k] == Codeword(w.cfg, blocks[k])
      {
        var cw := CombineBlock(h, w, chi, b, W, padding);
        match cw
        case ValueError =>
          return ValueError;
        case Ok(word) =>
          rows := rows + [word];
      }
    }
    assert rows == Encoded(w.cfg, blocks);
    RowsAreWide(w.cfg, blocks);
    var c := CommitRows(h, w.cfg, rows);
    r := Ok(c);
  }

  lemma WidthsReach(rows: Matrix, n: nat)
    requires AllWide(rows, n)
    ensures forall i :: 0 <= i < |rows| ==> |rows[i]| >= n
  {}

  lemma RowsAreWide(cfg: Config, messages: Matrix)
    ensures AllWide(Encoded(cfg, messages), cfg.N())
  {}
}
