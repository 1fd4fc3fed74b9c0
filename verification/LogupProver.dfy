/** The staged LogUp object: each stage is refused unless the one before it has run, so the
    reciprocal point exists only after the compressed tuples are committed and absorbed. */
module LogupProver {
  import opened NumberTheory
  import opened Field
  import opened Polynomial
  import opened Domain
  import opened Sumcheck
  import opened Protocol
  import opened Rows
  import opened Permutation
  import opened PowerOfTwo
  import opened EqWeights
  import opened Products
  import opened Logup
  import R = Rs
  import C = Commit
  import M = Merkle
  import T = Transcript

  type Bytes = T.Bytes

  /** Digests of 32 bytes. */
  ghost predicate ByteHash(h: C.Hash<Bytes>) {
    (forall v :: |h.leaf(v)| == 32) && forall a, b :: |h.node(a, b)| == 32
  }

  lemma {:induction false} RootIsDigest(h: C.Hash<Bytes>, leaves: seq<Bytes>)
    requires leaves != [] && ByteHash(h) && forall i :: 0 <= i < |leaves| ==> |leaves[i]| == 32
    ensures |M.TreeRoot(h.node, leaves)| == 32
    decreases |leaves|
  {
    if |leaves| > 1 { RootIsDigest(h, M.Next(h.node, leaves)); }
  }

  lemma CommitmentRoot(h: C.Hash<Bytes>, cfg: Config, c: C.Commitment<Bytes>)
    requires ByteHash(h) && C.Built(h, cfg, c)
    ensures |c.root| == 32 < Pow2(64)
  {
    var leaves := C.Leaves(h, c.rows, cfg.N());
    assert |leaves| == cfg.N() > 0;
    forall i | 0 <= i < |leaves| ensures |leaves[i]| == 32 {
      assert leaves[i] == h.leaf(C.Column(c.rows, cfg.N(), i));
    }
    RootIsDigest(h, leaves);
    Pow2Monotone(6, 64);
    assert Pow2(6) == 64;
  }

  lemma ChunksFit(q: seq<int>, t: seq<int>, ell: nat)
    requires ell > 0
    ensures C.AllFit(Chunks(q, ell) + Chunks(t, ell), ell)
  {}

  /** The column-Merkle root of the encoded rows. */
  ghost function RowsRoot(h: C.Hash<Bytes>, cfg: Config, rows: seq<seq<int>>): Bytes {
    var words := R.Encoded(cfg, rows);
    M.TreeRoot(h.node, C.Leaves(h, words, cfg.N()))
  }

  lemma BuiltRoot(h: C.Hash<Bytes>, cfg: Config, c: C.Commitment<Bytes>, rows: seq<seq<int>>)
    requires C.Built(h, cfg, c) && c.rows == R.Encoded(cfg, rows)
    ensures c.root == RowsRoot(h, cfg, rows)
  {
    hide R.Encoded, R.Codeword;
  }

  /** The root of a commitment to rows that fit. */
  method CommitRoot(h: C.Hash<Bytes>, cfg: Config, L: seq<seq<int>>, rows: seq<seq<int>>) returns (root: Bytes)
    requires cfg.Valid() && ByteHash(h) && R.IsLagrangeMatrix(cfg, L) && C.AllFit(rows, cfg.ELL)
    ensures |root| < Pow2(64) && root == RowsRoot(h, cfg, rows)
  {
    hide *;
    var c := C.FromMessages(h, cfg, L, rows);
    CommitmentRoot(h, cfg, c.value);
    BuiltRoot(h, cfg, c.value, rows);
    root := c.value.root;
  }

  datatype Stage = Init | Raw | Cmp | Ready

  /** The first at most n entries. */
  function Cut(v: seq<int>, n: nat): (r: seq<int>)
    ensures |r| <= n
  {
    if |v| <= n then v else v[..n]
  }

  /** One row per padded query and one per multiplicity. */
  function RawRows(queries: seq<Tuple>, mult: seq<int>, ell: nat): (rows: seq<seq<int>>)
    ensures C.AllFit(rows, ell)
  {
    seq(|queries|, i requires 0 <= i < |queries| => Cut(PadPow2(Reduced(queries[i])), ell))
    + seq(|mult|, i requires 0 <= i < |mult| => Cut([mult[i] % P], ell))
  }

  /** The values in runs of ELL. */
  function Chunks(v: seq<int>, ell: nat): (rows: seq<seq<int>>)
    requires ell > 0
    ensures C.AllFit(rows, ell)
    decreases |v|
  {
    if v == [] then [] else [Cut(v, ell)] + if |v| <= ell then [] else Chunks(v[ell..], ell)
  }

  /** The compressed columns in runs of ELL, queries first. */
  function CompressedRows(q: seq<int>, t: seq<int>, ell: nat): (rows: seq<seq<int>>)
    requires ell > 0
    ensures C.AllFit(rows, ell)
  {
    ChunksFit(PadPow2(q), PadPow2(t), ell);
    Chunks(PadPow2(q), ell) + Chunks(PadPow2(t), ell)
  }

  datatype Outcome = NotProved | Proved(proof: LogUpProof)

  class LogUp {
    const cfg: Config
    const tableId: int
    var queries: seq<Tuple>
    var table: seq<Tuple>
    var mult: seq<int>
    var stage: Stage
    var alpha: int
    var qVals: seq<int>
    var tVals: seq<int>
    var rQ: seq<int>
    var rT: seq<int>
    ghost var beta: int

    /** What holds at every stage. */
    ghost predicate Valid()
      reads this
    {
      && cfg.Valid() && table != [] && AllMembers(queries, table)
      && |queries| == Pow2(CeilLog(|queries|)) && |table| == Pow2(CeilLog(|table|))
      && mult == Multiplicities(queries, table)
      && (stage.Cmp? || stage.Ready? ==> qVals == Compressed(tableId, queries, beta) && tVals == Compressed(tableId, table, beta))
      && (stage.Ready? ==> rQ == Reciprocals(alpha, qVals) && rT == Reciprocals(alpha, tVals))
    }

    /** Both sides padded to powers of two, the queries with a real row. */
    constructor (cfg: Config, tableId: int, queries: seq<Tuple>, table: seq<Tuple>)
      requires cfg.Valid() && table != [] && AllMembers(queries, table)
      ensures Valid() && stage == Init && this.cfg == cfg && this.tableId == tableId
      ensures this.queries == PadQueries(queries, table[0]) && this.table == PadTable(table)
      ensures Inner(mult, seq(|mult|, _ => 1), |mult|) == |this.queries|
    {
      this.cfg, this.tableId := cfg, tableId;
      this.queries, this.table := PadQueries(queries, table[0]), PadTable(table);
      PaddedMembers(queries, table);
      PaddedTotal(queries, table);
      mult := Multiplicities(PadQueries(queries, table[0]), PadTable(table));
      stage, alpha := Init, 0;
      qVals, tVals, rQ, rT, beta := [], [], [], [], 0;
      new;
      CeilLogOfPow2(CeilLog(|queries|));
      CeilLogOfPow2(CeilLog(|table|));
    }

    /** The root of the raw tuples and multiplicities. */
    ghost function RawCommitment(h: C.Hash<Bytes>): Bytes
      reads this`queries, this`mult
    {
      RowsRoot(h, cfg, RawRows(queries, mult, cfg.ELL))
    }

    lemma RawCommitmentIs(h: C.Hash<Bytes>)
      ensures RawCommitment(h) == RowsRoot(h, cfg, RawRows(queries, mult, cfg.ELL))
    {}

    method RawRoot(h: C.Hash<Bytes>, L: seq<seq<int>>) returns (root: Bytes)
      requires Valid() && ByteHash(h) && R.IsLagrangeMatrix(cfg, L)
      ensures |root| < Pow2(64) && root == RawCommitment(h)
    {
      hide *;
      ValidIs();
      RawCommitmentIs(h);
      root := CommitRoot(h, cfg, L, RawRows(queries, mult, cfg.ELL));
    }

    /** Stage 1. Refused out of order; the tuples themselves never change. */
    method CommitRaw(h: C.Hash<Bytes>, L: seq<seq<int>>, tr: T.Transcript, name: string) returns (ok: bool)
      requires Valid() && tr.Valid() && ByteHash(h) && R.IsLagrangeMatrix(cfg, L) && |name| < 65536
      modifies this`stage, tr, tr.schedule
      ensures Valid() && tr.Valid()
      ensures ok ==> old(stage) == Init && stage == Raw
      ensures !ok ==> stage == old(stage)
      ensures ok <==> old(stage) == Init && old(tr.Allows("absorb", name))
      ensures ok ==> tr.log == old(tr.log) + [T.Absorbed(name, RawCommitment(h))]
    {
      hide *;
      if stage != Init {
        return false;
      }
      ValidIs();
      var root := RawRoot(h, L);
      ok := tr.Absorb(name, root);
      if ok {
        stage := Raw;
        ValidIs();
      }
    }

    /** Stage 2: only after the raw tuples, and before alpha. */
    method Compress(h: C.Hash<Bytes>, L: seq<seq<int>>, beta: int, tr: T.Transcript, name: string) returns (ok: bool)
      requires Valid() && tr.Valid() && ByteHash(h) && R.IsLagrangeMatrix(cfg, L) && |name| < 65536
      modifies this`stage, this`qVals, this`tVals, this`beta, tr, tr.schedule
      ensures Valid() && tr.Valid()
      ensures ok <==> old(stage) == Raw && old(tr.Allows("absorb", name))
      ensures ok ==> stage == Cmp && this.beta == beta && cfg.ELL > 0
      ensures ok ==> tr.log == old(tr.log) + [T.Absorbed(name, RowsRoot(h, cfg, CompressedRows(qVals, tVals, cfg.ELL)))]
      ensures !ok ==> stage == old(stage) && (old(stage) != Raw ==> qVals == old(qVals) && tVals == old(tVals))
    {
      hide *;
      if stage != Raw {
        return false;
      }
      ValidIs();
      var q, t := CompressedValues(tableId, queries, table, beta);
      var root := CommitRoot(h, cfg, L, CompressedRows(q, t, cfg.ELL));
      qVals, tVals := q, t;
      this.beta := beta;
      ValidIs();
      ok := tr.Absorb(name, root);
      if ok {
        stage := Cmp;
        ValidIs();
      }
    }

    lemma ValidIs()
      ensures Valid() <==>
        (&& cfg.Valid() && cfg.ELL > 0 && table != [] && AllMembers(queries, table)
         && |queries| == Pow2(CeilLog(|queries|)) && |table| == Pow2(CeilLog(|table|))
         && mult == Multiplicities(queries, table)
         && (stage.Cmp? || stage.Ready? ==> qVals == Compressed(tableId, queries, beta) && tVals == Compressed(tableId, table, beta))
         && (stage.Ready? ==> rQ == Reciprocals(alpha, qVals) && rT == Reciprocals(alpha, tVals)))
    {
      hide AllMembers, Multiplicities, Compressed, Reciprocals, CeilLog, Pow2;
    }

    /** Stage 3: reciprocals, only once the compressed values are bound. */
    method Build(alpha: int) returns (ok: bool)
      requires Valid()
      modifies this`stage, this`alpha, this`rQ, this`rT
      ensures Valid() && ok == (old(stage) == Cmp)
      ensures if ok then stage == Ready && this.alpha == alpha else stage == old(stage)
    {
      if stage != Cmp {
        return false;
      }
      hide *;
      ValidIs();
      this.alpha := alpha;
      rQ := BatchReciprocals(alpha, qVals);
      rT := BatchReciprocals(alpha, tVals);
      stage := Ready;
      ok := true;
      ValidIs();
    }

    /** Stage 4. A side with one padded entry gets a two-entry eq, which does not fit it. */
    method Prove(tr: T.Transcript) returns (out: Outcome)
      requires Valid() && tr.Valid()
      modifies tr, tr.schedule
      ensures tr.Valid()
      ensures stage != Ready || |queries| == 1 || |table| == 1 ==> out == NotProved
      ensures tr.schedule == null && stage == Ready && |queries| > 1 && |table| > 1 ==> out.Proved?
      ensures out.Proved? ==> HonestProof(out.proof, tr.oracle, tr.domain, old(tr.log))
      ensures out.Proved? ==> tr.log == old(tr.log) + SixCoins(CeilLog(|queries|), CeilLog(|table|))
    {
      hide *;
      if stage != Ready {
        return NotProved;
      }
      SizesSeen();
      ghost var nq, nt := CeilLog(|queries|), CeilLog(|table|);
      Log2OfPow2(nq);
      Log2OfPow2(nt);
      var vq := if Log2(|rQ|) >= 1 then Log2(|rQ|) else 1;
      var vt := if Log2(|rT|) >= 1 then Log2(|rT|) else 1;
      SixSizes(tr.oracle, tr.domain, tr.log, vq, vt);
      var ok, c := DrawSix(tr, vq, vt);
      if !ok || |rQ| == 1 || |rT| == 1 {
        return NotProved;
      }
      out := LogUpSumchecks(qVals, tVals, mult, alpha, rQ, rT, nq, nt, c[0], c[1], c[2..]);
      HonestProofIs(out.proof, tr.oracle, tr.domain, old(tr.log));
    }

    /** The proof of the argument for this object's values, on the coins that follow the log. */
    ghost predicate HonestProof(proof: LogUpProof, oracle: T.Oracle, domain: Bytes, log: seq<T.Entry>)
      reads this
    {
      IsProofAfter(proof, qVals, tVals, mult, alpha, CeilLog(|queries|), CeilLog(|table|), oracle, domain, log)
    }

    lemma HonestProofIs(proof: LogUpProof, oracle: T.Oracle, domain: Bytes, log: seq<T.Entry>)
      ensures var c := Drawn(oracle, domain, log, SixCoins(CeilLog(|queries|), CeilLog(|table|)));
        |c| == 6 && (HonestProof(proof, oracle, domain, log)
                     <==> proof.zQuery == c[0] && proof.zTable == c[1]
                          && IsLogUpProof(proof, qVals, tVals, mult, alpha, CeilLog(|queries|), CeilLog(|table|), c[2..]))
    {
      hide IsLogUpProof, CeilLog, T.CoinsAfter;
    }

    lemma SizesSeen()
      requires Valid() && stage == Ready
      ensures |rQ| == |qVals| == |queries| == Pow2(CeilLog(|queries|)) && |rT| == |tVals| == |table| == |mult| == Pow2(CeilLog(|table|))
      ensures rQ == Reciprocals(alpha, qVals) && rT == Reciprocals(alpha, tVals)
      ensures |queries| > 1 ==> CeilLog(|queries|) >= 1
      ensures |table| > 1 ==> CeilLog(|table|) >= 1
    {}
  }

  /** Why a lookup cannot be built. */
  datatype Refusal = Buildable | EmptyTable | NotInTable(query: Tuple)

  /** Every query's first missing one, if any. */
  function RefusalOf(queries: seq<Tuple>, table: seq<Tuple>): (r: Refusal)
    ensures r.Buildable? <==> table != [] && AllMembers(queries, table)
    ensures r.NotInTable? ==> r.query in queries && r.query !in table
  {
    if table == [] then EmptyTable else FirstMissing(queries, table)
  }

  function FirstMissing(queries: seq<Tuple>, table: seq<Tuple>): (r: Refusal)
    ensures r.Buildable? <==> AllMembers(queries, table)
    ensures r.NotInTable? ==> r.query in queries && r.query !in table
    ensures !r.EmptyTable?
  {
    if queries == [] then Buildable
    else if IndexOf(table, queries[0]) < 0 then NotInTable(queries[0])
    else
      assert forall i :: 1 <= i < |queries| ==> queries[i] == queries[1..][i - 1];
      FirstMissing(queries[1..], table)
  }

  /** The checks of LogUp's construction, then the object. */
  method NewLogUp(cfg: Config, tableId: int, queries: seq<Tuple>, table: seq<Tuple>) returns (why: Refusal, lu: LogUp?)
    requires cfg.Valid()
    ensures why == RefusalOf(queries, table) && (lu == null <==> !why.Buildable?)
    ensures lu != null ==> fresh(lu) && lu.Valid() && lu.stage == Init && lu.cfg == cfg && lu.tableId == tableId
    ensures lu != null ==> lu.queries == PadQueries(queries, table[0]) && lu.table == PadTable(table)
  {
    hide AllMembers, FirstMissing, PadQueries, PadTable, Multiplicities, Inner;
    why := RefusalOf(queries, table);
    lu := null;
    if why.Buildable? {
      lu := new LogUp(cfg, tableId, queries, table);
    }
  }

  function Name(i: nat): string
    requires i < 6
  {
    ["logup_zq", "logup_zt", "logup_cq", "logup_ct", "logup_qs", "logup_ts"][i]
  }

  /** The points and the round coins, query and table in turn. */
  function SixCoins(vq: nat, vt: nat): (es: seq<T.Entry>)
    ensures |es| == 6 && forall i :: 0 <= i < 6 ==> es[i] == T.Coin(Name(i), if i % 2 == 0 then vq else vt)
  {
    seq(6, i requires 0 <= i < 6 => T.Coin(Name(i), if i % 2 == 0 then vq else vt))
  }

  /** What a run of coins drawn after a log yields. */
  function Drawn(oracle: T.Oracle, domain: Bytes, log: seq<T.Entry>, coins: seq<T.Entry>): (c: seq<seq<int>>)
    requires forall i :: 0 <= i < |coins| ==> coins[i].Coin?
    ensures |c| == |coins|
    ensures forall i :: 0 <= i < |c|
              ==> c[i] == T.CoinsAfter(oracle, domain, log + coins[..i], coins[i].name, coins[i].count)
  {
    seq(|coins|, i requires 0 <= i < |coins| => T.CoinsAfter(oracle, domain, log + coins[..i], coins[i].name, coins[i].count))
  }

  /** The points and the round coins, in the order they are drawn. */
  method DrawSix(tr: T.Transcript, vq: nat, vt: nat) returns (ok: bool, c: seq<seq<int>>)
    requires tr.Valid()
    modifies tr, tr.schedule
    ensures tr.Valid() && (tr.schedule == null ==> ok)
    ensures ok ==> c == Drawn(tr.oracle, tr.domain, old(tr.log), SixCoins(vq, vt)) && tr.log == old(tr.log) + SixCoins(vq, vt)
  {
    c := [];
    ghost var es, log := SixCoins(vq, vt), tr.log;
    DrawnNone(tr.oracle, tr.domain, log, es);
    hide *;
    for i := 0 to 6
      invariant tr.Valid() && |c| == i && DrawnSoFar(tr.oracle, tr.domain, log, es, c, tr.log)
    {
      AllowsAll(tr);
      ghost var now := tr.log;
      SixAt(vq, vt, i);
      var d := tr.DrawCoin(Name(i), if i % 2 == 0 then vq else vt);
      if d.Refused? {
        return false, c;
      }
      DrawnNext(tr.oracle, tr.domain, log, es, c, now, d.values);
      c := c + [d.values];
    }
    DrawnAll(tr.oracle, tr.domain, log, vq, vt, c, tr.log);
    ok := true;
  }

  lemma SixAt(vq: nat, vt: nat, i: nat)
    requires i < 6
    ensures |SixCoins(vq, vt)| == 6 && SixCoins(vq, vt)[i] == T.Coin(Name(i), if i % 2 == 0 then vq else vt) && |Name(i)| < 65536
  {}

  /** The first |c| coins of the list are drawn and logged. */
  ghost predicate DrawnSoFar(oracle: T.Oracle, domain: Bytes, log: seq<T.Entry>, es: seq<T.Entry>, c: seq<seq<int>>, now: seq<T.Entry>) {
    && |c| <= |es| && now == log + es[..|c|]
    && forall k :: 0 <= k < |c| ==> es[k].Coin? && c[k] == T.CoinsAfter(oracle, domain, log + es[..k], es[k].name, es[k].count)
  }

  lemma DrawnNone(oracle: T.Oracle, domain: Bytes, log: seq<T.Entry>, es: seq<T.Entry>)
    ensures DrawnSoFar(oracle, domain, log, es, [], log)
  {}

  lemma DrawnNext(oracle: T.Oracle, domain: Bytes, log: seq<T.Entry>, es: seq<T.Entry>, c: seq<seq<int>>, now: seq<T.Entry>, v: seq<int>)
    requires DrawnSoFar(oracle, domain, log, es, c, now) && |c| < |es| && es[|c|].Coin?
    requires v == T.CoinsAfter(oracle, domain, now, es[|c|].name, es[|c|].count)
    ensures DrawnSoFar(oracle, domain, log, es, c + [v], now + [es[|c|]])
  {
    hide T.CoinsAfter;
  }

  lemma DrawnAll(oracle: T.Oracle, domain: Bytes, log: seq<T.Entry>, vq: nat, vt: nat, c: seq<seq<int>>, now: seq<T.Entry>)
    requires DrawnSoFar(oracle, domain, log, SixCoins(vq, vt), c, now) && |c| == 6
    ensures c == Drawn(oracle, domain, log, SixCoins(vq, vt)) && now == log + SixCoins(vq, vt)
  {
    hide T.CoinsAfter;
    assert SixCoins(vq, vt)[..6] == SixCoins(vq, vt);
  }

  lemma SixSizes(oracle: T.Oracle, domain: Bytes, log: seq<T.Entry>, vq: nat, vt: nat)
    ensures var c := Drawn(oracle, domain, log, SixCoins(vq, vt));
      |c| == 6 && |c[0]| == |c[2]| == |c[4]| == vq && |c[1]| == |c[3]| == |c[5]| == vt
  {}

  /** The argument's proof over 2^nq and 2^nt values, on the six coins that follow the log. */
  ghost predicate IsProofAfter(proof: LogUpProof, qVals: seq<int>, tVals: seq<int>, mult: seq<int>, alpha: int, nq: nat, nt: nat,
                               oracle: T.Oracle, domain: Bytes, log: seq<T.Entry>) {
    var c := Drawn(oracle, domain, log, SixCoins(nq, nt));
    proof.zQuery == c[0] && proof.zTable == c[1] && IsLogUpProof(proof, qVals, tVals, mult, alpha, nq, nt, c[2..])
  }

  lemma AllowsAll(tr: T.Transcript)
    ensures tr.schedule == null ==> forall kind, name :: tr.Allows(kind, name)
  {}

  method CompressedValues(tableId: int, queries: seq<Tuple>, table: seq<Tuple>, beta: int)
    returns (q: seq<int>, t: seq<int>)
    ensures q == Compressed(tableId, queries, beta) && t == Compressed(tableId, table, beta)
  {
    hide Compress;
    q, t := [], [];
    for i := 0 to |queries|
      invariant |q| == i && forall k :: 0 <= k < i ==> q[k] == Compress([tableId] + queries[k], beta)
    {
      var v := CompressTuple([tableId] + queries[i], beta);
      q := q + [v];
    }
    for i := 0 to |table|
      invariant |t| == i && forall k :: 0 <= k < i ==> t[k] == Compress([tableId] + table[k], beta)
    {
      var v := CompressTuple([tableId] + table[i], beta);
      t := t + [v];
    }
  }

  method LogUpSumchecks(qVals: seq<int>, tVals: seq<int>, mult: seq<int>, alpha: int, rQ: seq<int>, rT: seq<int>,
                        ghost nq: nat, ghost nt: nat, zq: seq<int>, zt: seq<int>, c: seq<seq<int>>) returns (out: Outcome)
    requires rQ == Reciprocals(alpha, qVals) && rT == Reciprocals(alpha, tVals) && |mult| == |tVals|
    requires |qVals| == Pow2(nq) && |tVals| == Pow2(nt) && |zq| == nq && |zt| == nt
    requires |c| == 4 && |c[0]| >= nq && |c[1]| >= nt && |c[2]| >= nq && |c[3]| >= nt
    ensures out.Proved? && IsLogUpProof(out.proof, qVals, tVals, mult, alpha, nq, nt, c)
    ensures out.proof.zQuery == zq && out.proof.zTable == zt
  {
    hide Reciprocals, Diffs, Eq, ProductProof, Weighted;
    var eq := EqVector(zq);
    var et := EqVector(zt);
    PadNothing(rQ, nq);
    PadNothing(rT, nt);
    PadNothing(Diffs(alpha, qVals), nq);
    PadNothing(Diffs(alpha, tVals), nt);
    PadNothing(Weighted(mult, rT), nt);
    var q3, t3 := [eq, PadPow2(rQ), PadPow2(Diffs(alpha, qVals))], [et, PadPow2(rT), PadPow2(Diffs(alpha, tVals))];
    var q1, t1 := [PadPow2(rQ)], [PadPow2(Weighted(mult, rT))];
    ThreeSized(q3, nq);
    ThreeSized(t3, nt);
    ThreeSized(q1, nq);
    ThreeSized(t1, nt);
    var qc := ProveProduct(q3, c[0], nq);
    var tc := ProveProduct(t3, c[1], nt);
    var qs := ProveProduct(q1, c[2], nq);
    var ts := ProveProduct(t1, c[3], nt);
    out := Proved(LogUpProof(|qVals|, |tVals|, qs.claim, ts.claim, qc, tc, qs, ts, zq, zt, rQ, rT));
  }

  // ------------------------------------------------------------------- a whole run

  /** The labels of one argument's two roots and two coins. */
  datatype Labels = Labels(raw: string, beta: string, cmp: string, alpha: string) {
    predicate Short() {
      |raw| < 65536 && |beta| < 65536 && |cmp| < 65536 && |alpha| < 65536
    }
  }

  datatype Argument = Argument(proof: LogUpProof, qVals: seq<int>, tVals: seq<int>, mult: seq<int>, alpha: int)

  /** Raw tuples, beta, compressed values, alpha. */
  ghost function StageLog(h: C.Hash<Bytes>, cfg: Config, labels: Labels, queries: seq<Tuple>, a: Argument): (es: seq<T.Entry>)
    requires cfg.ELL > 0
    ensures |es| == 4
  {
    [T.Absorbed(labels.raw, RowsRoot(h, cfg, RawRows(queries, a.mult, cfg.ELL))), T.Coin(labels.beta, 1),
     T.Absorbed(labels.cmp, RowsRoot(h, cfg, CompressedRows(a.qVals, a.tVals, cfg.ELL))), T.Coin(labels.alpha, 1)]
  }

  /** Everything one argument adds to the log. */
  ghost function ArgumentLog(h: C.Hash<Bytes>, cfg: Config, labels: Labels, queries: seq<Tuple>, table: seq<Tuple>, a: Argument)
    : (es: seq<T.Entry>)
    requires cfg.ELL > 0 && table != []
  {
    var q, t := PadQueries(queries, table[0]), PadTable(table);
    StageLog(h, cfg, labels, q, a) + SixCoins(CeilLog(|q|), CeilLog(|t|))
  }

  /** The argument for these queries against this table, run after this log: beta drawn once the
      tuples are bound, alpha once the compressed values are, the proof's coins once alpha is. */
  ghost predicate IsArgument(h: C.Hash<Bytes>, cfg: Config, tableId: int, queries: seq<Tuple>, table: seq<Tuple>, labels: Labels,
                             oracle: T.Oracle, domain: Bytes, log: seq<T.Entry>, a: Argument)
    requires cfg.ELL > 0 && table != [] && AllMembers(queries, table)
  {
    PaddedMembers(queries, table);
    var q, t := PadQueries(queries, table[0]), PadTable(table);
    var es := StageLog(h, cfg, labels, q, a);
    var beta := T.CoinsAfter(oracle, domain, log + es[..1], labels.beta, 1)[0];
    && a.mult == Multiplicities(q, t) && a.qVals == Compressed(tableId, q, beta) && a.tVals == Compressed(tableId, t, beta)
    && a.alpha == T.CoinsAfter(oracle, domain, log + es[..3], labels.alpha, 1)[0]
    && IsProofAfter(a.proof, a.qVals, a.tVals, a.mult, a.alpha, CeilLog(|q|), CeilLog(|t|), oracle, domain, log + es)
  }

  /** The four stages in sequence, for every table and queries: what comes out is the argument for
      them, every coin drawn from the log before it. */
  method RunLogUp(cfg: Config, h: C.Hash<Bytes>, L: seq<seq<int>>, tableId: int, queries: seq<Tuple>, table: seq<Tuple>,
                  tr: T.Transcript, labels: Labels) returns (lu: LogUp, out: Outcome)
    requires cfg.Valid() && cfg.ELL > 0 && ByteHash(h) && R.IsLagrangeMatrix(cfg, L) && tr.Valid() && tr.schedule == null
    requires table != [] && AllMembers(queries, table) && labels.Short()
    modifies tr
    ensures tr.Valid() && fresh(lu) && lu.Valid() && lu.tableId == tableId
    ensures lu.queries == PadQueries(queries, table[0]) && lu.table == PadTable(table)
    ensures out.Proved? <==> |queries| > 1 && |table| > 1
    ensures out.Proved? ==>
      var a := Argument(out.proof, lu.qVals, lu.tVals, lu.mult, lu.alpha);
      && IsArgument(h, cfg, tableId, queries, table, labels, tr.oracle, tr.domain, old(tr.log), a)
      && tr.log == old(tr.log) + ArgumentLog(h, cfg, labels, queries, table, a)
  {
    hide *;
    ghost var log := tr.log;
    lu := Staged(cfg, h, L, tableId, queries, table, tr, labels);
    ghost var q := lu.queries;
    out := lu.Prove(tr);
    PaddedSizes(queries, table);
    if out.Proved? {
      ghost var a := Argument(out.proof, lu.qVals, lu.tVals, lu.mult, lu.alpha);
      StageLogIs(h, cfg, labels, q, a, log);
      ArgumentLogIs(h, cfg, labels, queries, table, a);
      RunIs(h, lu, queries, table, labels, tr.oracle, tr.domain, log, a);
    }
  }

  /** The three stages before the proof: two roots and two coins, each coin after its root. */
  method Staged(cfg: Config, h: C.Hash<Bytes>, L: seq<seq<int>>, tableId: int, queries: seq<Tuple>, table: seq<Tuple>,
                tr: T.Transcript, labels: Labels) returns (lu: LogUp)
    requires cfg.Valid() && cfg.ELL > 0 && ByteHash(h) && R.IsLagrangeMatrix(cfg, L) && tr.Valid() && tr.schedule == null
    requires table != [] && AllMembers(queries, table) && labels.Short()
    modifies tr
    ensures tr.Valid() && fresh(lu) && lu.Valid() && lu.stage == Ready && lu.cfg == cfg && lu.tableId == tableId
    ensures lu.queries == PadQueries(queries, table[0]) && lu.table == PadTable(table)
    ensures var raw := T.Absorbed(labels.raw, RowsRoot(h, cfg, RawRows(lu.queries, lu.mult, cfg.ELL)));
      var cmp := T.Absorbed(labels.cmp, RowsRoot(h, cfg, CompressedRows(lu.qVals, lu.tVals, cfg.ELL)));
      && lu.beta == T.CoinsAfter(tr.oracle, tr.domain, old(tr.log) + [raw], labels.beta, 1)[0]
      && lu.alpha == T.CoinsAfter(tr.oracle, tr.domain, old(tr.log) + [raw] + [T.Coin(labels.beta, 1)] + [cmp], labels.alpha, 1)[0]
      && tr.log == old(tr.log) + [raw] + [T.Coin(labels.beta, 1)] + [cmp] + [T.Coin(labels.alpha, 1)]
  {
    hide *;
    LabelsShort(labels);
    var beta;
    lu, beta := StagedRaw(cfg, h, L, tableId, queries, table, tr, labels);
    AllowsAll(tr);
    var ok := lu.Compress(h, L, beta, tr, labels.cmp);
    AllowsAll(tr);
    var alpha := tr.DrawCoin(labels.alpha, 1);
    ok := lu.Build(alpha.values[0]);
  }

  /** The first stage and its coin. */
  method StagedRaw(cfg: Config, h: C.Hash<Bytes>, L: seq<seq<int>>, tableId: int, queries: seq<Tuple>, table: seq<Tuple>,
                   tr: T.Transcript, labels: Labels) returns (lu: LogUp, beta: int)
    requires cfg.Valid() && cfg.ELL > 0 && ByteHash(h) && R.IsLagrangeMatrix(cfg, L) && tr.Valid() && tr.schedule == null
    requires table != [] && AllMembers(queries, table) && labels.Short()
    modifies tr
    ensures tr.Valid() && fresh(lu) && lu.Valid() && lu.stage == Raw && lu.cfg == cfg && lu.tableId == tableId
    ensures lu.queries == PadQueries(queries, table[0]) && lu.table == PadTable(table)
    ensures var raw := T.Absorbed(labels.raw, RowsRoot(h, cfg, RawRows(lu.queries, lu.mult, cfg.ELL)));
      && beta == T.CoinsAfter(tr.oracle, tr.domain, old(tr.log) + [raw], labels.beta, 1)[0]
      && tr.log == old(tr.log) + [raw] + [T.Coin(labels.beta, 1)]
  {
    hide *;
    LabelsShort(labels);
    lu := new LogUp(cfg, tableId, queries, table);
    AllowsAll(tr);
    lu.RawCommitmentIs(h);
    var ok := lu.CommitRaw(h, L, tr, labels.raw);
    lu.RawCommitmentIs(h);
    AllowsAll(tr);
    var d := tr.DrawCoin(labels.beta, 1);
    beta := d.values[0];
  }

  lemma LabelsShort(l: Labels)
    ensures l.Short() <==> |l.raw| < 65536 && |l.beta| < 65536 && |l.cmp| < 65536 && |l.alpha| < 65536
  {}

  lemma StageLogIs(h: C.Hash<Bytes>, cfg: Config, labels: Labels, queries: seq<Tuple>, a: Argument, log: seq<T.Entry>)
    requires cfg.ELL > 0
    ensures var es := StageLog(h, cfg, labels, queries, a);
      var raw := T.Absorbed(labels.raw, RowsRoot(h, cfg, RawRows(queries, a.mult, cfg.ELL)));
      var cmp := T.Absorbed(labels.cmp, RowsRoot(h, cfg, CompressedRows(a.qVals, a.tVals, cfg.ELL)));
      && |es| == 4 && log + es[..1] == log + [raw] && log + es[..3] == log + [raw] + [T.Coin(labels.beta, 1)] + [cmp]
      && log + es == log + [raw] + [T.Coin(labels.beta, 1)] + [cmp] + [T.Coin(labels.alpha, 1)]
  {
    hide RowsRoot, RawRows, CompressedRows;
  }

  lemma ArgumentLogIs(h: C.Hash<Bytes>, cfg: Config, labels: Labels, queries: seq<Tuple>, table: seq<Tuple>, a: Argument)
    requires cfg.ELL > 0 && table != []
    ensures var q, t := PadQueries(queries, table[0]), PadTable(table);
      ArgumentLog(h, cfg, labels, queries, table, a) == StageLog(h, cfg, labels, q, a) + SixCoins(CeilLog(|q|), CeilLog(|t|))
  {
    hide StageLog, SixCoins, PadQueries, PadTable, CeilLog;
  }

  lemma RunIs(h: C.Hash<Bytes>, lu: LogUp, queries: seq<Tuple>, table: seq<Tuple>, labels: Labels, oracle: T.Oracle,
              domain: Bytes, log: seq<T.Entry>, a: Argument)
    requires lu.cfg.ELL > 0 && table != [] && AllMembers(queries, table) && lu.Valid() && lu.stage == Ready
    requires lu.queries == PadQueries(queries, table[0]) && lu.table == PadTable(table)
    requires a == Argument(a.proof, lu.qVals, lu.tVals, lu.mult, lu.alpha)
    requires lu.beta == T.CoinsAfter(oracle, domain, log + StageLog(h, lu.cfg, labels, lu.queries, a)[..1], labels.beta, 1)[0]
    requires lu.alpha == T.CoinsAfter(oracle, domain, log + StageLog(h, lu.cfg, labels, lu.queries, a)[..3], labels.alpha, 1)[0]
    requires lu.HonestProof(a.proof, oracle, domain, log + StageLog(h, lu.cfg, labels, lu.queries, a))
    ensures IsArgument(h, lu.cfg, lu.tableId, queries, table, labels, oracle, domain, log, a)
  {
    hide PadQueries, PadTable, Multiplicities, Compressed, T.CoinsAfter, StageLog, IsProofAfter, CeilLog, AllMembers, Reciprocals;
  }

  lemma PaddedSizes(queries: seq<Tuple>, table: seq<Tuple>)
    requires table != []
    ensures |PadQueries(queries, table[0])| > 1 <==> |queries| > 1
    ensures |PadTable(table)| > 1 <==> |table| > 1
  {
    CeilLogExact(|queries|);
    CeilLogExact(|table|);
  }

  /** The verifier accepts it exactly when alpha missed the compressed table. */
  lemma ArgumentAccepted(h: C.Hash<Bytes>, cfg: Config, tableId: int, queries: seq<Tuple>, table: seq<Tuple>, labels: Labels,
                         oracle: T.Oracle, domain: Bytes, log: seq<T.Entry>, a: Argument)
    requires cfg.ELL > 0 && table != [] && AllMembers(queries, table)
    requires IsArgument(h, cfg, tableId, queries, table, labels, oracle, domain, log, a)
    ensures LogUpVerdict(a.proof, a.qVals, a.tVals, a.mult, a.alpha) == if Misses(a.alpha, a.tVals) then Accept else Reject
  {
    hide IsLogUpProof, LogUpVerdict, Multiplicities, Compressed, Misses, CeilLog, T.CoinsAfter, StageLog, Drawn, SixCoins;
    PaddedMembers(queries, table);
    var q, t := PadQueries(queries, table[0]), PadTable(table);
    CeilLogOfPow2(CeilLog(|queries|));
    CeilLogOfPow2(CeilLog(|table|));
    var es := StageLog(h, cfg, labels, q, a);
    var beta := T.CoinsAfter(oracle, domain, log + es[..1], labels.beta, 1)[0];
    var c := Drawn(oracle, domain, log + es, SixCoins(CeilLog(|q|), CeilLog(|t|)));
    HonestLogUpAccepted(a.proof, tableId, q, t, beta, a.alpha, CeilLog(|q|), CeilLog(|t|), c[2..]);
  }

  // ------------------------------------------------------ what beta hangs on

  /** One root, one list of rows, modulo P. */
  lemma RowsBind(h: C.Hash<Bytes>, cfg: Config, a: Matrix, b: Matrix, i: nat, j: nat)
    requires cfg.Valid() && C.Binding(h) && C.AllFit(a, cfg.ELL) && C.AllFit(b, cfg.ELL) && |a| == |b| && i < |a|
    requires RowsRoot(h, cfg, a) == RowsRoot(h, cfg, b)
    ensures At(a[i], j) % P == At(b[i], j) % P
  {
    hide M.TreeRoot;
    R.KIsUnit(cfg);
    var u, v, n := R.Encoded(cfg, a), R.Encoded(cfg, b), cfg.N();
    assert AllWide(u, n) && AllWide(v, n);
    hide R.Codeword;
    M.RootBinds(h.node, C.Leaves(h, u, n), C.Leaves(h, v, n));
    forall c | 0 <= c < n ensures u[i][c] == v[i][c] {
      assert C.Leaves(h, u, n)[c] == C.Leaves(h, v, n)[c];
      assert C.Column(u, n, c) == C.Column(v, n, c);
      assert C.Column(u, n, c)[i] == C.Column(v, n, c)[i];
    }
    assert u[i] == v[i];
    R.EncodingInjective(cfg, a[i], b[i], j);
  }

  /** An entry of a padded tuple as it stands in the raw rows: the j-th, for j below ELL. */
  lemma RawEntry(queries: seq<Tuple>, mult: seq<int>, ell: nat, i: nat, j: nat)
    requires i < |queries| && j < ell
    ensures |RawRows(queries, mult, ell)| == |queries| + |mult|
    ensures At(RawRows(queries, mult, ell)[i], j) % P == At(queries[i], j) % P
  {
    hide CeilLog;
    var r := Reduced(queries[i]);
    assert RawRows(queries, mult, ell)[i] == Cut(PadPow2(r), ell);
    if j < |queries[i]| { ModMod(queries[i][j], P); } else { ModSmall(0, P); }
  }

  lemma RawCount(queries: seq<Tuple>, mult: seq<int>, ell: nat, k: nat)
    requires k < |mult| && 0 < ell
    ensures |RawRows(queries, mult, ell)| == |queries| + |mult|
    ensures At(RawRows(queries, mult, ell)[|queries| + k], 0) % P == mult[k] % P
  {
    hide PadPow2;
    ModMod(mult[k], P);
  }

  /** Queries and multiplicities that differ modulo P, at an entry that is committed, have different roots; so
      some oracle answers them with different betas: beta is not known before they are fixed. */
  lemma BetaBinds(h: C.Hash<Bytes>, cfg: Config, labels: Labels, oracle: T.Oracle, domain: Bytes, log: seq<T.Entry>,
                  q: seq<Tuple>, m: seq<int>, q': seq<Tuple>, m': seq<int>) returns (challenge: (Bytes, string, nat) -> int)
    requires cfg.Valid() && cfg.ELL > 0 && C.Binding(h) && T.Collisionless(oracle.digest) && |q| == |q'| && |m| == |m'|
    requires (exists i, j :: 0 <= i < |q| && 0 <= j < cfg.ELL && At(q[i], j) % P != At(q'[i], j) % P)
             || exists k :: 0 <= k < |m| && m[k] % P != m'[k] % P
    requires var a, b := RowsRoot(h, cfg, RawRows(q, m, cfg.ELL)), RowsRoot(h, cfg, RawRows(q', m', cfg.ELL));
      && T.AllShort(T.Keys(log + [T.Absorbed(labels.raw, a)]), T.LABEL_LIMIT)
      && T.AllShort(T.Keys(log + [T.Absorbed(labels.raw, b)]), T.LABEL_LIMIT)
    ensures var o := oracle.(challenge := challenge);
      T.CoinsAfter(o, domain, log + [T.Absorbed(labels.raw, RowsRoot(h, cfg, RawRows(q, m, cfg.ELL)))], labels.beta, 1)[0]
      != T.CoinsAfter(o, domain, log + [T.Absorbed(labels.raw, RowsRoot(h, cfg, RawRows(q', m', cfg.ELL)))], labels.beta, 1)[0]
  {
    hide RowsRoot, RawRows, T.CoinsAfter, T.AllShort;
    var a, b := RowsRoot(h, cfg, RawRows(q, m, cfg.ELL)), RowsRoot(h, cfg, RawRows(q', m', cfg.ELL));
    if a == b {
      SameRaws(h, cfg, q, m, q', m');
      assert false;
    }
    challenge := T.EntryBinds(oracle, domain, log, T.Absorbed(labels.raw, a), T.Absorbed(labels.raw, b), labels.beta);
  }

  lemma SameRaws(h: C.Hash<Bytes>, cfg: Config, q: seq<Tuple>, m: seq<int>, q': seq<Tuple>, m': seq<int>)
    requires cfg.Valid() && cfg.ELL > 0 && C.Binding(h) && |q| == |q'| && |m| == |m'|
    requires RowsRoot(h, cfg, RawRows(q, m, cfg.ELL)) == RowsRoot(h, cfg, RawRows(q', m', cfg.ELL))
    ensures forall i, j :: 0 <= i < |q| && 0 <= j < cfg.ELL ==> At(q[i], j) % P == At(q'[i], j) % P
    ensures forall k :: 0 <= k < |m| ==> m[k] % P == m'[k] % P
  {
    hide RowsRoot, RawRows;
    var a, b := RawRows(q, m, cfg.ELL), RawRows(q', m', cfg.ELL);
    forall i, j | 0 <= i < |q| && 0 <= j < cfg.ELL ensures At(q[i], j) % P == At(q'[i], j) % P {
      RawEntry(q, m, cfg.ELL, i, j);
      RawEntry(q', m', cfg.ELL, i, j);
      RowsBind(h, cfg, a, b, i, j);
    }
    forall k | 0 <= k < |m| ensures m[k] % P == m'[k] % P {
      RawCount(q, m, cfg.ELL, k);
      RawCount(q', m', cfg.ELL, k);
      RowsBind(h, cfg, a, b, |q| + k, 0);
    }
  }
}
