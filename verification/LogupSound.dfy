/** Soundness of layergkr/logup.py's identity. */
module LogupSound {
  // Who is accepted when the multiplicities are wrong. Honestly computed proofs, for any queries, table and
  // multiplicities, are accepted exactly when alpha misses both sides and they balance; if one tuple is
  // miscounted, for few alphas and for few pairs of coins.

  import opened NumberTheory
  import opened Field
  import opened Polynomial
  import opened Sumcheck
  import opened Protocol
  import opened Rows
  import opened Permutation
  import opened PowerOfTwo
  import opened Products
  import opened EqWeights
  import opened Logup
  import opened Fractions
  import opened Confusion

  /** The two sums the verifier compares. */
  predicate Balanced(qVals: seq<int>, tVals: seq<int>, mult: seq<int>, alpha: int) {
    SumOf(Reciprocals(alpha, qVals)) % P == SumOf(Weighted(mult, Reciprocals(alpha, tVals))) % P
  }

  /** For any values and multiplicities: accepted exactly when alpha misses every value of both sides
      and the sums agree. */
  lemma VerdictExact(proof: LogUpProof, qVals: seq<int>, tVals: seq<int>, mult: seq<int>, alpha: int, nq: nat, nt: nat,
                     c: seq<seq<int>>)
    requires |qVals| == Pow2(nq) && |tVals| == Pow2(nt) == |mult| && IsLogUpProof(proof, qVals, tVals, mult, alpha, nq, nt, c)
    ensures LogUpVerdict(proof, qVals, tVals, mult, alpha)
            == if Misses(alpha, qVals) && Misses(alpha, tVals) && Balanced(qVals, tVals, mult, alpha) then Accept else Reject
  {
    ProofParts(proof, qVals, tVals, mult, alpha, nq, nt, c);
    BalancedIs(qVals, tVals, mult, alpha);
    hide *;
    PadsVanish(proof, qVals, tVals, mult, alpha, nq, nt);
    ConstraintVerdict(proof.zQuery, alpha, qVals, nq, c[0]);
    ConstraintVerdict(proof.zTable, alpha, tVals, nt, c[1]);
    SumVerdict(proof.rQuery, nq, c[2]);
    SumVerdict(Weighted(mult, proof.rTable), nt, c[3]);
    LogUpVerdictIs(proof, qVals, tVals, mult, alpha);
  }

  lemma BalancedIs(qVals: seq<int>, tVals: seq<int>, mult: seq<int>, alpha: int)
    ensures Balanced(qVals, tVals, mult, alpha)
      <==> SumOf(Reciprocals(alpha, qVals)) % P == SumOf(Weighted(mult, Reciprocals(alpha, tVals))) % P
  {}

  // ------------------------------------------------------------------ as fractions

  function Ones(n: nat): (o: seq<int>)
    ensures |o| == n
  {
    seq(n, _ => 1)
  }

  /** One for every query, minus its multiplicity for every row. */
  function Signed(n: nat, mult: seq<int>): (s: seq<int>)
    ensures |s| == n + |mult|
  {
    Ones(n) + seq(|mult|, k requires 0 <= k < |mult| => -mult[k])
  }

  lemma {:induction false} PoleSumJoin(a: seq<int>, u: seq<int>, b: seq<int>, v: seq<int>, alpha: int)
    requires |a| == |u| && |b| == |v|
    ensures PoleSum(a + b, u + v, alpha) == PoleSum(a, u, alpha) + PoleSum(b, v, alpha)
  {
    hide Inv;
    if b == [] {
      assert a + b == a && u + v == u;
    } else {
      var n := |b| - 1;
      PoleSumJoin(a, u, b[..n], v[..n], alpha);
      assert (a + b)[..|a| + n] == a + b[..n] && (u + v)[..|a| + n] == u + v[..n];
    }
  }

  lemma MissedReciprocal(alpha: int, vals: seq<int>, i: nat)
    requires Misses(alpha, vals) && i < |vals|
    ensures At(Reciprocals(alpha, vals), i) == Inv((alpha - vals[i]) % P)
  {
    hide Inv;
  }

  lemma {:induction false} QuerySide(alpha: int, vals: seq<int>, n: nat)
    requires Misses(alpha, vals) && n <= |vals|
    ensures PoleSum(vals[..n], Ones(n), alpha) == ProductSum([Reciprocals(alpha, vals)], n)
  {
    hide Inv, Misses, Reciprocals;
    if n > 0 {
      QuerySide(alpha, vals, n - 1);
      assert vals[..n][..n - 1] == vals[..n - 1] && Ones(n)[..n - 1] == Ones(n - 1);
      SingleProduct(Reciprocals(alpha, vals), n - 1);
      MissedReciprocal(alpha, vals, n - 1);
    }
  }

  function Minus(mult: seq<int>, n: nat): (s: seq<int>)
    requires n <= |mult|
    ensures |s| == n && forall k :: 0 <= k < n ==> s[k] == -mult[k]
  {
    seq(n, k requires 0 <= k < n => -mult[k])
  }

  lemma {:induction false} TableSide(alpha: int, vals: seq<int>, mult: seq<int>, n: nat)
    requires Misses(alpha, vals) && n <= |vals| == |mult|
    ensures PoleSum(vals[..n], Minus(mult, n), alpha) == -Inner(mult, Reciprocals(alpha, vals), n)
  {
    hide Inv, Misses, Reciprocals;
    if n > 0 {
      TableSide(alpha, vals, mult, n - 1);
      assert vals[..n][..n - 1] == vals[..n - 1] && Minus(mult, n)[..n - 1] == Minus(mult, n - 1);
      MissedReciprocal(alpha, vals, n - 1);
      Negated(mult[n - 1], Inv((alpha - vals[n - 1]) % P));
    }
  }

  lemma Negated(m: int, r: int)
    ensures -m * r == -(m * r)
  {}

  /** Where alpha misses both sides they balance exactly when the signed fractions vanish. */
  lemma BalancedIsPoles(qVals: seq<int>, tVals: seq<int>, mult: seq<int>, alpha: int)
    requires |mult| == |tVals| && Misses(alpha, qVals) && Misses(alpha, tVals)
    ensures Balanced(qVals, tVals, mult, alpha) <==> PoleSum(qVals + tVals, Signed(|qVals|, mult), alpha) % P == 0
  {
    hide *;
    BalancedIs(qVals, tVals, mult, alpha);
    SignedPoles(qVals, tVals, mult, alpha);
    TableSum(alpha, tVals, mult);
    QuerySum(alpha, qVals);
    SameDifference(SumOf(Reciprocals(alpha, qVals)), SumOf(Weighted(mult, Reciprocals(alpha, tVals))),
                   Inner(mult, Reciprocals(alpha, tVals), |tVals|));
  }

  lemma QuerySum(alpha: int, qVals: seq<int>)
    ensures SumOf(Reciprocals(alpha, qVals)) == ProductSum([Reciprocals(alpha, qVals)], |qVals|)
  {
    hide Reciprocals, ProductSum;
  }

  lemma TableSum(alpha: int, tVals: seq<int>, mult: seq<int>)
    requires |mult| == |tVals|
    ensures SumOf(Weighted(mult, Reciprocals(alpha, tVals))) % P == Inner(mult, Reciprocals(alpha, tVals), |tVals|) % P
  {
    hide Reciprocals, ProductSum, Inner;
    WeightedSum(mult, Reciprocals(alpha, tVals), |tVals|);
  }

  lemma SameDifference(a: int, b: int, c: int)
    requires b % P == c % P
    ensures a % P == b % P <==> (a - c) % P == 0
  {
    hide *;
    PIsPositive();
    DiffZero(a, c, P);
  }

  lemma SignedPoles(qVals: seq<int>, tVals: seq<int>, mult: seq<int>, alpha: int)
    requires |mult| == |tVals| && Misses(alpha, qVals) && Misses(alpha, tVals)
    ensures PoleSum(qVals + tVals, Signed(|qVals|, mult), alpha)
            == ProductSum([Reciprocals(alpha, qVals)], |qVals|) - Inner(mult, Reciprocals(alpha, tVals), |tVals|)
  {
    hide PoleSum, Misses, Reciprocals, Inner, ProductSum;
    var nq, nt := |qVals|, |tVals|;
    assert qVals[..nq] == qVals && tVals[..nt] == tVals && Signed(nq, mult) == Ones(nq) + Minus(mult, nt);
    PoleSumJoin(qVals, Ones(nq), tVals, Minus(mult, nt), alpha);
    QuerySide(alpha, qVals, nq);
    TableSide(alpha, tVals, mult, nt);
  }

  lemma MissesIsApart(alpha: int, qVals: seq<int>, tVals: seq<int>)
    ensures Misses(alpha, qVals) && Misses(alpha, tVals) <==> Apart(alpha, qVals + tVals)
  {
    var all := qVals + tVals;
    if Misses(alpha, qVals) && Misses(alpha, tVals) {
      forall i | 0 <= i < |all| ensures (alpha - all[i]) % P != 0 {
        if i < |qVals| { NotHit(alpha, qVals, i); } else { NotHit(alpha, tVals, i - |qVals|); }
      }
    }
    if Apart(alpha, all) {
      AllApart(alpha, qVals, all, 0);
      AllApart(alpha, tVals, all, |qVals|);
    }
  }

  lemma NotHit(alpha: int, vals: seq<int>, i: nat)
    requires Misses(alpha, vals) && i < |vals|
    ensures (alpha - vals[i]) % P != 0
  {
    assert Diffs(alpha, vals)[i] % P != 0;
    ModMod(alpha - vals[i], P);
  }

  lemma AllApart(alpha: int, vals: seq<int>, all: seq<int>, from: nat)
    requires Apart(alpha, all) && from + |vals| <= |all| && all[from..from + |vals|] == vals
    ensures Misses(alpha, vals)
  {
    forall i | 0 <= i < |vals| ensures Diffs(alpha, vals)[i] % P != 0 {
      assert all[from + i] == vals[i];
      ModMod(alpha - vals[i], P);
    }
  }

  // --------------------------------------------------------------------- the results

  /** Some honestly computed proof for these values is accepted at this alpha. */
  ghost predicate Passes(qVals: seq<int>, tVals: seq<int>, mult: seq<int>, alpha: int, nq: nat, nt: nat) {
    exists proof, c ::
      IsLogUpProof(proof, qVals, tVals, mult, alpha, nq, nt, c) && LogUpVerdict(proof, qVals, tVals, mult, alpha) == Accept
  }

  lemma PassesMeans(qVals: seq<int>, tVals: seq<int>, mult: seq<int>, alpha: int, nq: nat, nt: nat)
    requires |qVals| == Pow2(nq) && |tVals| == Pow2(nt) == |mult| && Passes(qVals, tVals, mult, alpha, nq, nt)
    ensures Apart(alpha, qVals + tVals) && PoleSum(qVals + tVals, Signed(|qVals|, mult), alpha) % P == 0
  {
    hide LogUpVerdict, IsLogUpProof, Misses, Balanced, Apart, PoleSum, Signed, Pow2;
    var proof, c :| IsLogUpProof(proof, qVals, tVals, mult, alpha, nq, nt, c)
                    && LogUpVerdict(proof, qVals, tVals, mult, alpha) == Accept;
    VerdictExact(proof, qVals, tVals, mult, alpha, nq, nt, c);
    MissesIsApart(alpha, qVals, tVals);
    BalancedIsPoles(qVals, tVals, mult, alpha);
  }

  /** One value counted wrong, modulo P: fewer alphas than values on both sides accept. */
  lemma WrongCountsPassRarely(qVals: seq<int>, tVals: seq<int>, mult: seq<int>, nq: nat, nt: nat, v: int, alphas: set<int>)
    requires |qVals| == Pow2(nq) && |tVals| == Pow2(nt) == |mult|
    requires Weight(qVals + tVals, Signed(|qVals|, mult), v) % P != 0
    requires forall a :: a in alphas ==> 0 <= a < P && Passes(qVals, tVals, mult, a, nq, nt)
    ensures |alphas| < |qVals| + |tVals|
  {
    hide Passes, Apart, PoleSum, Signed, Weight, Pow2;
    forall a | a in alphas
      ensures 0 <= a < P && Apart(a, qVals + tVals) && PoleSum(qVals + tVals, Signed(|qVals|, mult), a) % P == 0
    {
      PassesMeans(qVals, tVals, mult, a, nq, nt);
    }
    PolesVanishRarely(qVals + tVals, Signed(|qVals|, mult), v, alphas);
  }

  /** No value counted wrong: accepted at every alpha that misses. */
  lemma RightCountsPass(proof: LogUpProof, qVals: seq<int>, tVals: seq<int>, mult: seq<int>, alpha: int, nq: nat, nt: nat,
                        c: seq<seq<int>>)
    requires |qVals| == Pow2(nq) && |tVals| == Pow2(nt) == |mult| && IsLogUpProof(proof, qVals, tVals, mult, alpha, nq, nt, c)
    requires forall v :: 0 <= v < P ==> Weight(qVals + tVals, Signed(|qVals|, mult), v) % P == 0
    ensures LogUpVerdict(proof, qVals, tVals, mult, alpha)
            == if Misses(alpha, qVals) && Misses(alpha, tVals) then Accept else Reject
  {
    hide LogUpVerdict, IsLogUpProof, Misses, Balanced, PoleSum, Signed, Weight, Pow2;
    VerdictExact(proof, qVals, tVals, mult, alpha, nq, nt, c);
    PolesCancel(qVals + tVals, Signed(|qVals|, mult), alpha);
    if Misses(alpha, qVals) && Misses(alpha, tVals) { BalancedIsPoles(qVals, tVals, mult, alpha); }
  }

  // ---------------------------------------------------------- back to the raw tuples

  /** The weights of the tuples that are u modulo P, added up. */
  ghost function Tally(ts: seq<Tuple>, ws: seq<int>, u: Tuple): int
    requires |ts| == |ws|
  {
    if ts == [] then 0
    else
      var n := |ts| - 1;
      Tally(ts[..n], ws[..n], u) + if SameModP(ts[n], u) then ws[n] else 0
  }

  /** How often u is asked for, less the multiplicities of its rows. */
  ghost function Miscount(queries: seq<Tuple>, table: seq<Tuple>, mult: seq<int>, u: Tuple): int
    requires |table| == |mult|
  {
    Tally(queries, Ones(|queries|), u) - Tally(table, mult, u)
  }

  lemma {:induction false} TallyJoin(a: seq<Tuple>, x: seq<int>, b: seq<Tuple>, y: seq<int>, u: Tuple)
    requires |a| == |x| && |b| == |y|
    ensures Tally(a + b, x + y, u) == Tally(a, x, u) + Tally(b, y, u)
  {
    hide SameModP;
    if b == [] {
      assert a + b == a && x + y == x;
    } else {
      var n := |b| - 1;
      TallyJoin(a, x, b[..n], y[..n], u);
      assert (a + b)[..|a| + n] == a + b[..n] && (x + y)[..|a| + n] == x + y[..n];
    }
  }

  lemma {:induction false} TallyMinus(ts: seq<Tuple>, mult: seq<int>, u: Tuple)
    requires |ts| == |mult|
    ensures Tally(ts, Minus(mult, |ts|), u) == -Tally(ts, mult, u)
  {
    hide SameModP;
    if ts != [] {
      var n := |ts| - 1;
      TallyMinus(ts[..n], mult[..n], u);
      assert Minus(mult, |ts|)[..n] == Minus(mult[..n], n);
    }
  }

  /** Where no other tuple has u's print, the weight at that print is u's own tally. */
  lemma {:induction false} PrintWeight(ts: seq<Tuple>, ws: seq<int>, id: int, u: Tuple, beta: int)
    requires |ts| == |ws| && !Met(Behind(id, ts), [id] + u, beta)
    ensures Weight(PrintsOf(Behind(id, ts), beta), ws, Compress([id] + u, beta)) == Tally(ts, ws, u)
  {
    hide Compress, SameModP;
    if ts != [] {
      var n := |ts| - 1;
      var b, f := Behind(id, ts), PrintsOf(Behind(id, ts), beta);
      assert b[..n] == Behind(id, ts[..n]) && f[..n] == PrintsOf(Behind(id, ts[..n]), beta);
      PrintWeight(ts[..n], ws[..n], id, u, beta);
      SameBehind(id, ts[n], u);
      PrintReduced([id] + ts[n], beta);
      if SameModP(b[n], [id] + u) { SameCompress(b[n], [id] + u, beta); }
    }
  }

  lemma SameBehind(id: int, t: Tuple, u: Tuple)
    ensures SameModP([id] + t, [id] + u) <==> SameModP(t, u)
  {
    if SameModP([id] + t, [id] + u) {
      forall i | 0 <= i < |t| ensures t[i] % P == u[i] % P { assert ([id] + t)[i + 1] % P == ([id] + u)[i + 1] % P; }
    }
  }

  lemma PrintReduced(t: seq<int>, beta: int)
    ensures Compress(t, beta) % P == Compress(t, beta)
  {
    ModMod(Eval(Reverse(t), beta), P);
  }

  /** At such a beta the miscount is the weight the fractions see. */
  lemma MiscountSeen(id: int, queries: seq<Tuple>, table: seq<Tuple>, mult: seq<int>, u: Tuple, beta: int)
    requires |table| == |mult| && !Met(Behind(id, queries + table), [id] + u, beta)
    ensures Weight(Compressed(id, queries, beta) + Compressed(id, table, beta), Signed(|queries|, mult), Compress([id] + u, beta))
            == Miscount(queries, table, mult, u)
  {
    var all := queries + table;
    assert Compressed(id, queries, beta) + Compressed(id, table, beta) == PrintsOf(Behind(id, all), beta);
    assert Signed(|queries|, mult) == Ones(|queries|) + Minus(mult, |table|);
    hide *;
    PrintWeight(all, Signed(|queries|, mult), id, u, beta);
    TallySizes(queries, table, mult);
    TallyJoin(queries, Ones(|queries|), table, Minus(mult, |table|), u);
    TallyMinus(table, mult, u);
    MiscountIs(queries, table, mult, u);
  }

  lemma TallySizes(queries: seq<Tuple>, table: seq<Tuple>, mult: seq<int>)
    requires |table| == |mult|
    ensures |Ones(|queries|)| == |queries| && |Minus(mult, |table|)| == |table| && |Signed(|queries|, mult)| == |queries + table|
  {}

  lemma MiscountIs(queries: seq<Tuple>, table: seq<Tuple>, mult: seq<int>, u: Tuple)
    requires |table| == |mult|
    ensures Miscount(queries, table, mult, u) == Tally(queries, Ones(|queries|), u) - Tally(table, mult, u)
  {}

  /** The coins under which a lookup passes although some tuple is miscounted modulo P: for n tuples
      of width w on both sides, at most (w + 1) n - 1 in P of all pairs (beta, alpha). */
  lemma ForgedLogUpPairs(id: int, queries: seq<Tuple>, table: seq<Tuple>, mult: seq<int>, u: Tuple, nq: nat, nt: nat,
                         pairs: set<(int, int)>)
    requires |queries| == Pow2(nq) && |table| == Pow2(nt) == |mult| && AllWide(queries, |u|) && AllWide(table, |u|)
    requires Miscount(queries, table, mult, u) % P != 0
    requires forall p :: p in pairs ==>
      0 <= p.0 < P && 0 <= p.1 < P && Passes(Compressed(id, queries, p.0), Compressed(id, table, p.0), mult, p.1, nq, nt)
    ensures |pairs| <= ((|u| + 1) * (|queries| + |table|) - 1) * P
  {
    hide Passes, Met, Behind, Miscount, Over, Compressed;
    var n := |queries| + |table|;
    var all := Residues();
    var bad := set b | b in all && Met(Behind(id, queries + table), [id] + u, b);
    BehindWide(id, queries + table, |u|);
    MetRarely(bad, [id] + u, Behind(id, queries + table));
    forall b | 0 <= b < P && b !in bad ensures |Over(pairs, b)| <= n - 1 {
      AlphasLeft(id, queries, table, mult, u, nq, nt, b, pairs);
    }
    hide *;
    TwoCoins(pairs, bad, n * |u|, n - 1);
    PairsAlgebra(n, |u|);
  }

  lemma PairsAlgebra(n: int, w: int)
    ensures n * w + (n - 1) == (w + 1) * n - 1
  {}

  lemma BehindWide(id: int, ts: seq<Tuple>, w: nat)
    requires AllWide(ts, w)
    ensures |Behind(id, ts)| == |ts| && forall i :: 0 <= i < |ts| ==> |Behind(id, ts)[i]| == w + 1
  {}

  lemma AlphasLeft(id: int, queries: seq<Tuple>, table: seq<Tuple>, mult: seq<int>, u: Tuple, nq: nat, nt: nat, b: int,
                   pairs: set<(int, int)>)
    requires |queries| == Pow2(nq) && |table| == Pow2(nt) == |mult|
    requires Miscount(queries, table, mult, u) % P != 0 && !Met(Behind(id, queries + table), [id] + u, b)
    requires forall p :: p in pairs ==>
      0 <= p.1 < P && Passes(Compressed(id, queries, p.0), Compressed(id, table, p.0), mult, p.1, nq, nt)
    ensures |Over(pairs, b)| < |queries| + |table|
  {
    hide Passes, Met, Behind, Miscount, Compress, Weight, Signed, Pow2;
    MiscountSeen(id, queries, table, mult, u, b);
    var alphas := Over(pairs, b);
    forall a | a in alphas
      ensures 0 <= a < P && Passes(Compressed(id, queries, b), Compressed(id, table, b), mult, a, nq, nt)
    {
      assert (b, a) in pairs;
    }
    WrongCountsPassRarely(Compressed(id, queries, b), Compressed(id, table, b), mult, nq, nt, Compress([id] + u, b), alphas);
  }

  lemma {:induction false} TallyOnes(ts: seq<Tuple>, u: Tuple, i: nat)
    requires i <= |ts|
    ensures 0 <= Tally(ts, Ones(|ts|), u) <= |ts|
    ensures i < |ts| && SameModP(ts[i], u) ==> Tally(ts, Ones(|ts|), u) > 0
  {
    hide SameModP;
    if ts != [] {
      var n := |ts| - 1;
      assert Ones(|ts|)[..n] == Ones(n);
      TallyOnes(ts[..n], u, if i < n then i else n);
    }
  }

  lemma {:induction false} TallyNone(ts: seq<Tuple>, ws: seq<int>, u: Tuple)
    requires |ts| == |ws| && forall i :: 0 <= i < |ts| ==> !SameModP(ts[i], u)
    ensures Tally(ts, ws, u) == 0
  {
    hide SameModP;
    if ts != [] { TallyNone(ts[..|ts| - 1], ws[..|ts| - 1], u); }
  }

  /** A query outside the table is miscounted, whatever the multiplicities. */
  lemma OutsideIsMiscounted(queries: seq<Tuple>, table: seq<Tuple>, mult: seq<int>, i: nat)
    requires |table| == |mult| && |queries| < P && i < |queries|
    requires forall k :: 0 <= k < |table| ==> !SameModP(table[k], queries[i])
    ensures Miscount(queries, table, mult, queries[i]) % P != 0
  {
    hide Tally;
    assert SameModP(queries[i], queries[i]);
    TallyOnes(queries, queries[i], i);
    TallyNone(table, mult, queries[i]);
  }

  lemma {:induction false} TallyBump(ts: seq<Tuple>, ws: seq<int>, k: nat, u: Tuple)
    requires |ts| == |ws| && k < |ts|
    ensures Tally(ts, ws[k := ws[k] + 1], u) == Tally(ts, ws, u) + if SameModP(ts[k], u) then 1 else 0
  {
    hide SameModP;
    var n := |ts| - 1;
    if k == n {
      assert ws[k := ws[k] + 1][..n] == ws[..n];
    } else {
      TallyBump(ts[..n], ws[..n], k, u);
      assert ws[k := ws[k] + 1][..n] == ws[..n][k := ws[k] + 1];
    }
  }

  lemma {:induction false} TallyZeros(ts: seq<Tuple>, u: Tuple)
    ensures Tally(ts, seq(|ts|, _ => 0), u) == 0
  {
    hide SameModP;
    if ts != [] {
      TallyZeros(ts[..|ts| - 1], u);
      assert seq(|ts|, _ => 0)[..|ts| - 1] == seq(|ts| - 1, _ => 0);
    }
  }

  /** The multiplicities the constructor counts leave no tuple miscounted. */
  lemma {:induction false} CountedMultiplicities(queries: seq<Tuple>, table: seq<Tuple>, u: Tuple)
    requires AllMembers(queries, table)
    ensures Miscount(queries, table, Multiplicities(queries, table), u) == 0
  {
    hide SameModP, Tally, IndexOf;
    if queries == [] {
      TallyZeros(table, u);
      EmptyTally(u);
    } else {
      var n := |queries| - 1;
      var q := queries[..n];
      CountedMultiplicities(q, table, u);
      var k := IndexOf(table, queries[n]);
      IndexIs(table, queries[n]);
      TallyBump(table, Multiplicities(q, table), k, u);
      TallyNext(queries, Ones(|queries|), u);
      assert Ones(|queries|)[..n] == Ones(n);
    }
  }

  lemma EmptyTally(u: Tuple)
    ensures Tally([], [], u) == 0
  {}

  lemma TallyNext(ts: seq<Tuple>, ws: seq<int>, u: Tuple)
    requires |ts| == |ws| > 0
    ensures Tally(ts, ws, u)
            == Tally(ts[..|ts| - 1], ws[..|ts| - 1], u) + if SameModP(ts[|ts| - 1], u) then ws[|ts| - 1] else 0
  {}

  lemma IndexIs(table: seq<Tuple>, t: Tuple)
    requires t in table
    ensures 0 <= IndexOf(table, t) < |table| && table[IndexOf(table, t)] == t
  {}
}
