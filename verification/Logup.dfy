/** layergkr/logup.py: the lookup argument and its padding. */
module Logup {
  // It commits, compresses, inverts and proves in that order only. Padding keeps the identity, and the
  // honest proof is accepted exactly when alpha misses every compressed table value.

  import opened NumberTheory
  import opened Field
  import opened Polynomial
  import opened Interpolation
  import opened Sumcheck
  import opened Protocol
  import opened Prover
  import opened Rows
  import opened Permutation
  import opened PowerOfTwo
  import opened EqWeights
  import opened Products

  type Tuple = seq<int>

  const PAD_SENTINEL := P - 12345

  // ------------------------------------------------------------------- padding

  function Sentinel(k: nat, width: nat): Tuple {
    if width >= 2 then [PAD_SENTINEL, k] + seq(width - 2, _ => 0) else [PAD_SENTINEL]
  }

  function PadQueries(queries: seq<Tuple>, first: Tuple): (q: seq<Tuple>)
    ensures |q| == Pow2(CeilLog(|queries|)) && queries <= q
    ensures forall i :: |queries| <= i < |q| ==> q[i] == first
  {
    CeilLogExact(|queries|);
    queries + seq(Pow2(CeilLog(|queries|)) - |queries|, _ => first)
  }

  function PadTable(table: seq<Tuple>): (t: seq<Tuple>)
    requires table != []
    ensures |t| == Pow2(CeilLog(|table|)) && table <= t
    ensures forall k :: |table| <= k < |t| ==> t[k] == Sentinel(k - |table|, |table[0]|)
  {
    CeilLogExact(|table|);
    table + seq(Pow2(CeilLog(|table|)) - |table|, k requires 0 <= k => Sentinel(k, |table[0]|))
  }

  /** {t: k for k, t in enumerate(table)}[q], or -1: the last row with that tuple. */
  function IndexOf(table: seq<Tuple>, q: Tuple): (k: int)
    ensures k >= 0 ==> k < |table| && table[k] == q
    ensures k < 0 ==> k == -1 && q !in table
  {
    if table == [] then -1
    else if table[|table| - 1] == q then |table| - 1
    else IndexOf(table[..|table| - 1], q)
  }

  ghost predicate AllMembers(queries: seq<Tuple>, table: seq<Tuple>) {
    forall i :: 0 <= i < |queries| ==> queries[i] in table
  }

  lemma PaddedMembers(queries: seq<Tuple>, table: seq<Tuple>)
    requires table != [] && AllMembers(queries, table)
    ensures AllMembers(PadQueries(queries, table[0]), PadTable(table))
  {
    var q, t := PadQueries(queries, table[0]), PadTable(table);
    forall i | 0 <= i < |q| ensures q[i] in t {
      if i < |queries| {
        var k :| 0 <= k < |table| && table[k] == queries[i];
        assert t[k] == q[i];
      } else {
        assert t[0] == q[i];
      }
    }
  }

  /** How often each row is hit by a query (a row shadowed by a later equal one, never). */
  function Multiplicities(queries: seq<Tuple>, table: seq<Tuple>): (m: seq<int>)
    requires AllMembers(queries, table)
    ensures |m| == |table| && forall k :: 0 <= k < |m| ==> m[k] >= 0
  {
    if queries == [] then seq(|table|, _ => 0)
    else
      var n := |queries| - 1;
      var m := Multiplicities(queries[..n], table);
      var k := IndexOf(table, queries[n]);
      m[k := m[k] + 1]
  }

  /** sum over k of mult[k] * f[k] equals the sum over queries of f at their row. */
  function HitSum(queries: seq<Tuple>, table: seq<Tuple>, f: seq<int>): int
    requires AllMembers(queries, table) && |f| == |table|
  {
    if queries == [] then 0
    else
      var n := |queries| - 1;
      HitSum(queries[..n], table, f) + f[IndexOf(table, queries[n])]
  }

  lemma {:induction false} ZerosInner(n: nat, f: seq<int>, m: nat)
    requires m <= n
    ensures Inner(seq(n, _ => 0), f, m) == 0
  {
    if m > 0 {
      ZerosInner(n, f, m - 1);
      TimesZero(At(f, m - 1));
    }
  }

  lemma {:induction false} InnerUpdate(a: seq<int>, f: seq<int>, k: nat, x: int, m: nat)
    requires k < |a| && k < |f| && m <= |a|
    ensures Inner(a[k := a[k] + x], f, m) == Inner(a, f, m) + if k < m then x * f[k] else 0
  {
    if m > 0 {
      InnerUpdate(a, f, k, x, m - 1);
      if k == m - 1 { SumTimes(a[k], x, f[k]); }
    }
  }

  lemma SumTimes(a: int, x: int, f: int)
    ensures (a + x) * f == a * f + x * f
  {}

  lemma {:induction false} MultiplicitiesCount(queries: seq<Tuple>, table: seq<Tuple>, f: seq<int>)
    requires AllMembers(queries, table) && |f| == |table|
    ensures Inner(Multiplicities(queries, table), f, |table|) == HitSum(queries, table, f)
  {
    hide Inner;
    if queries == [] {
      ZerosInner(|table|, f, |table|);
    } else {
      var n := |queries| - 1;
      MultiplicitiesCount(queries[..n], table, f);
      var k := IndexOf(table, queries[n]);
      InnerUpdate(Multiplicities(queries[..n], table), f, k, 1, |table|);
    }
  }

  lemma {:induction false} HitCount(queries: seq<Tuple>, table: seq<Tuple>, f: seq<int>)
    requires AllMembers(queries, table) && |f| == |table| && forall k :: 0 <= k < |f| ==> f[k] == 1
    ensures HitSum(queries, table, f) == |queries|
  {
    if queries != [] { HitCount(queries[..|queries| - 1], table, f); }
  }

  /** The multiplicities add up to the number of queries. */
  lemma MultiplicitiesTotal(queries: seq<Tuple>, table: seq<Tuple>)
    requires AllMembers(queries, table)
    ensures Inner(Multiplicities(queries, table), seq(|table|, _ => 1), |table|) == |queries|
  {
    MultiplicitiesCount(queries, table, seq(|table|, _ => 1));
    HitCount(queries, table, seq(|table|, _ => 1));
  }

  /** A row's multiplicity is the number of queries that equal it, unless a later row does too. */
  lemma {:induction false} MultiplicityIs(queries: seq<Tuple>, table: seq<Tuple>, k: nat)
    requires AllMembers(queries, table) && k < |table|
    ensures Multiplicities(queries, table)[k] == if IndexOf(table, table[k]) == k then multiset(queries)[table[k]] else 0
  {
    if queries != [] {
      var n := |queries| - 1;
      MultiplicityIs(queries[..n], table, k);
      assert queries == queries[..n] + [queries[n]];
      if IndexOf(table, queries[n]) == k { assert table[k] == queries[n]; }
    }
  }

  /** The multiplicities of the padded lists add up to the padded number of queries. */
  lemma PaddedTotal(queries: seq<Tuple>, table: seq<Tuple>)
    requires table != [] && AllMembers(queries, table)
    ensures AllMembers(PadQueries(queries, table[0]), PadTable(table))
    ensures var m := Multiplicities(PadQueries(queries, table[0]), PadTable(table));
      Inner(m, seq(|m|, _ => 1), |m|) == Pow2(CeilLog(|queries|))
  {
    PaddedMembers(queries, table);
    MultiplicitiesTotal(PadQueries(queries, table[0]), PadTable(table));
  }

  // ---------------------------------------------------------------- the sentinels

  /** The rows the padding appends. */
  function Appended(table: seq<Tuple>): (s: seq<Tuple>)
    requires table != []
    ensures PadTable(table) == table + s
  {
    PadTable(table)[|table|..]
  }

  /** No appended row is counted. */
  ghost predicate SentinelsZero(queries: seq<Tuple>, table: seq<Tuple>)
    requires table != [] && AllMembers(queries, table)
  {
    PaddedMembers(queries, table);
    var m := Multiplicities(PadQueries(queries, table[0]), PadTable(table));
    forall k :: |table| <= k < |m| ==> m[k] == 0
  }

  lemma {:induction false} LastIndex(table: seq<Tuple>, k: nat)
    requires k < |table|
    ensures IndexOf(table, table[k]) >= k
  {
    if table[|table| - 1] != table[k] { LastIndex(table[..|table| - 1], k); }
  }

  /** A query that equals row j is counted, there or at a later row. */
  lemma HitRow(queries: seq<Tuple>, table: seq<Tuple>, i: nat, j: nat) returns (k: nat)
    requires AllMembers(queries, table) && i < |queries| && j < |table| && table[j] == queries[i]
    ensures j <= k < |table| && Multiplicities(queries, table)[k] > 0
  {
    LastIndex(table, j);
    k := IndexOf(table, queries[i]);
    MultiplicityIs(queries, table, k);
    assert queries[i] in multiset(queries);
  }

  /** The sentinels get zero exactly when no padded query equals one. */
  lemma SentinelsExact(queries: seq<Tuple>, table: seq<Tuple>)
    requires table != [] && AllMembers(queries, table)
    ensures SentinelsZero(queries, table)
            <==> forall i :: 0 <= i < |PadQueries(queries, table[0])| ==> PadQueries(queries, table[0])[i] !in Appended(table)
  {
    PaddedMembers(queries, table);
    var q, t, s := PadQueries(queries, table[0]), PadTable(table), Appended(table);
    var m := Multiplicities(q, t);
    hide PadQueries, PadTable, Multiplicities, Appended;
    if i :| 0 <= i < |q| && q[i] in s {
      var j :| 0 <= j < |s| && s[j] == q[i];
      assert t[|table| + j] == q[i];
      var k := HitRow(q, t, i, |table| + j);
      assert !SentinelsZero(queries, table);
    }
    if forall i :: 0 <= i < |q| ==> q[i] !in s {
      forall k | |table| <= k < |m| ensures m[k] == 0 {
        MultiplicityIs(q, t, k);
        assert t[k] == s[k - |table|];
        if t[k] in multiset(q) { assert t[k] in q; }
      }
    }
  }

  /** A table without its own sentinels is the condition: then, and only then, no query list over
      it ever counts one. */
  lemma SentinelsSafe(table: seq<Tuple>)
    requires table != []
    ensures (forall k :: 0 <= k < |Appended(table)| ==> Appended(table)[k] !in table)
            <==> forall queries :: AllMembers(queries, table) ==> SentinelsZero(queries, table)
  {
    var s := Appended(table);
    if forall k :: 0 <= k < |s| ==> s[k] !in table {
      forall queries | AllMembers(queries, table) ensures SentinelsZero(queries, table) {
        SentinelsExact(queries, table);
        var q := PadQueries(queries, table[0]);
        forall i | 0 <= i < |q| ensures q[i] !in s {
          assert q[i] in table;
        }
      }
    }
    if k :| 0 <= k < |s| && s[k] in table {
      var queries := [s[k]];
      assert AllMembers(queries, table);
      SentinelsExact(queries, table);
      assert PadQueries(queries, table[0])[0] == s[k];
      assert !SentinelsZero(queries, table);
    }
  }

  /** It can fail: a table that already holds the first sentinel, queried there. */
  lemma SentinelCounted() returns (queries: seq<Tuple>, table: seq<Tuple>)
    ensures table == [[P - 12345, 0], [1, 1], [2, 2]] && queries == [[P - 12345, 0]]
    ensures AllMembers(queries, table) && !SentinelsZero(queries, table)
  {
    queries, table := [[P - 12345, 0]], [[P - 12345, 0], [1, 1], [2, 2]];
    assert AllMembers(queries, table) by { assert queries[0] == table[0]; }
    assert CeilLog(3) == 2 && Pow2(2) == 4 by {
      assert CeilLog(2) == 1;
      assert Pow2(1) == 2;
    }
    assert PadTable(table)[3] == Sentinel(0, 2);
    assert Sentinel(0, 2) == [P - 12345, 0];
    assert Appended(table)[0] == queries[0];
    assert PadQueries(queries, table[0])[0] == queries[0];
    SentinelsExact(queries, table);
  }

  // ----------------------------------------------------------- compressed values

  function Compressed(tableId: int, tuples: seq<Tuple>, beta: int): (v: seq<int>)
    ensures |v| == |tuples| && forall i :: 0 <= i < |v| ==> v[i] == Compress([tableId] + tuples[i], beta)
  {
    seq(|tuples|, i requires 0 <= i < |tuples| => Compress([tableId] + tuples[i], beta))
  }

  /** (alpha - v) % P */
  function Diffs(alpha: int, vals: seq<int>): (d: seq<int>)
    ensures |d| == |vals| && forall i :: 0 <= i < |d| ==> d[i] == (alpha - vals[i]) % P
  {
    seq(|vals|, i requires 0 <= i < |vals| => (alpha - vals[i]) % P)
  }

  /** What batch_inv makes of them: all the inverses, or nothing but zeros. */
  function Reciprocals(alpha: int, vals: seq<int>): (r: seq<int>)
    ensures |r| == |vals|
  {
    var d := Diffs(alpha, vals);
    if HasZero(d) then seq(|vals|, _ => 0) else Invs(d)
  }

  method BatchReciprocals(alpha: int, vals: seq<int>) returns (r: seq<int>)
    ensures r == Reciprocals(alpha, vals)
  {
    r := BatchInv(Diffs(alpha, vals));
    assert HasZero(Diffs(alpha, vals)) ==> r == seq(|vals|, _ => 0);
  }

  /** alpha misses every value. */
  ghost predicate Misses(alpha: int, vals: seq<int>) {
    !HasZero(Diffs(alpha, vals))
  }

  /** A query's compressed value is its row's, so alpha misses the queries if it misses the table. */
  lemma QueriesMissed(tableId: int, queries: seq<Tuple>, table: seq<Tuple>, beta: int, alpha: int)
    requires AllMembers(queries, table) && Misses(alpha, Compressed(tableId, table, beta))
    ensures Misses(alpha, Compressed(tableId, queries, beta))
  {
    hide Compress;
    var q, t := Compressed(tableId, queries, beta), Compressed(tableId, table, beta);
    forall i | 0 <= i < |q| ensures Diffs(alpha, q)[i] % P != 0 {
      var k :| 0 <= k < |table| && table[k] == queries[i];
      assert Diffs(alpha, t)[k] == Diffs(alpha, q)[i];
    }
  }

  /** The two sides of the LogUp identity, for every beta and every alpha that misses. */
  lemma SidesAgree(tableId: int, queries: seq<Tuple>, table: seq<Tuple>, beta: int, alpha: int)
    requires AllMembers(queries, table) && Misses(alpha, Compressed(tableId, table, beta))
    ensures ProductSum([Reciprocals(alpha, Compressed(tableId, queries, beta))], |queries|)
            == HitSum(queries, table, Reciprocals(alpha, Compressed(tableId, table, beta)))
  {
    hide *;
    var rq := Reciprocals(alpha, Compressed(tableId, queries, beta));
    var rt := Reciprocals(alpha, Compressed(tableId, table, beta));
    QueriesMissed(tableId, queries, table, beta, alpha);
    forall i | 0 <= i < |queries| ensures IndexOf(table, queries[i]) >= 0 && rq[i] == rt[IndexOf(table, queries[i])] {
      SameReciprocal(tableId, queries, table, beta, alpha, i);
    }
    PrefixSides(queries, table, rq, rt, |queries|);
    assert queries[..|queries|] == queries;
  }

  lemma SameReciprocal(tableId: int, queries: seq<Tuple>, table: seq<Tuple>, beta: int, alpha: int, i: nat)
    requires AllMembers(queries, table) && i < |queries|
    requires Misses(alpha, Compressed(tableId, table, beta)) && Misses(alpha, Compressed(tableId, queries, beta))
    ensures IndexOf(table, queries[i]) >= 0
    ensures Reciprocals(alpha, Compressed(tableId, queries, beta))[i]
            == Reciprocals(alpha, Compressed(tableId, table, beta))[IndexOf(table, queries[i])]
  {
    hide Compress, HasZero, Inv, IndexOf;
    var k := IndexOf(table, queries[i]);
    assert Compressed(tableId, queries, beta)[i] == Compressed(tableId, table, beta)[k];
  }

  lemma {:induction false} PrefixSides(queries: seq<Tuple>, table: seq<Tuple>, rq: seq<int>, rt: seq<int>, m: nat)
    requires AllMembers(queries, table) && |rq| == |queries| && |rt| == |table| && m <= |queries|
    requires forall i :: 0 <= i < |queries| ==> IndexOf(table, queries[i]) >= 0 && rq[i] == rt[IndexOf(table, queries[i])]
    ensures AllMembers(queries[..m], table)
    ensures ProductSum([rq], m) == HitSum(queries[..m], table, rt)
  {
    if m > 0 {
      PrefixSides(queries, table, rq, rt, m - 1);
      assert queries[..m][..m - 1] == queries[..m - 1];
      SingleProduct(rq, m - 1);
    }
  }

  lemma SingleProduct(r: seq<int>, i: nat)
    ensures ProdAt([r], i) == At(r, i)
  {
    assert ProdAt([r][1..], i) == 1;
  }

  /** zip(mult, r): the weighted reciprocals. */
  function Weighted(mult: seq<int>, r: seq<int>): (w: seq<int>)
    ensures |w| == (if |mult| <= |r| then |mult| else |r|)
    ensures forall k :: 0 <= k < |w| ==> w[k] == (mult[k] * r[k]) % P
  {
    seq(if |mult| <= |r| then |mult| else |r|, k requires 0 <= k < |mult| && k < |r| => (mult[k] * r[k]) % P)
  }

  lemma {:induction false} WeightedSum(mult: seq<int>, r: seq<int>, m: nat)
    requires |mult| == |r| && m <= |r|
    ensures ProductSum([Weighted(mult, r)], m) % P == Inner(mult, r, m) % P
  {
    if m > 0 {
      WeightedSum(mult, r, m - 1);
      SingleProduct(Weighted(mult, r), m - 1);
      ModMod(mult[m - 1] * r[m - 1], P);
      ModAdd(ProductSum([Weighted(mult, r)], m - 1), Inner(mult, r, m - 1),
             Weighted(mult, r)[m - 1], mult[m - 1] * r[m - 1], P);
    }
  }

  // ------------------------------------------------------- the constraint claims

  lemma ThreeFactors(e: seq<int>, r: seq<int>, a: seq<int>, i: nat)
    ensures ProdAt([e, r, a], i) == At(e, i) * (At(r, i) * At(a, i))
  {
    assert [e, r, a][1..] == [r, a];
    assert [r, a][1..] == [a];
    SingleProduct(a, i);
  }

  /** Where every r is its reciprocal the constraint claims the sum of the weights. */
  lemma {:induction false} ConstraintHolds(e: seq<int>, alpha: int, vals: seq<int>, m: nat)
    requires Misses(alpha, vals) && m <= |vals|
    ensures ProductSum([e, Reciprocals(alpha, vals), Diffs(alpha, vals)], m) % P
            == Inner(e, seq(|vals|, _ => 1), m) % P
  {
    var r, a, ones := Reciprocals(alpha, vals), Diffs(alpha, vals), seq(|vals|, _ => 1);
    if m > 0 {
      var i := m - 1;
      ConstraintHolds(e, alpha, vals, i);
      ThreeFactors(e, r, a, i);
      assert a[i] % P != 0;
      InvCorrect(a[i]);
      hide *;
      PIsPositive();
      TimesCommute(a[i], r[i]);
      ModSmall(1, P);
      ModMul(At(e, i), At(e, i), r[i] * a[i], 1, P);
      ProductSumStep([e, r, a], m);
      InnerStep(e, ones, m);
      AddCongruent(ProductSum([e, r, a], i), Inner(e, ones, i), ProdAt([e, r, a], i), At(e, i) * At(ones, i));
    }
  }

  lemma ProductSumStep(fs: seq<seq<int>>, m: nat)
    requires m > 0
    ensures ProductSum(fs, m) == ProductSum(fs, m - 1) + ProdAt(fs, m - 1)
  {}

  lemma AddCongruent(a: int, b: int, x: int, y: int)
    requires a % P == b % P && x % P == y % P
    ensures (a + x) % P == (b + y) % P
  {
    ModAdd(a, b, x, y, P);
  }

  /** Where the batch was lost the constraint claims zero. */
  lemma {:induction false} ConstraintLost(e: seq<int>, alpha: int, vals: seq<int>, m: nat)
    requires !Misses(alpha, vals) && m <= |vals|
    ensures ProductSum([e, Reciprocals(alpha, vals), Diffs(alpha, vals)], m) == 0
  {
    var r, a := Reciprocals(alpha, vals), Diffs(alpha, vals);
    if m > 0 {
      ConstraintLost(e, alpha, vals, m - 1);
      ThreeFactors(e, r, a, m - 1);
      TimesZero(At(a, m - 1));
      TimesCommute(At(e, m - 1), 0);
      TimesZero(At(e, m - 1));
    }
  }

  // -------------------------------------------------------------------- the proof

  datatype LogUpProof = LogUpProof(
    nQueries: nat, nTable: nat, sumQuery: int, sumTable: int,
    queryConstraint: SumcheckProof, tableConstraint: SumcheckProof, querySum: SumcheckProof, tableSum: SumcheckProof,
    zQuery: seq<int>, zTable: seq<int>, rQuery: seq<int>, rTable: seq<int>)

  function PadPow2(v: seq<int>): (p: seq<int>)
    ensures |p| == Pow2(CeilLog(|v|)) && v <= p
  {
    CeilLogExact(|v|);
    v + seq(Pow2(CeilLog(|v|)) - |v|, _ => 0)
  }

  lemma PadNothing(v: seq<int>, n: nat)
    requires |v| == Pow2(n)
    ensures PadPow2(v) == v
  {
    CeilLogOfPow2(n);
  }

  /** sum(v) */
  function SumOf(v: seq<int>): int { ProductSum([v], |v|) }

  lemma {:induction false} SumIsInner(v: seq<int>, n: nat, m: nat)
    requires m <= |v| && m <= n
    ensures ProductSum([v], m) == Inner(v, seq(n, _ => 1), m)
  {
    if m > 0 {
      SumIsInner(v, n, m - 1);
      SingleProduct(v, m - 1);
    }
  }

  /** What verify answers: the four sumchecks in turn, then the three claims. */
  function LogUpVerdict(proof: LogUpProof, qVals: seq<int>, tVals: seq<int>, mult: seq<int>, alpha: int): Verdict {
    var aq, at := PadPow2(Diffs(alpha, qVals)), PadPow2(Diffs(alpha, tVals));
    var rq, rt, rw := PadPow2(proof.rQuery), PadPow2(proof.rTable), PadPow2(Weighted(mult, proof.rTable));
    var eq, et := Eq(proof.zQuery), Eq(proof.zTable);
    var v1 := ProductVerdict(proof.queryConstraint, [eq, rq, aq]);
    var v2 := ProductVerdict(proof.tableConstraint, [et, rt, at]);
    var v3, v4 := ProductVerdict(proof.querySum, [rq]), ProductVerdict(proof.tableSum, [rw]);
    if !v1.Accept? then v1 else if !v2.Accept? then v2 else if !v3.Accept? then v3 else if !v4.Accept? then v4
    else if proof.queryConstraint.claim != SumOf(eq) % P then Reject
    else if proof.tableConstraint.claim != SumOf(et) % P then Reject
    else if proof.sumQuery != proof.sumTable then Reject
    else Accept
  }

  method SumMod(v: seq<int>) returns (s: int)
    ensures s == SumOf(v) % P
  {
    s := 0;
    for i := 0 to |v|
      invariant s == ProductSum([v], i)
    {
      SingleProduct(v, i);
      s := s + v[i];
    }
    s := s % P;
  }

  method Verify(proof: LogUpProof, qVals: seq<int>, tVals: seq<int>, mult: seq<int>, alpha: int) returns (v: Verdict)
    ensures v == LogUpVerdict(proof, qVals, tVals, mult, alpha)
  {
    hide Eq, ProductVerdict, Diffs, Weighted, SumOf, PadPow2;
    var aq, at := PadPow2(Diffs(alpha, qVals)), PadPow2(Diffs(alpha, tVals));
    var rq, rt := PadPow2(proof.rQuery), PadPow2(proof.rTable);
    var rw := PadPow2(Weighted(mult, proof.rTable));
    var eq := EqVector(proof.zQuery);
    var et := EqVector(proof.zTable);
    v := VerifyProduct(proof.queryConstraint, [eq, rq, aq]);
    if !v.Accept? { return; }
    v := VerifyProduct(proof.tableConstraint, [et, rt, at]);
    if !v.Accept? { return; }
    v := VerifyProduct(proof.querySum, [rq]);
    if !v.Accept? { return; }
    v := VerifyProduct(proof.tableSum, [rw]);
    if !v.Accept? { return; }
    var sq := SumMod(eq);
    if proof.queryConstraint.claim != sq { return Reject; }
    var st := SumMod(et);
    if proof.tableConstraint.claim != st { return Reject; }
    if proof.sumQuery != proof.sumTable { return Reject; }
    v := Accept;
  }

  // ---------------------------------------------------------------- completeness

  /** The honest proof over 2^nq compressed queries and 2^nt compressed rows, for some coins. */
  ghost predicate IsLogUpProof(proof: LogUpProof, qVals: seq<int>, tVals: seq<int>, mult: seq<int>, alpha: int,
                               nq: nat, nt: nat, c: seq<seq<int>>) {
    && |proof.zQuery| == nq && |proof.zTable| == nt
    && proof.rQuery == Reciprocals(alpha, qVals) && proof.rTable == Reciprocals(alpha, tVals)
    && |c| == 4 && |c[0]| >= nq && |c[1]| >= nt && |c[2]| >= nq && |c[3]| >= nt
    && proof.queryConstraint == ProductProof([Eq(proof.zQuery), proof.rQuery, Diffs(alpha, qVals)], nq, c[0])
    && proof.tableConstraint == ProductProof([Eq(proof.zTable), proof.rTable, Diffs(alpha, tVals)], nt, c[1])
    && proof.querySum == ProductProof([proof.rQuery], nq, c[2])
    && proof.tableSum == ProductProof([Weighted(mult, proof.rTable)], nt, c[3])
    && proof.sumQuery == proof.querySum.claim && proof.sumTable == proof.tableSum.claim
  }

  /** One constraint: accepted, and its claim is the sum of the weights exactly when alpha misses. */
  lemma ConstraintVerdict(z: seq<int>, alpha: int, vals: seq<int>, n: nat, coins: seq<int>)
    requires |z| == n && |vals| == Pow2(n) && |coins| >= n
    ensures var fs := [Eq(z), Reciprocals(alpha, vals), Diffs(alpha, vals)];
      && ProductVerdict(ProductProof(fs, n, coins), fs) == Accept
      && (ProductProof(fs, n, coins).claim == SumOf(Eq(z)) % P <==> Misses(alpha, vals))
  {
    var e := Eq(z);
    var fs := [e, Reciprocals(alpha, vals), Diffs(alpha, vals)];
    ThreeSized(fs, n);
    EqSumsToOne(z);
    SumIsInner(e, Pow2(n), Pow2(n));
    if Misses(alpha, vals) {
      ConstraintHolds(e, alpha, vals, |vals|);
    } else {
      ConstraintLost(e, alpha, vals, |vals|);
      ZeroModP();
    }
    hide *;
    HonestProductAccepted(fs, n, coins);
    SumIs(e);
  }

  lemma SumIs(v: seq<int>)
    ensures SumOf(v) == ProductSum([v], |v|)
  {}

  lemma ThreeSized(fs: seq<seq<int>>, n: nat)
    requires 1 <= |fs| <= 3 && FactorsSized(fs, Pow2(n))
    ensures Factors(fs, n)
  {}

  /** Honest padding, honest reciprocals: accepted if and only if alpha misses every compressed
      table value, for every table, queries, beta and coins. */
  lemma HonestLogUpAccepted(proof: LogUpProof, tableId: int, queries: seq<Tuple>, table: seq<Tuple>, beta: int, alpha: int,
                            nq: nat, nt: nat, c: seq<seq<int>>)
    requires AllMembers(queries, table) && |queries| == Pow2(nq) && |table| == Pow2(nt)
    requires IsLogUpProof(proof, Compressed(tableId, queries, beta), Compressed(tableId, table, beta),
                          Multiplicities(queries, table), alpha, nq, nt, c)
    ensures LogUpVerdict(proof, Compressed(tableId, queries, beta), Compressed(tableId, table, beta),
                         Multiplicities(queries, table), alpha)
            == if Misses(alpha, Compressed(tableId, table, beta)) then Accept else Reject
  {
    var qv, tv, mult := Compressed(tableId, queries, beta), Compressed(tableId, table, beta), Multiplicities(queries, table);
    ProofParts(proof, qv, tv, mult, alpha, nq, nt, c);
    hide *;
    PadsVanish(proof, qv, tv, mult, alpha, nq, nt);
    ConstraintVerdict(proof.zQuery, alpha, qv, nq, c[0]);
    ConstraintVerdict(proof.zTable, alpha, tv, nt, c[1]);
    SumVerdict(proof.rQuery, nq, c[2]);
    SumVerdict(Weighted(mult, proof.rTable), nt, c[3]);
    if Misses(alpha, tv) {
      QueriesMissed(tableId, queries, table, beta, alpha);
      HonestSums(tableId, queries, table, beta, alpha);
    }
    LogUpVerdictIs(proof, qv, tv, mult, alpha);
  }

  lemma ProofParts(proof: LogUpProof, qv: seq<int>, tv: seq<int>, mult: seq<int>, alpha: int, nq: nat, nt: nat, c: seq<seq<int>>)
    requires IsLogUpProof(proof, qv, tv, mult, alpha, nq, nt, c) && |mult| == |tv|
    ensures |proof.zQuery| == nq && |proof.zTable| == nt
    ensures proof.rQuery == Reciprocals(alpha, qv) && proof.rTable == Reciprocals(alpha, tv)
    ensures |proof.rQuery| == |qv| && |proof.rTable| == |tv| == |Weighted(mult, proof.rTable)|
    ensures |c| == 4 && |c[0]| >= nq && |c[1]| >= nt && |c[2]| >= nq && |c[3]| >= nt
    ensures proof.queryConstraint == ProductProof([Eq(proof.zQuery), proof.rQuery, Diffs(alpha, qv)], nq, c[0])
    ensures proof.tableConstraint == ProductProof([Eq(proof.zTable), proof.rTable, Diffs(alpha, tv)], nt, c[1])
    ensures proof.querySum == ProductProof([proof.rQuery], nq, c[2])
    ensures proof.tableSum == ProductProof([Weighted(mult, proof.rTable)], nt, c[3])
    ensures proof.sumQuery == proof.querySum.claim && proof.sumTable == proof.tableSum.claim
  {
    hide ProductProof, Eq, Reciprocals, Diffs;
  }

  lemma SumVerdict(v: seq<int>, n: nat, coins: seq<int>)
    requires |v| == Pow2(n) && |coins| >= n
    ensures ProductVerdict(ProductProof([v], n, coins), [v]) == Accept
    ensures ProductProof([v], n, coins).claim == SumOf(v) % P
  {
    ThreeSized([v], n);
    hide *;
    HonestProductAccepted([v], n, coins);
    SumIs(v);
  }

  lemma HonestSums(tableId: int, queries: seq<Tuple>, table: seq<Tuple>, beta: int, alpha: int)
    requires AllMembers(queries, table) && Misses(alpha, Compressed(tableId, table, beta))
    ensures SumOf(Reciprocals(alpha, Compressed(tableId, queries, beta))) % P
            == SumOf(Weighted(Multiplicities(queries, table), Reciprocals(alpha, Compressed(tableId, table, beta)))) % P
  {
    hide Compress, Misses;
    var rq, rt := Reciprocals(alpha, Compressed(tableId, queries, beta)), Reciprocals(alpha, Compressed(tableId, table, beta));
    var mult := Multiplicities(queries, table);
    SidesAgree(tableId, queries, table, beta, alpha);
    MultiplicitiesCount(queries, table, rt);
    WeightedSum(mult, rt, |table|);
    SumIs(rq);
    SumIs(Weighted(mult, rt));
  }

  lemma PadsVanish(proof: LogUpProof, qVals: seq<int>, tVals: seq<int>, mult: seq<int>, alpha: int, nq: nat, nt: nat)
    requires |qVals| == Pow2(nq) == |proof.rQuery| && |tVals| == Pow2(nt) == |proof.rTable| == |mult|
    ensures PadPow2(Diffs(alpha, qVals)) == Diffs(alpha, qVals) && PadPow2(Diffs(alpha, tVals)) == Diffs(alpha, tVals)
    ensures PadPow2(proof.rQuery) == proof.rQuery && PadPow2(proof.rTable) == proof.rTable
    ensures PadPow2(Weighted(mult, proof.rTable)) == Weighted(mult, proof.rTable)
  {
    PadNothing(Diffs(alpha, qVals), nq);
    PadNothing(Diffs(alpha, tVals), nt);
    PadNothing(proof.rQuery, nq);
    PadNothing(proof.rTable, nt);
    PadNothing(Weighted(mult, proof.rTable), nt);
  }

  lemma LogUpVerdictIs(proof: LogUpProof, qVals: seq<int>, tVals: seq<int>, mult: seq<int>, alpha: int)
    requires PadPow2(Diffs(alpha, qVals)) == Diffs(alpha, qVals) && PadPow2(Diffs(alpha, tVals)) == Diffs(alpha, tVals)
    requires PadPow2(proof.rQuery) == proof.rQuery && PadPow2(proof.rTable) == proof.rTable
    requires PadPow2(Weighted(mult, proof.rTable)) == Weighted(mult, proof.rTable)
    requires ProductVerdict(proof.queryConstraint, [Eq(proof.zQuery), proof.rQuery, Diffs(alpha, qVals)]).Accept?
    requires ProductVerdict(proof.tableConstraint, [Eq(proof.zTable), proof.rTable, Diffs(alpha, tVals)]).Accept?
    requires ProductVerdict(proof.querySum, [proof.rQuery]).Accept?
    requires ProductVerdict(proof.tableSum, [Weighted(mult, proof.rTable)]).Accept?
    ensures LogUpVerdict(proof, qVals, tVals, mult, alpha)
            == if proof.queryConstraint.claim == SumOf(Eq(proof.zQuery)) % P
                  && proof.tableConstraint.claim == SumOf(Eq(proof.zTable)) % P && proof.sumQuery == proof.sumTable
               then Accept else Reject
  {
    hide PadPow2, Diffs, Weighted, ProductVerdict, Eq, SumOf;
  }
}
