/** The relation check of layergkr/sampled_audit.py. */
module AuditRelation {
  // A zero relation over one-row wires, weighted by eq at a point drawn after the wires are fixed, in one
  // unmasked sumcheck.

  import opened NumberTheory
  import opened Field
  import opened Polynomial
  import opened Interpolation
  import opened Sumcheck
  import opened Protocol
  import opened Prover
  import opened Verifier
  import opened Soundness
  import opened Rows
  import opened EqWeights
  import opened Products

  /** A coefficient and the roles whose wires it multiplies. */
  datatype RelTerm = RelTerm(coeff: int, roles: seq<string>)

  type Wires = map<string, Matrix>

  /** The one row of a role's wire. */
  function RowOf(wires: Wires, role: string): seq<int> {
    if role in wires && wires[role] != [] then wires[role][0] else []
  }

  function Factored(wires: Wires, roles: seq<string>): (fs: seq<seq<int>>)
    ensures |fs| == |roles| && forall j :: 0 <= j < |fs| ==> fs[j] == RowOf(wires, roles[j])
  {
    seq(|roles|, j requires 0 <= j < |roles| => RowOf(wires, roles[j]))
  }

  /** The relation itself, without the weight. */
  function Bare(terms: seq<RelTerm>, wires: Wires): (ts: seq<Term>)
    ensures |ts| == |terms|
    ensures forall k :: 0 <= k < |ts| ==> ts[k] == Term(terms[k].coeff % P, Factored(wires, terms[k].roles))
  {
    seq(|terms|, k requires 0 <= k < |terms| => Term(terms[k].coeff % P, Factored(wires, terms[k].roles)))
  }

  /** _relation_terms: eq after the wires. */
  function Weighted(terms: seq<RelTerm>, wires: Wires, eq: seq<int>): (ts: seq<Term>)
    ensures |ts| == |terms|
    ensures forall k :: 0 <= k < |ts| ==> ts[k] == Term(terms[k].coeff % P, Factored(wires, terms[k].roles) + [eq])
  {
    seq(|terms|, k requires 0 <= k < |terms| => Term(terms[k].coeff % P, Factored(wires, terms[k].roles) + [eq]))
  }

  /** The relation's value at every coordinate. */
  function Residual(terms: seq<RelTerm>, wires: Wires, size: nat): (r: seq<int>)
    ensures |r| == size && forall i :: 0 <= i < size ==> r[i] == AtIndex(Bare(terms, wires), i)
  {
    seq(size, i requires 0 <= i < size => AtIndex(Bare(terms, wires), i))
  }

  /** What RelationBlock demands of its wires and terms. */
  ghost predicate RelationShaped(terms: seq<RelTerm>, wires: Wires, n: nat) {
    && terms != []
    && (forall role <- wires :: |wires[role]| == 1 && |wires[role][0]| == Pow2(n))
    && forall k :: 0 <= k < |terms| ==> Known(terms[k], wires)
  }

  predicate Known(t: RelTerm, wires: Wires) {
    t.roles != [] && forall j :: 0 <= j < |t.roles| ==> t.roles[j] in wires
  }

  ghost predicate FewRoles(terms: seq<RelTerm>) {
    forall k :: 0 <= k < |terms| ==> |terms[k].roles| + 1 < P
  }

  // ------------------------------------------------------------------ the claim

  lemma {:induction false} LastFactor(fs: seq<seq<int>>, e: seq<int>, i: nat)
    ensures ProdAt(fs + [e], i) == At(e, i) * ProdAt(fs, i)
  {
    if fs == [] {
      assert (fs + [e])[1..] == [];
      assert ProdAt([], i) == 1;
    } else {
      LastFactor(fs[1..], e, i);
      assert (fs + [e])[1..] == fs[1..] + [e];
      MulSwap(At(fs[0], i), At(e, i), ProdAt(fs[1..], i));
    }
  }

  lemma {:induction false} WeightedAt(terms: seq<RelTerm>, wires: Wires, e: seq<int>, i: nat)
    ensures AtIndex(Weighted(terms, wires, e), i) == At(e, i) * AtIndex(Bare(terms, wires), i)
  {
    if terms != [] {
      WeightedAt(terms[1..], wires, e, i);
      var fs, c := Factored(wires, terms[0].roles), terms[0].coeff % P;
      assert Weighted(terms, wires, e)[1..] == Weighted(terms[1..], wires, e);
      assert Bare(terms, wires)[1..] == Bare(terms[1..], wires);
      LastFactor(fs, e, i);
      WeightedTerm(c, At(e, i), ProdAt(fs, i), AtIndex(Bare(terms[1..], wires), i));
    }
  }

  lemma WeightedTerm(c: int, e: int, p: int, rest: int)
    ensures c * (e * p) + e * rest == e * (c * p + rest)
  {
    MulSwap(c, e, p);
    assert e * (c * p + rest) == e * (c * p) + e * rest;
  }

  lemma {:induction false} WeightedTotal(terms: seq<RelTerm>, wires: Wires, e: seq<int>, size: nat, m: nat)
    requires m <= size
    ensures Total(Weighted(terms, wires, e), m) == Inner(e, Residual(terms, wires, size), m)
  {
    hide Weighted, AtIndex, Bare;
    if m > 0 {
      WeightedTotal(terms, wires, e, size, m - 1);
      TotalStep(Weighted(terms, wires, e), m - 1);
      WeightedAt(terms, wires, e, m - 1);
    } else {
      TotalZero(Weighted(terms, wires, e));
    }
  }

  /** The weighted sum is the residual's multilinear extension, at the point reversed. */
  lemma ClaimIsExtension(terms: seq<RelTerm>, wires: Wires, z: seq<int>)
    ensures Total(Weighted(terms, wires, Eq(z)), Pow2(|z|)) % P == Mle(Residual(terms, wires, Pow2(|z|)), Reverse(z))
  {
    hide Weighted, Eq, Mle, Inner, Bare, AtIndex;
    WeightedTotal(terms, wires, Eq(z), Pow2(|z|), Pow2(|z|));
    EqIsMle(z, Residual(terms, wires, Pow2(|z|)));
  }

  // --------------------------------------------------------------- the programs

  /** The wires' width as a power of two, and eq at the drawn point. */
  function Coins(oracle: RoundOracle, context: seq<Bytes>): CoinFn {
    StateCoins(oracle, oracle.start([DOMAIN] + context))
  }

  method ProveRelation(terms: seq<RelTerm>, wires: Wires, z: seq<int>, oracle: RoundOracle, context: seq<Bytes>)
    returns (proof: SumcheckProof)
    requires RelationShaped(terms, wires, |z|)
    ensures proof == Prove(Weighted(terms, wires, Eq(z)), |z|, Coins(oracle, context), false, [], 0)
  {
    hide *;
    var eq := EqVector(z);
    WeightedUniform(terms, wires, z);
    var ts := Weighted(terms, wires, eq);
    var coins := new RoundTranscript(oracle, context);
    FreshCoins(coins);
    CoinsFrom(coins, context);
    var out, spent := ProveTerms(ts, Transcribed(coins), null, 0, |z|);
    Unmasked(out, ts, |z|, CoinFnOf(Transcribed(coins)));
    proof := out.proof;
  }

  lemma FreshCoins(tr: RoundTranscript)
    requires tr.Valid() && tr.sent == []
    ensures Ready(Transcribed(tr), []) && CoinObjects(Transcribed(tr)) == {tr}
  {}

  lemma CoinsFrom(tr: RoundTranscript, context: seq<Bytes>)
    ensures tr.start == tr.oracle.start([DOMAIN] + context) ==> CoinFnOf(Transcribed(tr)) == Coins(tr.oracle, context)
  {}

  lemma Unmasked(out: Proved, ts: seq<Term>, n: nat, coin: CoinFn)
    requires ts != [] && out == ProveResult(ts, n, coin, ViewOf(null), 0)
    ensures out == Proof(Prove(ts, n, coin, false, [], 0))
  {
    hide Prove;
  }

  lemma WeightedUniform(terms: seq<RelTerm>, wires: Wires, z: seq<int>)
    requires RelationShaped(terms, wires, |z|)
    ensures Uniform(Weighted(terms, wires, Eq(z)), Pow2(|z|)) && Weighted(terms, wires, Eq(z)) != []
    ensures Weighted(terms, wires, Eq(z))[0].factors != []
    ensures FirstSize(Weighted(terms, wires, Eq(z))) == Pow2(|z|)
  {
    hide *;
    EqSize(z);
    WeightedSized(terms, wires, Eq(z), |z|);
    UniformSize(Weighted(terms, wires, Eq(z)), Pow2(|z|));
  }

  lemma EqSize(z: seq<int>)
    ensures |Eq(z)| == Pow2(|z|)
  {}

  lemma WeightedSized(terms: seq<RelTerm>, wires: Wires, e: seq<int>, n: nat)
    requires RelationShaped(terms, wires, n) && |e| == Pow2(n)
    ensures Uniform(Weighted(terms, wires, e), Pow2(n)) && Weighted(terms, wires, e) != []
    ensures Weighted(terms, wires, e)[0].factors != []
  {
    hide Pow2;
    var ts := Weighted(terms, wires, e);
    forall k | 0 <= k < |ts| ensures FactorsSized(ts[k].factors, Pow2(n)) {
      assert Known(terms[k], wires);
      FactoredSized(terms[k], wires, n);
    }
    assert ts[0].factors != [];
  }

  lemma FactoredSized(t: RelTerm, wires: Wires, n: nat)
    requires Known(t, wires) && forall role <- wires :: |wires[role]| == 1 && |wires[role][0]| == Pow2(n)
    ensures FactorsSized(Factored(wires, t.roles), Pow2(n))
  {
    hide Pow2;
  }

  /** What the verifier asks of a relation block: no mask, claim zero, the sumcheck. */
  ghost predicate RelationHolds(proof: SumcheckProof, terms: seq<RelTerm>, wires: Wires, z: seq<int>, oracle: RoundOracle,
                                context: seq<Bytes>) {
    !proof.masked && proof.claim % P == 0 && VerifyResult(proof, Weighted(terms, wires, Eq(z)), Coins(oracle, context)) == Accept
  }

  method VerifyRelation(proof: SumcheckProof, terms: seq<RelTerm>, wires: Wires, z: seq<int>, oracle: RoundOracle,
                        context: seq<Bytes>) returns (ok: bool)
    ensures ok <==> RelationHolds(proof, terms, wires, z, oracle, context)
  {
    hide VerifyResult, Weighted, Eq, Coins;
    if proof.masked {
      return false;
    }
    var eq := EqVector(z);
    var ts := Weighted(terms, wires, eq);
    if proof.claim % P != 0 {
      return false;
    }
    var coins := new RoundTranscript(oracle, context);
    FreshCoins(coins);
    CoinsFrom(coins, context);
    var v := VerifyTerms(proof, ts, Transcribed(coins));
    ok := v == Accept;
  }

  // ------------------------------------------------------------------ the results

  lemma {:induction false} DegreeBound(terms: seq<RelTerm>, wires: Wires, e: seq<int>)
    requires FewRoles(terms)
    ensures Degree(Weighted(terms, wires, e)) < P
  {
    if terms != [] {
      DegreeBound(terms[1..], wires, e);
      assert Weighted(terms, wires, e)[1..] == Weighted(terms[1..], wires, e);
      assert |terms[0].roles| + 1 < P;
    }
  }

  /** The honest proof passes exactly when the residual's extension vanishes at the point. */
  lemma RelationExact(terms: seq<RelTerm>, wires: Wires, z: seq<int>, oracle: RoundOracle, context: seq<Bytes>)
    requires RelationShaped(terms, wires, |z|) && FewRoles(terms)
    ensures RelationHolds(Prove(Weighted(terms, wires, Eq(z)), |z|, Coins(oracle, context), false, [], 0),
                          terms, wires, z, oracle, context)
            <==> Mle(Residual(terms, wires, Pow2(|z|)), Reverse(z)) == 0
  {
    hide *;
    PIsPositive();
    var n, ts, coin := |z|, Weighted(terms, wires, Eq(z)), Coins(oracle, context);
    var proof := Prove(ts, n, coin, false, [], 0);
    WeightedUniform(terms, wires, z);
    DegreeBound(terms, wires, Eq(z));
    RowsFitNone(n, Degree(ts));
    ZeroModP();
    Completeness(ts, n, coin, false, [], 0);
    ProofChallenges(ts, n, coin);
    NeverMasked(ts, n, coin);
    ReduceCoeffsFacts(ts, Pow2(n), []);
    ModMod(Total(ReduceCoeffs(ts), Pow2(n)), P);
    ClaimIsExtension(terms, wires, z);
    SizedVerdict(proof, ts, n, coin);
    RelationIs(proof, terms, wires, z, oracle, context);
  }

  lemma NeverMasked(ts: seq<Term>, n: nat, coin: CoinFn)
    ensures !Prove(ts, n, coin, false, [], 0).masked
  {
    hide ProveRounds, Total;
  }

  lemma SizedVerdict(proof: SumcheckProof, ts: seq<Term>, n: nat, coin: CoinFn)
    requires Uniform(ts, Pow2(n)) && FirstSize(ts) == Pow2(n)
    ensures VerifyResult(proof, ts, coin) == VerifySized(proof, ts, Pow2(n), coin)
  {}

  lemma RelationIs(proof: SumcheckProof, terms: seq<RelTerm>, wires: Wires, z: seq<int>, oracle: RoundOracle, context: seq<Bytes>)
    ensures RelationHolds(proof, terms, wires, z, oracle, context) <==>
      (!proof.masked && proof.claim % P == 0 && VerifyResult(proof, Weighted(terms, wires, Eq(z)), Coins(oracle, context)) == Accept)
  {
    hide VerifyResult, Weighted, Eq, Coins;
  }

  /** A relation that holds at every coordinate passes for every point and coins. */
  lemma TrueRelationPasses(terms: seq<RelTerm>, wires: Wires, z: seq<int>, oracle: RoundOracle, context: seq<Bytes>)
    requires RelationShaped(terms, wires, |z|) && FewRoles(terms) && AllZero(Residual(terms, wires, Pow2(|z|)))
    ensures RelationHolds(Prove(Weighted(terms, wires, Eq(z)), |z|, Coins(oracle, context), false, [], 0),
                          terms, wires, z, oracle, context)
  {
    hide *;
    ReverseLength(z);
    ResidualLength(terms, wires, Pow2(|z|));
    ZeroMle(Residual(terms, wires, Pow2(|z|)), Reverse(z));
    RelationExact(terms, wires, z, oracle, context);
  }

  lemma ReverseLength(z: seq<int>)
    ensures |Reverse(z)| == |z|
  {}

  lemma ResidualLength(terms: seq<RelTerm>, wires: Wires, size: nat)
    ensures |Residual(terms, wires, size)| == size
  {}

  /** A relation wrong anywhere has the asked-for claim zero at n in P of the points at the most. */
  lemma WrongRelationRarelyZero(terms: seq<RelTerm>, wires: Wires, n: nat, zeroAt: seq<int> -> bool)
    requires !AllZero(Residual(terms, wires, Pow2(n)))
    requires forall p :: |p| == n ==>
      zeroAt(p) == (Total(Weighted(terms, wires, Eq(Reverse(p))), Pow2(n)) % P == 0)
    ensures Count(n, zeroAt, []) * P <= n * Pow(P, n)
  {
    hide Weighted, Residual, Eq, Mle, Total, Reverse;
    var r := Residual(terms, wires, Pow2(n));
    forall p | |p| == n && zeroAt([] + p) ensures Mle(r, p) == 0 {
      assert [] + p == p;
      ReverseTwice(p);
      ReverseLength(p);
      ClaimIsExtension(terms, wires, Reverse(p));
    }
    ResidualLength(terms, wires, Pow2(n));
    ZeroPointsAreFew(r, n, zeroAt, []);
  }

  /** And at any other point whatever proof passes was lucky in one of its rounds. */
  lemma WrongRelationNeedsLuck(proof: SumcheckProof, terms: seq<RelTerm>, wires: Wires, z: seq<int>, oracle: RoundOracle,
                               context: seq<Bytes>) returns (k: nat)
    requires RelationShaped(terms, wires, |z|) && RelationHolds(proof, terms, wires, z, oracle, context)
    requires Mle(Residual(terms, wires, Pow2(|z|)), Reverse(z)) != 0
    ensures |proof.roundPolys| == |proof.challenges| == |z| && k < |z|
    ensures LuckyRound(Weighted(terms, wires, Eq(z)), |z|, proof.roundPolys, proof.challenges, k)
  {
    hide *;
    var ts, coin := Weighted(terms, wires, Eq(z)), Coins(oracle, context);
    WeightedUniform(terms, wires, z);
    SizedVerdict(proof, ts, |z|, coin);
    RelationIs(proof, terms, wires, z, oracle, context);
    ClaimIsExtension(terms, wires, z);
    k := FalseClaimNeedsLuck(proof, ts, |z|, coin);
  }
}
