/** sumcheck.prove and sumcheck.verify: one product of vectors. */
module Products {
  // Proved with coins drawn ahead and verified, as logup.py, layer.py and full_layer.py do, with the
  // proof's own challenges.

  import opened NumberTheory
  import opened Field
  import opened Polynomial
  import opened Interpolation
  import opened Sumcheck
  import opened Protocol
  import opened Prover
  import opened Verifier

  /** lambda i: coins[i] */
  function Listed(coins: seq<int>): Coin {
    Plain(i => if 0 <= i < |coins| then coins[i] else 0)
  }

  function OneProduct(factors: seq<seq<int>>): seq<Term> { [Term(1, factors)] }

  /** The unmasked proof of the product's sum over 2^n points. */
  function ProductProof(factors: seq<seq<int>>, n: nat, coins: seq<int>): SumcheckProof {
    Prove(OneProduct(factors), n, CoinFnOf(Listed(coins)), false, [], 0)
  }

  function ProductVerdict(proof: SumcheckProof, factors: seq<seq<int>>): Verdict {
    VerifyResult(proof, OneProduct(factors), CoinFnOf(Listed(proof.challenges)))
  }

  ghost predicate Factors(factors: seq<seq<int>>, n: nat) {
    0 < |factors| < P && FactorsSized(factors, Pow2(n))
  }

  lemma ProductIsUniform(factors: seq<seq<int>>, n: nat)
    requires Factors(factors, n)
    ensures Uniform(OneProduct(factors), Pow2(n)) && Degree(OneProduct(factors)) == |factors| < P
    ensures FirstSize(OneProduct(factors)) == Pow2(n)
  {
    var ts := OneProduct(factors);
    assert ts[0].factors != [];
    assert Degree(ts[1..]) == 0;
    UniformSize(ts, Pow2(n));
  }

  method ProveProduct(factors: seq<seq<int>>, coins: seq<int>, ghost n: nat) returns (proof: SumcheckProof)
    requires Factors(factors, n)
    ensures proof == ProductProof(factors, n, coins)
  {
    hide Prove, CoinFnOf, Uniform, Degree;
    ProductIsUniform(factors, n);
    var out, spent := ProveTerms(OneProduct(factors), Listed(coins), null, 0, n);
    proof := out.proof;
  }

  method VerifyProduct(proof: SumcheckProof, factors: seq<seq<int>>) returns (v: Verdict)
    ensures v == ProductVerdict(proof, factors)
  {
    hide VerifyResult, CoinFnOf;
    v := VerifyTerms(proof, OneProduct(factors), Listed(proof.challenges));
  }

  /** sum over the first m points of the product */
  function ProductSum(factors: seq<seq<int>>, m: nat): int {
    if m == 0 then 0 else ProductSum(factors, m - 1) + ProdAt(factors, m - 1)
  }

  lemma {:induction false} TotalIsProductSum(factors: seq<seq<int>>, m: nat)
    ensures Total(OneProduct(factors), m) == ProductSum(factors, m)
  {
    if m == 0 {
      TotalZero(OneProduct(factors));
    } else {
      TotalIsProductSum(factors, m - 1);
      TotalStep(OneProduct(factors), m - 1);
      assert AtIndex(OneProduct(factors)[1..], m - 1) == 0;
    }
  }

  // -------------------------------------------------- the proof's own challenges

  lemma {:induction false} ChallengesAreCoins(cur: seq<Term>, n: nat, deg: nat, coin: CoinFn, sent: seq<seq<Sample>>, k: nat)
    requires k < n
    ensures var r := ProveRounds(cur, n, deg, coin, sent, false, [], 0);
      exists s :: |s| == |sent| + k + 1 && r.challenges[k] == coin(s) % P
    decreases n
  {
    hide *;
    PIsPositive();
    var h, poly, c, rest := ProveUnfold(cur, n, deg, coin, sent, false, [], 0);
    var r := ProveRounds(cur, n, deg, coin, sent, false, [], 0);
    if k == 0 {
      assert r.challenges[0] == c;
    } else {
      ChallengesAreCoins(FoldTerms(cur, c), n - 1, deg, coin, sent + [poly], k - 1);
      assert r.challenges[k] == rest.challenges[k - 1];
    }
  }

  /** A coin matters only through its values on as many polynomials as are checked. */
  lemma {:induction false} SameCoinsSameRounds(claim: int, polys: seq<seq<Sample>>, challenges: seq<int>, deg: nat,
                                               a: CoinFn, b: CoinFn, sent: seq<seq<Sample>>)
    requires |polys| == |challenges|
    requires forall s :: |sent| < |s| <= |sent| + |polys| ==> a(s) % P == b(s) % P
    ensures VerifyRounds(claim, polys, challenges, deg, a, sent) == VerifyRounds(claim, polys, challenges, deg, b, sent)
    decreases |polys|
  {
    if polys != [] {
      var s := polys[0];
      assert a(sent + [s]) % P == b(sent + [s]) % P;
      SameCoinsSameRounds(Lagrange(s, a(sent + [s]) % P), polys[1..], challenges[1..], deg, a, b, sent + [s]);
    }
  }

  lemma ListedCoin(coins: seq<int>, s: seq<seq<Sample>>)
    ensures CoinFnOf(Listed(coins))(s) == if 1 <= |s| <= |coins| then coins[|s| - 1] else 0
  {}

  lemma ProductChallenges(factors: seq<seq<int>>, n: nat, coins: seq<int>)
    requires |coins| >= n
    ensures var proof := ProductProof(factors, n, coins);
      |proof.challenges| == n && forall k :: 0 <= k < n ==> proof.challenges[k] == coins[k] % P
  {
    hide Prove, ProveRounds, CoinFnOf, ReduceCoeffs, Degree, Total;
    var ts, coin := OneProduct(factors), CoinFnOf(Listed(coins));
    ProofChallenges(ts, n, coin);
    forall k | 0 <= k < n ensures ProductProof(factors, n, coins).challenges[k] == coins[k] % P {
      ChallengesAreCoins(ReduceCoeffs(ts), n, Degree(ts), coin, [], k);
      var s :| |s| == k + 1 && ProductProof(factors, n, coins).challenges[k] == coin(s) % P;
      ListedCoin(coins, s);
    }
  }

  lemma ProofChallenges(ts: seq<Term>, n: nat, coin: CoinFn)
    ensures Prove(ts, n, coin, false, [], 0).challenges
            == ProveRounds(ReduceCoeffs(ts), n, Degree(ts), coin, [], false, [], 0).challenges
    ensures |Prove(ts, n, coin, false, [], 0).challenges| == n && |Prove(ts, n, coin, false, [], 0).roundPolys| == n
    ensures Prove(ts, n, coin, false, [], 0).claim == (Total(ReduceCoeffs(ts), Pow2(n)) % P + 0) % P
  {
    hide ProveRounds, ReduceCoeffs, Degree, Total;
    ModSmall(0, P);
  }

  lemma SameCoinsSameVerdict(proof: SumcheckProof, ts: seq<Term>, size: nat, a: CoinFn, b: CoinFn)
    requires |proof.roundPolys| == |proof.challenges|
    requires forall s :: 0 < |s| <= |proof.roundPolys| ==> a(s) % P == b(s) % P
    ensures VerifySized(proof, ts, size, a) == VerifySized(proof, ts, size, b)
  {
    hide VerifyRounds, Terminal, Degree, Pow2, Log2;
    SameCoinsSameRounds(proof.claim % P, proof.roundPolys, proof.challenges, Degree(ts), a, b, []);
  }

  /** The honest proof of a product is accepted under its own challenges, for any coins, and
      claims the product's sum. */
  lemma HonestProductAccepted(factors: seq<seq<int>>, n: nat, coins: seq<int>)
    requires Factors(factors, n) && |coins| >= n
    ensures ProductVerdict(ProductProof(factors, n, coins), factors) == Accept
    ensures ProductProof(factors, n, coins).claim == ProductSum(factors, Pow2(n)) % P
  {
    var ts, coin := OneProduct(factors), CoinFnOf(Listed(coins));
    var proof := ProductProof(factors, n, coins);
    ProductIsUniform(factors, n);
    RowsFitNone(n, Degree(ts));
    Completeness(ts, n, coin, false, [], 0);
    ProofChallenges(ts, n, coin);
    ProductChallenges(factors, n, coins);
    ReduceCoeffsFacts(ts, Pow2(n), []);
    TotalIsProductSum(factors, Pow2(n));
    hide *;
    PIsPositive();
    forall s: seq<seq<Sample>> | 0 < |s| <= |proof.roundPolys|
      ensures coin(s) % P == CoinFnOf(Listed(proof.challenges))(s) % P
    {
      ListedCoin(coins, s);
      ListedCoin(proof.challenges, s);
      ModMod(coins[|s| - 1], P);
    }
    SameCoinsSameVerdict(proof, ts, Pow2(n), coin, CoinFnOf(Listed(proof.challenges)));
    ProductVerdictIs(proof, factors, n);
    ZeroModP();
    ModMod(Total(ReduceCoeffs(ts), Pow2(n)), P);
  }

  lemma ZeroModP()
    ensures 0 % P == 0
  {}

  lemma RowsFitNone(n: nat, deg: nat)
    ensures RowsFit(false, [], n, deg)
  {}

  lemma ProductVerdictIs(proof: SumcheckProof, factors: seq<seq<int>>, n: nat)
    requires Uniform(OneProduct(factors), Pow2(n)) && FirstSize(OneProduct(factors)) == Pow2(n)
    ensures ProductVerdict(proof, factors)
            == VerifySized(proof, OneProduct(factors), Pow2(n), CoinFnOf(Listed(proof.challenges)))
  {}
}
