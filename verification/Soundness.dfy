/** Soundness of verify_terms without masks. */
module Soundness {
  // A false claim survives only if some round's challenge is one of the few points where the sent
  // polynomial meets the honest one; so, however the prover chooses its polynomials from the challenges
  // seen so far, at most n * deg * P^(n-1) of the P^n challenge vectors are accepted.

  import opened NumberTheory
  import opened Field
  import opened Polynomial
  import opened Interpolation
  import opened Sumcheck
  import opened Protocol

  // ------------------------------------------------------------ one lying round

  predicate Agree(cur: seq<Term>, half: nat, s: seq<Sample>, x: int) {
    Lagrange(s, x) == RoundSum(cur, half, x) % P
  }

  /** The field elements below m at which the sent polynomial meets the honest one. */
  function Lucky(cur: seq<Term>, half: nat, s: seq<Sample>, m: nat): (rs: set<int>)
    ensures forall r :: r in rs <==> 0 <= r < m && Agree(cur, half, s, r)
  {
    if m == 0 then {}
    else if Agree(cur, half, s, m - 1) then Lucky(cur, half, s, m - 1) + {m - 1}
    else Lucky(cur, half, s, m - 1)
  }

  /** Two different polynomials meet at most deg times. */
  lemma LuckyBound(cur: seq<Term>, half: nat, deg: nat, s: seq<Sample>, x: int)
    requires |s| == deg + 1 && Degree(cur) <= deg && !Agree(cur, half, s, x)
    ensures |Lucky(cur, half, s, P)| <= deg
  {
    var c := LagrangeIsPolynomial(s);
    var g := RoundPoly(cur, half);
    var d := Sub(c, g);
    RoundPolyEval(cur, half, x);
    AgreeMeansRoot(c, g, x);
    assert Lagrange(s, x) == Eval(c, x) % P;
    if ZeroPoly(d) {
      ZeroDifference(c, g);
      SameEval(c, g, x);
    }
    LuckyRoots(cur, half, s, c);
    RootBound(d, Lucky(cur, half, s, P));
  }

  lemma LuckyRoots(cur: seq<Term>, half: nat, s: seq<Sample>, c: seq<int>)
    requires forall x :: Lagrange(s, x) == Eval(c, x) % P
    ensures AreRoots(Sub(c, RoundPoly(cur, half)), Lucky(cur, half, s, P))
  {
    var g := RoundPoly(cur, half);
    forall r | r in Lucky(cur, half, s, P) ensures 0 <= r < P && Eval(Sub(c, g), r) % P == 0 {
      RoundPolyEval(cur, half, r);
      AgreeMeansRoot(c, g, r);
      assert Lagrange(s, r) == Eval(c, r) % P;
    }
  }

  /** A message that passes the round check of a false claim is not the honest one. */
  lemma LiesDiffer(cur: seq<Term>, half: nat, s: seq<Sample>, claim: int) returns (x: int)
    requires (Lagrange(s, 0) + Lagrange(s, 1)) % P == claim != Total(cur, half + half) % P
    ensures !Agree(cur, half, s, x)
  {
    RoundSumSplits(cur, half);
    x := if Agree(cur, half, s, 0) then 1 else 0;
    if Agree(cur, half, s, 0) && Agree(cur, half, s, 1) {
      SumOfReduced(RoundSum(cur, half, 0), RoundSum(cur, half, 1));
    }
  }

  lemma SumOfReduced(a: int, b: int)
    ensures (a % P + b % P) % P == (a + b) % P
  {
    ModMod(a, P);
    ModMod(b, P);
    ModAdd(a % P, a, b % P, b, P);
  }

  /** Unless the challenge is lucky, the next claim is false as well. */
  lemma LieContinues(cur: seq<Term>, n: nat, s: seq<Sample>, r: int)
    requires Sized(cur, Pow2(n + 1)) && !Agree(cur, Pow2(n), s, r)
    ensures Lagrange(s, r) != Total(FoldTerms(cur, r), Pow2(n)) % P
  {
    FoldTotal(cur, Pow2(n), r);
  }

  // ---------------------------------------------------- one accepted transcript

  function FoldMany(terms: seq<Term>, point: seq<int>): (us: seq<Term>)
    decreases |point|
  {
    if point == [] then terms else FoldMany(FoldTerms(terms, point[0]), point[1..])
  }

  /** Round k sent something other than the honest partial sum and its challenge is one
      of the at most deg points where the two agree. */
  ghost predicate LuckyRound(terms: seq<Term>, n: nat, polys: seq<seq<Sample>>, challenges: seq<int>, k: nat)
    requires |polys| == |challenges| == n && k < n
  {
    var cur, half := FoldMany(terms, challenges[..k]), Pow2(n - 1 - k);
    && (exists x :: !Agree(cur, half, polys[k], x))
    && Agree(cur, half, polys[k], challenges[k])
    && |Lucky(cur, half, polys[k], P)| <= Degree(terms)
  }

  lemma LuckyRoundShift(terms: seq<Term>, n: nat, polys: seq<seq<Sample>>, challenges: seq<int>, k: nat)
    requires |polys| == |challenges| == n && k < n - 1
    requires LuckyRound(FoldTerms(terms, challenges[0]), n - 1, polys[1..], challenges[1..], k)
    ensures LuckyRound(terms, n, polys, challenges, k + 1)
  {
    FoldDegree(terms, challenges[0]);
    assert challenges[..k + 1][1..] == challenges[1..][..k];
  }

  lemma {:induction false} FalseChainIsLucky(claim: int, terms: seq<Term>, n: nat, polys: seq<seq<Sample>>,
      challenges: seq<int>, coin: CoinFn, sent: seq<seq<Sample>>) returns (k: nat)
    requires |polys| == |challenges| == n && Sized(terms, Pow2(n))
    requires claim != Total(terms, Pow2(n)) % P
    requires VerifyRounds(claim, polys, challenges, Degree(terms), coin, sent)
             == Ends(TerminalSum(terms, challenges) % P)
    ensures k < n && LuckyRound(terms, n, polys, challenges, k)
    decreases n
  {
    hide *;
    PIsPositive();
    if n == 0 {
      VertexTotal(terms);
      ChainOver(claim, polys, challenges, Degree(terms), coin, sent);
      assert false;
    } else {
      var s, r := polys[0], challenges[0];
      ChainUnfold(claim, polys, challenges, Degree(terms), coin, sent, TerminalSum(terms, challenges) % P);
      k := FirstRound(claim, terms, n, polys, challenges, coin, sent);
      if !Agree(terms, Pow2(n - 1), s, r) {
        LieContinues(terms, n - 1, s, r);
        FoldSized(terms, n - 1, r);
        FoldDegree(terms, r);
        TerminalFold(terms, challenges);
        var j := FalseChainIsLucky(Lagrange(s, r), FoldTerms(terms, r), n - 1, polys[1..], challenges[1..],
                                   coin, sent + [s]);
        LuckyRoundShift(terms, n, polys, challenges, j);
        k := j + 1;
      }
    }
  }

  lemma ChainOver(claim: int, polys: seq<seq<Sample>>, challenges: seq<int>, deg: nat, coin: CoinFn, sent: seq<seq<Sample>>)
    requires |polys| == |challenges| == 0
    ensures VerifyRounds(claim, polys, challenges, deg, coin, sent) == Ends(claim) && challenges == []
  {}

  lemma ChainUnfold(claim: int, polys: seq<seq<Sample>>, challenges: seq<int>, deg: nat, coin: CoinFn, sent: seq<seq<Sample>>, last: int)
    requires |polys| == |challenges| > 0 && VerifyRounds(claim, polys, challenges, deg, coin, sent) == Ends(last)
    ensures VerifyRounds(Lagrange(polys[0], challenges[0]), polys[1..], challenges[1..], deg, coin, sent + [polys[0]]) == Ends(last)
  {
    hide Lagrange;
  }

  /** If the first challenge meets the honest polynomial, the first round is lucky. */
  lemma FirstRound(claim: int, terms: seq<Term>, n: nat, polys: seq<seq<Sample>>,
      challenges: seq<int>, coin: CoinFn, sent: seq<seq<Sample>>) returns (k: nat)
    requires |polys| == |challenges| == n > 0
    requires claim != Total(terms, Pow2(n)) % P
    requires VerifyRounds(claim, polys, challenges, Degree(terms), coin, sent) != Broken
    ensures k == 0
    ensures Agree(terms, Pow2(n - 1), polys[0], challenges[0]) ==> LuckyRound(terms, n, polys, challenges, 0)
  {
    k := 0;
    var half := Pow2(n - 1);
    var x := LiesDiffer(terms, half, polys[0], claim);
    LuckyBound(terms, half, Degree(terms), polys[0], x);
    assert FoldMany(terms, challenges[..0]) == terms;
  }

  /** The deterministic core of soundness. */
  lemma FalseClaimNeedsLuck(proof: SumcheckProof, terms: seq<Term>, n: nat, coin: CoinFn) returns (k: nat)
    requires Uniform(terms, Pow2(n)) && !proof.masked
    requires VerifySized(proof, terms, Pow2(n), coin) == Accept
    requires proof.claim % P != Total(terms, Pow2(n)) % P
    ensures |proof.roundPolys| == |proof.challenges| == n && k < n
    ensures LuckyRound(terms, n, proof.roundPolys, proof.challenges, k)
  {
    Log2OfPow2(n);
    k := FalseChainIsLucky(proof.claim % P, terms, n, proof.roundPolys, proof.challenges, coin, []);
  }

  // ------------------------------------------------- counting challenge vectors

  /** How many ways of completing `prefix` with n further field elements are good. */
  ghost function Count(n: nat, good: seq<int> -> bool, prefix: seq<int>): nat
    decreases n, P + 1
  {
    if n == 0 then (if good(prefix) then 1 else 0) else CountBelow(n, good, prefix, P)
  }

  ghost function CountBelow(n: nat, good: seq<int> -> bool, prefix: seq<int>, m: nat): nat
    requires n > 0 && m <= P
    decreases n, m
  {
    if m == 0 then 0 else CountBelow(n, good, prefix, m - 1) + Count(n - 1, good, prefix + [m - 1])
  }

  ghost predicate Completes(n: nat, good: seq<int> -> bool, prefix: seq<int>, future: seq<int>) {
    |future| == n && InField(future) && good(prefix + future)
  }

  lemma CompletesCons(n: nat, good: seq<int> -> bool, prefix: seq<int>, r: int, future: seq<int>)
    requires 0 <= r < P && Completes(n, good, prefix + [r], future)
    ensures Completes(n + 1, good, prefix, [r] + future)
  {
    assert prefix + ([r] + future) == prefix + [r] + future;
  }

  /** The count is zero exactly when nothing completes the prefix. */
  lemma {:induction false} CountNone(n: nat, good: seq<int> -> bool, prefix: seq<int>)
    requires forall future :: !Completes(n, good, prefix, future)
    ensures Count(n, good, prefix) == 0
    decreases n, P + 1
  {
    if n == 0 {
      assert !Completes(0, good, prefix, []);
      assert prefix + [] == prefix;
    } else {
      CountBelowNone(n, good, prefix, P);
    }
  }

  lemma {:induction false} CountBelowNone(n: nat, good: seq<int> -> bool, prefix: seq<int>, m: nat)
    requires n > 0 && m <= P && forall future :: !Completes(n, good, prefix, future)
    ensures CountBelow(n, good, prefix, m) == 0
    decreases n, m
  {
    if m > 0 {
      CountBelowNone(n, good, prefix, m - 1);
      var k, longer := n - 1, prefix + [m - 1];
      forall future ensures !Completes(k, good, longer, future) {
        if Completes(k, good, longer, future) {
          CompletesCons(k, good, prefix, m - 1, future);
        }
      }
      CountNone(k, good, longer);
    }
  }

  /** There are P^n vectors in all. */
  lemma {:induction false} CountAtMost(n: nat, good: seq<int> -> bool, prefix: seq<int>)
    ensures Count(n, good, prefix) <= Pow(P, n)
    decreases n, P + 1
  {
    if n > 0 {
      CountBelowAtMost(n, good, prefix, P);
    }
  }

  lemma {:induction false} CountBelowAtMost(n: nat, good: seq<int> -> bool, prefix: seq<int>, m: nat)
    requires n > 0 && m <= P
    ensures CountBelow(n, good, prefix, m) <= m * Pow(P, n - 1)
    decreases n, m
  {
    if m > 0 {
      CountBelowAtMost(n, good, prefix, m - 1);
      CountAtMost(n - 1, good, prefix + [m - 1]);
      Distribute(m, Pow(P, n - 1));
    }
  }

  lemma {:induction false} CountAll(n: nat, good: seq<int> -> bool, prefix: seq<int>)
    requires forall rs :: good(rs)
    ensures Count(n, good, prefix) == Pow(P, n)
    decreases n, P + 1
  {
    if n > 0 {
      CountBelowAll(n, good, prefix, P);
    }
  }

  lemma {:induction false} CountBelowAll(n: nat, good: seq<int> -> bool, prefix: seq<int>, m: nat)
    requires n > 0 && m <= P && forall rs :: good(rs)
    ensures CountBelow(n, good, prefix, m) == m * Pow(P, n - 1)
    decreases n, m
  {
    if m > 0 {
      CountBelowAll(n, good, prefix, m - 1);
      CountAll(n - 1, good, prefix + [m - 1]);
      Distribute(m, Pow(P, n - 1));
    }
  }

  lemma Distribute(m: int, q: int)
    ensures m * q == (m - 1) * q + q
  {}

  // ------------------------------------------------------- adaptive soundness

  /** A cheating prover: its next polynomial, from the challenges it has seen. */
  type Strategy = seq<int> -> seq<Sample>

  function StrategyPolys(strat: Strategy, past: seq<int>, future: seq<int>): (polys: seq<seq<Sample>>)
    ensures |polys| == |future|
    decreases |future|
  {
    if future == [] then []
    else [strat(past)] + StrategyPolys(strat, past + [future[0]], future[1..])
  }

  function CoinOf(rs: seq<int>): CoinFn {
    sent => if 1 <= |sent| <= |rs| then rs[|sent| - 1] else 0
  }

  function StrategyProof(strat: Strategy, claim: int, rs: seq<int>): SumcheckProof {
    SumcheckProof(claim, StrategyPolys(strat, [], rs), rs, rs, false, 0)
  }

  /** The verifier accepts the strategy's run against the challenge vector rs. */
  predicate Fooled(strat: Strategy, claim: int, terms: seq<Term>, n: nat, rs: seq<int>) {
    VerifySized(StrategyProof(strat, claim, rs), terms, Pow2(n), CoinOf(rs)) == Accept
  }

  /** The same check by recursion on the challenges still to come. */
  predicate Survives(claim: int, cur: seq<Term>, deg: nat, strat: Strategy, past: seq<int>, future: seq<int>)
    decreases |future|
  {
    if future == [] then claim == TerminalSum(cur, []) % P
    else
      var s := strat(past);
      && |s| == deg + 1
      && (Lagrange(s, 0) + Lagrange(s, 1)) % P == claim
      && Survives(Lagrange(s, future[0]), FoldTerms(cur, future[0]), deg, strat,
                  past + [future[0]], future[1..])
  }

  lemma {:induction false} ChainSurvives(claim: int, cur: seq<Term>, deg: nat, strat: Strategy,
      past: seq<int>, future: seq<int>, sent: seq<seq<Sample>>)
    requires |sent| == |past| && InField(past + future)
    requires VerifyRounds(claim, StrategyPolys(strat, past, future), future, deg, CoinOf(past + future), sent)
             == Ends(TerminalSum(cur, future) % P)
    ensures Survives(claim, cur, deg, strat, past, future)
    decreases |future|
  {
    if future != [] {
      var s, r := strat(past), future[0];
      assert StrategyPolys(strat, past, future)[1..] == StrategyPolys(strat, past + [r], future[1..]);
      assert past + [r] + future[1..] == past + future;
      assert (past + future)[|past|] == r;
      ModSmall(r, P);
      TerminalFold(cur, future);
      ChainSurvives(Lagrange(s, r), FoldTerms(cur, r), deg, strat, past + [r], future[1..], sent + [s]);
    }
  }

  lemma FooledSurvives(strat: Strategy, claim: int, terms: seq<Term>, n: nat, rs: seq<int>)
    requires |rs| == n && InField(rs) && Fooled(strat, claim, terms, n, rs)
    ensures Survives(claim % P, terms, Degree(terms), strat, [], rs)
  {
    Log2OfPow2(n);
    assert [] + rs == rs;
    ChainSurvives(claim % P, terms, Degree(terms), strat, [], rs, []);
  }

  ghost predicate GoodSurvive(claim: int, cur: seq<Term>, n: nat, deg: nat, strat: Strategy,
                              past: seq<int>, good: seq<int> -> bool) {
    forall future :: Completes(n, good, past, future) ==> Survives(claim, cur, deg, strat, past, future)
  }

  lemma GoodSurviveNext(claim: int, cur: seq<Term>, n: nat, deg: nat, strat: Strategy,
                        past: seq<int>, good: seq<int> -> bool, r: int)
    requires 0 <= r < P && GoodSurvive(claim, cur, n + 1, deg, strat, past, good)
    ensures GoodSurvive(Lagrange(strat(past), r), FoldTerms(cur, r), n, deg, strat, past + [r], good)
  {
    forall future | Completes(n, good, past + [r], future)
      ensures Survives(Lagrange(strat(past), r), FoldTerms(cur, r), deg, strat, past + [r], future)
    {
      CompletesCons(n, good, past, r, future);
      assert Survives(claim, cur, deg, strat, past, [r] + future);
      assert ([r] + future)[1..] == future;
    }
  }

  /** n * deg * P^n, the bound on P times the number of accepted vectors. */
  function ErrorBound(n: nat, deg: nat): int {
    n * deg * Pow(P, n)
  }

  lemma {:induction false} SurvivalBound(claim: int, cur: seq<Term>, n: nat, deg: nat, strat: Strategy,
      past: seq<int>, good: seq<int> -> bool)
    requires Sized(cur, Pow2(n)) && Degree(cur) <= deg && claim != Total(cur, Pow2(n)) % P
    requires GoodSurvive(claim, cur, n, deg, strat, past, good)
    ensures Count(n, good, past) * P <= ErrorBound(n, deg)
    decreases n, P + 1
  {
    var s := strat(past);
    if n > 0 && |s| == deg + 1 && (Lagrange(s, 0) + Lagrange(s, 1)) % P == claim {
      var x := LiesDiffer(cur, Pow2(n - 1), s, claim);
      LuckyBound(cur, Pow2(n - 1), deg, s, x);
      SurvivalBelow(claim, cur, n, deg, strat, past, good, P);
      BoundAdds(n, deg, |Lucky(cur, Pow2(n - 1), s, P)|);
    } else {
      NothingSurvives(claim, cur, n, deg, strat, past, good);
      CountNone(n, good, past);
      BoundNonnegative(n, deg);
    }
  }

  lemma NothingSurvives(claim: int, cur: seq<Term>, n: nat, deg: nat, strat: Strategy,
      past: seq<int>, good: seq<int> -> bool)
    requires claim != Total(cur, Pow2(n)) % P && GoodSurvive(claim, cur, n, deg, strat, past, good)
    requires n == 0 || |strat(past)| != deg + 1
             || (Lagrange(strat(past), 0) + Lagrange(strat(past), 1)) % P != claim
    ensures forall future :: !Completes(n, good, past, future)
  {
    VertexTotal(cur);
    forall future ensures !Completes(n, good, past, future) {
      assert Completes(n, good, past, future) ==> Survives(claim, cur, deg, strat, past, future);
    }
  }

  lemma {:induction false} SurvivalBelow(claim: int, cur: seq<Term>, n: nat, deg: nat, strat: Strategy,
      past: seq<int>, good: seq<int> -> bool, m: nat)
    requires n > 0 && m <= P && Sized(cur, Pow2(n)) && Degree(cur) <= deg
    requires GoodSurvive(claim, cur, n, deg, strat, past, good)
    ensures CountBelow(n, good, past, m) * P
            <= |Lucky(cur, Pow2(n - 1), strat(past), m)| * Pow(P, n) + m * ErrorBound(n - 1, deg)
    decreases n, m
  {
    hide *;
    CountBelowUnfold(n, good, past, m);
    LuckyUnfold(cur, Pow2(n - 1), strat(past), m);
    if m > 0 {
      var r, s, half := m - 1, strat(past), Pow2(n - 1);
      SurvivalBelow(claim, cur, n, deg, strat, past, good, m - 1);
      GoodSurviveNext(claim, cur, n - 1, deg, strat, past, good, r);
      BoundNonnegative(n - 1, deg);
      PowUnfold(P, n);
      var c, before := Count(n - 1, good, past + [r]), |Lucky(cur, half, s, m - 1)|;
      if Agree(cur, half, s, r) {
        CountAtMost(n - 1, good, past + [r]);
        LuckyTerm(CountBelow(n, good, past, m - 1), c, before, Pow(P, n - 1), m, ErrorBound(n - 1, deg));
      } else {
        LieContinues(cur, n - 1, s, r);
        FoldSized(cur, n - 1, r);
        FoldDegree(cur, r);
        SurvivalBound(Lagrange(s, r), FoldTerms(cur, r), n - 1, deg, strat, past + [r], good);
        UnluckyTerm(CountBelow(n, good, past, m - 1), c, before * Pow(P, n), m, ErrorBound(n - 1, deg));
      }
    }
  }

  lemma CountBelowUnfold(n: nat, good: seq<int> -> bool, past: seq<int>, m: nat)
    requires n > 0 && m <= P
    ensures P > 0 && CountBelow(n, good, past, m) == if m == 0 then 0
            else CountBelow(n, good, past, m - 1) + Count(n - 1, good, past + [m - 1])
  {}

  lemma LuckyUnfold(cur: seq<Term>, half: nat, s: seq<Sample>, m: nat)
    ensures |Lucky(cur, half, s, m)| == if m == 0 then 0
            else |Lucky(cur, half, s, m - 1)| + if Agree(cur, half, s, m - 1) then 1 else 0
  {}

  lemma LuckyTerm(sum: int, c: int, before: int, q: int, m: int, e: int)
    requires sum * P <= before * (P * q) + (m - 1) * e && c <= q && e >= 0
    ensures (sum + c) * P <= (before + 1) * (P * q) + m * e
  {
    assert (before + 1) * (P * q) == before * (P * q) + P * q;
    assert c * P <= q * P;
    Distribute(m, e);
  }

  lemma UnluckyTerm(sum: int, c: int, lucky: int, m: int, e: int)
    requires sum * P <= lucky + (m - 1) * e && c * P <= e
    ensures (sum + c) * P <= lucky + m * e
  {
    Distribute(m, e);
  }

  lemma {:induction false} PowPositive(n: nat)
    ensures Pow(P, n) >= 1
  {
    if n > 0 { PowPositive(n - 1); }
  }

  lemma BoundNonnegative(n: nat, deg: nat)
    ensures ErrorBound(n, deg) >= 0
  {
    PowPositive(n);
  }

  lemma BoundAdds(n: nat, deg: nat, lucky: nat)
    requires n > 0 && lucky <= deg
    ensures lucky * Pow(P, n) + P * ErrorBound(n - 1, deg) <= ErrorBound(n, deg)
  {
    PowUnfold(P, n);
    PowPositive(n);
    BoundAlgebra(n, deg, Pow(P, n - 1));
    MulMonotone(lucky, deg, Pow(P, n), Pow(P, n));
  }

  lemma BoundAlgebra(n: int, deg: int, q: int)
    ensures deg * (P * q) + P * ((n - 1) * deg * q) == n * deg * (P * q)
  {}

  /** Adaptive soundness: of the P^n challenge vectors, at most n * deg * P^(n-1) let a
      false claim through, whatever the prover's strategy. */
  lemma SoundnessError(strat: Strategy, claim: int, terms: seq<Term>, n: nat)
    requires Uniform(terms, Pow2(n)) && claim % P != Total(terms, Pow2(n)) % P
    ensures Count(n, rs => Fooled(strat, claim, terms, n, rs), []) * P <= n * Degree(terms) * Pow(P, n)
  {
    var good := rs => Fooled(strat, claim, terms, n, rs);
    var deg := Degree(terms);
    forall future | Completes(n, good, [], future)
      ensures Survives(claim % P, terms, deg, strat, [], future)
    {
      assert [] + future == future;
      FooledSurvives(strat, claim, terms, n, future);
    }
    SurvivalBound(claim % P, terms, n, deg, strat, [], good);
  }
}
