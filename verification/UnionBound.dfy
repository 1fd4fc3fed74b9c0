/** Soundness added up over all the coins. */
module UnionBound {
  // The bounds of an argument's phases together: first for any two phases, then for the batched gates
  // (weights, point, rounds) and for the audit's relation check (point, rounds). The prover may choose
  // every polynomial from all coins seen so far.

  import opened NumberTheory
  import opened Field
  import opened Polynomial
  import opened Interpolation
  import opened Sumcheck
  import opened Protocol
  import opened Verifier
  import opened Soundness
  import opened Rows
  import opened EqWeights
  import opened Gates
  import opened Relations
  import A = AuditRelation

  // ------------------------------------------------------------------- two phases

  /** Unless the first a coins were bad, at most B in P of the next b are good. */
  ghost predicate FewAfter(a: nat, b: nat, good: seq<int> -> bool, prefix: seq<int>, bad: seq<int> -> bool, B: nat) {
    forall x :: |x| == a && InField(x) && !bad(prefix + x) ==> Count(b, good, prefix + x) * P <= B * Pow(P, b)
  }

  lemma FewAfterNext(a: nat, b: nat, good: seq<int> -> bool, prefix: seq<int>, bad: seq<int> -> bool, B: nat, r: int)
    requires 0 <= r < P && FewAfter(a + 1, b, good, prefix, bad, B)
    ensures FewAfter(a, b, good, prefix + [r], bad, B)
  {
    forall x | |x| == a && InField(x) && !bad(prefix + [r] + x)
      ensures Count(b, good, prefix + [r] + x) * P <= B * Pow(P, b)
    {
      assert prefix + ([r] + x) == prefix + [r] + x;
      assert InField([r] + x);
    }
  }

  lemma {:induction false} PhasesCount(a: nat, b: nat, good: seq<int> -> bool, prefix: seq<int>, bad: seq<int> -> bool, B: nat)
    requires FewAfter(a, b, good, prefix, bad, B)
    ensures Count(a + b, good, prefix) * P <= Count(a, bad, prefix) * (P * Pow(P, b)) + Pow(P, a) * (B * Pow(P, b))
    decreases a, P + 1
  {
    hide *;
    PIsPositive();
    PowPositive(b);
    if a == 0 {
      NoCoinsLeft(b, good, prefix, bad, B);
    } else {
      PhasesBelow(a, b, good, prefix, bad, B, P);
      CountIsBelow(a + b, good, prefix);
      CountIsBelow(a, bad, prefix);
      PowUnfold(P, a);
    }
  }

  lemma CountIsBelow(n: nat, good: seq<int> -> bool, prefix: seq<int>)
    requires n > 0
    ensures Count(n, good, prefix) == CountBelow(n, good, prefix, P)
  {}

  lemma NoCoinsLeft(b: nat, good: seq<int> -> bool, prefix: seq<int>, bad: seq<int> -> bool, B: nat)
    requires FewAfter(0, b, good, prefix, bad, B)
    ensures Count(0 + b, good, prefix) * P <= Count(0, bad, prefix) * (P * Pow(P, b)) + Pow(P, 0) * (B * Pow(P, b))
  {
    CountAtMost(b, good, prefix);
    assert prefix + [] == prefix;
    assert Pow(P, 0) == 1;
    assert Count(0, bad, prefix) == if bad(prefix) then 1 else 0;
    var c, q := Count(b, good, prefix), Pow(P, b);
    PowPositive(b);
    assert !bad(prefix) ==> Count(b, good, prefix + []) * P <= B * Pow(P, b);
    hide *;
    PIsPositive();
    TimesCommute(P, q);
    MulMonotone(c, q, P, P);
    NonnegativeProduct(B, q);
    TimesZero(P * q);
  }

  lemma NonnegativeProduct(a: nat, b: nat)
    ensures a * b >= 0
  {}

  lemma {:induction false} PhasesBelow(a: nat, b: nat, good: seq<int> -> bool, prefix: seq<int>, bad: seq<int> -> bool, B: nat, m: nat)
    requires a > 0 && m <= P && FewAfter(a, b, good, prefix, bad, B)
    ensures CountBelow(a + b, good, prefix, m) * P
            <= CountBelow(a, bad, prefix, m) * (P * Pow(P, b)) + (m * Pow(P, a - 1)) * (B * Pow(P, b))
    decreases a, m
  {
    hide *;
    PIsPositive();
    CountBelowUnfold(a + b, good, prefix, m);
    CountBelowUnfold(a, bad, prefix, m);
    if m > 0 {
      PhasesBelow(a, b, good, prefix, bad, B, m - 1);
      FewAfterNext(a - 1, b, good, prefix, bad, B, m - 1);
      PhasesCount(a - 1, b, good, prefix + [m - 1], bad, B);
      PhasesStep(CountBelow(a + b, good, prefix, m - 1), Count(a - 1 + b, good, prefix + [m - 1]), CountBelow(a, bad, prefix, m - 1),
                 Count(a - 1, bad, prefix + [m - 1]), P * Pow(P, b), m, Pow(P, a - 1), B * Pow(P, b));
    } else {
      TimesZero(P);
      TimesZero(P * Pow(P, b));
      TimesZero(Pow(P, a - 1));
      TimesZero(B * Pow(P, b));
    }
  }

  lemma PhasesStep(sum: int, c: int, bads: int, d: int, q: int, m: int, p: int, e: int)
    requires sum * P <= bads * q + ((m - 1) * p) * e && c * P <= d * q + p * e
    ensures (sum + c) * P <= (bads + d) * q + (m * p) * e
  {
    assert (sum + c) * P == sum * P + c * P;
    assert (bads + d) * q == bads * q + d * q;
    assert m * p == (m - 1) * p + p;
    assert (m * p) * e == ((m - 1) * p) * e + p * e;
  }

  /** Two phases lose no more than the sum of what each loses. */
  lemma TwoPhases(a: nat, b: nat, good: seq<int> -> bool, prefix: seq<int>, bad: seq<int> -> bool, A: nat, B: nat)
    requires FewAfter(a, b, good, prefix, bad, B) && Count(a, bad, prefix) * P <= A * Pow(P, a)
    ensures Count(a + b, good, prefix) * P <= (A + B) * Pow(P, a + b)
  {
    hide *;
    PIsPositive();
    PhasesCount(a, b, good, prefix, bad, B);
    PowAdd(P, a, b);
    PowPositive(b);
    TwoPhasesAlgebra(Count(a + b, good, prefix) * P, Count(a, bad, prefix), A, B, Pow(P, a), Pow(P, b));
  }

  lemma TwoPhasesAlgebra(total: int, bads: nat, A: nat, B: nat, p: int, q: int)
    requires total <= bads * (P * q) + p * (B * q) && bads * P <= A * p && q >= 1
    ensures total <= (A + B) * (p * q)
  {
    assert bads * (P * q) == (bads * P) * q;
    TimesMonotone(bads * P, A * p, q);
    assert (A * p) * q == A * (p * q);
    assert p * (B * q) == B * (p * q);
    assert (A + B) * (p * q) == A * (p * q) + B * (p * q);
  }

  lemma TimesMonotone(a: int, b: int, q: int)
    requires a <= b && q >= 0
    ensures a * q <= b * q
  {}

  // ------------------------------------------------------------ phase one: the weights

  /** Gates after k that all vanish at the index. */
  ghost predicate RestVanish(gates: seq<Gate>, k: nat, i: nat) {
    forall j :: k < j < |gates| ==> AtIndex(gates[j].terms, i) % P == 0
  }

  lemma {:induction false} LastFailing(gates: seq<Gate>, k: nat, i: nat) returns (last: nat)
    requires k < |gates| && AtIndex(gates[k].terms, i) % P != 0
    ensures k <= last < |gates| && AtIndex(gates[last].terms, i) % P != 0 && RestVanish(gates, last, i)
    decreases |gates| - k
  {
    hide AtIndex;
    if RestVanish(gates, k, i) {
      last := k;
    } else {
      var j :| k < j < |gates| && AtIndex(gates[j].terms, i) % P != 0;
      last := LastFailing(gates, j, i);
    }
  }

  lemma {:induction false} TailVanishes(lambdas: seq<int>, gates: seq<Gate>, k: nat, i: nat)
    requires k < |lambdas| <= |gates| && RestVanish(gates, k, i)
    ensures BatchAt(lambdas, gates, i) % P == BatchAt(lambdas[..k + 1], gates, i) % P
    decreases |lambdas|
  {
    hide AtIndex;
    var l, g := lambdas[0], AtIndex(gates[0].terms, i);
    assert lambdas[..k + 1][1..] == lambdas[1..][..k];
    if k == 0 {
      assert lambdas[..1][1..] == [];
      RestZero(lambdas[1..], gates[1..], i);
      ModAdd(l * g, l * g, BatchAt(lambdas[1..], gates[1..], i), 0, P);
    } else {
      forall j | k - 1 < j < |gates[1..]| ensures AtIndex(gates[1..][j].terms, i) % P == 0 {
        assert gates[1..][j] == gates[j + 1];
      }
      TailVanishes(lambdas[1..], gates[1..], k - 1, i);
      ModAdd(l * g, l * g, BatchAt(lambdas[1..], gates[1..], i), BatchAt(lambdas[1..][..k], gates[1..], i), P);
    }
  }

  lemma {:induction false} RestZero(lambdas: seq<int>, gates: seq<Gate>, i: nat)
    requires forall j :: 0 <= j < |gates| ==> AtIndex(gates[j].terms, i) % P == 0
    ensures BatchAt(lambdas, gates, i) % P == 0
  {
    hide AtIndex;
    if lambdas != [] && gates != [] {
      RestZero(lambdas[1..], gates[1..], i);
      ModMul(lambdas[0], lambdas[0], AtIndex(gates[0].terms, i), 0, P);
      ModAdd(lambdas[0] * AtIndex(gates[0].terms, i), 0, BatchAt(lambdas[1..], gates[1..], i), 0, P);
    }
  }

  /** The weights under which the combination vanishes at index i. */
  ghost predicate HidesAt(gates: seq<Gate>, i: nat, hides: seq<int> -> bool) {
    forall v :: |v| == |gates| ==> (hides(v) <==> BatchAt(v, gates, i) % P == 0)
  }

  /** Two values of the failing gate's weight cannot both be completed. */
  lemma OneWeight(gates: seq<Gate>, k: nat, i: nat, hides: seq<int> -> bool, prefix: seq<int>, x: int, y: int,
                  f: seq<int>, g: seq<int>)
    requires |prefix| == k < |gates| && AtIndex(gates[k].terms, i) % P != 0 && RestVanish(gates, k, i) && HidesAt(gates, i, hides)
    requires 0 <= x < P && 0 <= y < P && |f| == |g| == |gates| - k - 1
    requires hides(prefix + [x] + f) && hides(prefix + [y] + g)
    ensures x == y
  {
    hide AtIndex, BatchAt;
    TailVanishes(prefix + [x] + f, gates, k, i);
    TailVanishes(prefix + [y] + g, gates, k, i);
    assert (prefix + [x] + f)[..k + 1] == (prefix + [0])[k := x];
    assert (prefix + [y] + g)[..k + 1] == (prefix + [0])[k := y];
    OneLambdaHides(prefix + [0], gates, k, x, y, i);
  }

  lemma {:induction false} WeightsBelow(gates: seq<Gate>, k: nat, i: nat, hides: seq<int> -> bool, prefix: seq<int>, m: nat)
    requires |prefix| == k < |gates| && AtIndex(gates[k].terms, i) % P != 0 && RestVanish(gates, k, i) && HidesAt(gates, i, hides)
    requires m <= P
    ensures CountBelow(|gates| - k, hides, prefix, m) <= Pow(P, |gates| - k - 1)
    ensures CountBelow(|gates| - k, hides, prefix, m) > 0
            ==> SomeReaches(|gates| - k - 1, hides, prefix, m)
  {
    hide *;
    var n := |gates| - k;
    PIsPositive();
    PowPositive(n - 1);
    CountBelowUnfold(n, hides, prefix, m);
    if m > 0 {
      WeightsBelow(gates, k, i, hides, prefix, m - 1);
      CountAtMost(n - 1, hides, prefix + [m - 1]);
      if Reaches(n - 1, hides, prefix, m - 1) {
        if CountBelow(n, hides, prefix, m - 1) > 0 {
          var x := WhichReaches(n - 1, hides, prefix, m - 1);
          var f := Reached(n - 1, hides, prefix, x);
          var g := Reached(n - 1, hides, prefix, m - 1);
          OneWeight(gates, k, i, hides, prefix, x, m - 1, f, g);
          assert false;
        }
      } else {
        Unreached(n - 1, hides, prefix, m - 1);
      }
      SomeReachesIs(n - 1, hides, prefix, m);
    }
  }

  ghost predicate Completable(n: nat, good: seq<int> -> bool, prefix: seq<int>) {
    exists f :: Completes(n, good, prefix, f)
  }

  /** x after the prefix can be completed. */
  ghost predicate Reaches(n: nat, good: seq<int> -> bool, prefix: seq<int>, x: int) {
    Completable(n, good, prefix + [x])
  }

  ghost predicate SomeReaches(n: nat, good: seq<int> -> bool, prefix: seq<int>, m: nat) {
    exists x :: 0 <= x < m && Reaches(n, good, prefix, x)
  }

  lemma WhichReaches(n: nat, good: seq<int> -> bool, prefix: seq<int>, m: nat) returns (x: int)
    requires SomeReaches(n, good, prefix, m)
    ensures 0 <= x < m && Reaches(n, good, prefix, x)
  {
    hide Reaches;
    x :| 0 <= x < m && Reaches(n, good, prefix, x);
  }

  lemma SomeReachesIs(n: nat, good: seq<int> -> bool, prefix: seq<int>, m: nat)
    requires m > 0
    ensures SomeReaches(n, good, prefix, m) <==> SomeReaches(n, good, prefix, m - 1) || Reaches(n, good, prefix, m - 1)
  {
    hide Reaches;
  }

  lemma Reached(n: nat, good: seq<int> -> bool, prefix: seq<int>, x: int) returns (f: seq<int>)
    requires Reaches(n, good, prefix, x)
    ensures |f| == n && good(prefix + [x] + f)
  {
    var longer := prefix + [x];
    f :| Completes(n, good, longer, f);
  }

  lemma Unreached(n: nat, good: seq<int> -> bool, prefix: seq<int>, x: int)
    requires !Reaches(n, good, prefix, x)
    ensures Count(n, good, prefix + [x]) == 0
  {
    hide Count;
    CountNone(n, good, prefix + [x]);
  }

  lemma CompletesIs(n: nat, good: seq<int> -> bool, prefix: seq<int>, f: seq<int>)
    ensures Completes(n, good, prefix, f) <==> |f| == n && InField(f) && good(prefix + f)
  {}

  /** If a gate fails at an index, one in P of the weight vectors hides it. */
  lemma {:induction false} WeightsHideRarely(gates: seq<Gate>, k: nat, i: nat, hides: seq<int> -> bool, prefix: seq<int>)
    requires |prefix| <= k < |gates| && AtIndex(gates[k].terms, i) % P != 0 && RestVanish(gates, k, i) && HidesAt(gates, i, hides)
    ensures Count(|gates| - |prefix|, hides, prefix) * P <= Pow(P, |gates| - |prefix|)
    decreases k - |prefix|, P + 1
  {
    hide *;
    var n := |gates| - |prefix|;
    PIsPositive();
    PowUnfold(P, n);
    CountIsBelow(n, hides, prefix);
    if |prefix| == k {
      WeightsBelow(gates, k, i, hides, prefix, P);
      TimesMonotone(Count(n, hides, prefix), Pow(P, n - 1), P);
      TimesCommute(P, Pow(P, n - 1));
    } else {
      WeightsAhead(gates, k, i, hides, prefix, P);
    }
  }

  lemma {:induction false} WeightsAhead(gates: seq<Gate>, k: nat, i: nat, hides: seq<int> -> bool, prefix: seq<int>, m: nat)
    requires |prefix| < k < |gates| && AtIndex(gates[k].terms, i) % P != 0 && RestVanish(gates, k, i) && HidesAt(gates, i, hides)
    requires m <= P
    ensures CountBelow(|gates| - |prefix|, hides, prefix, m) * P <= m * Pow(P, |gates| - |prefix| - 1)
    decreases k - |prefix|, m
  {
    hide *;
    var n := |gates| - |prefix|;
    PIsPositive();
    CountBelowUnfold(n, hides, prefix, m);
    if m > 0 {
      WeightsAhead(gates, k, i, hides, prefix, m - 1);
      WeightsHideRarely(gates, k, i, hides, prefix + [m - 1]);
      Distribute(m, Pow(P, n - 1));
      TimesSplit(CountBelow(n, hides, prefix, m - 1), Count(n - 1, hides, prefix + [m - 1]));
    } else {
      TimesZero(P);
      TimesZero(Pow(P, n - 1));
    }
  }

  lemma TimesSplit(a: int, b: int)
    ensures (a + b) * P == a * P + b * P
  {}

  // ----------------------------------------------------------- last phase: the rounds

  /** The same prover once these coins are drawn. */
  function After(strat: Strategy, prefix: seq<int>): Strategy {
    past => strat(prefix + past)
  }

  lemma {:induction false} SurvivesAfter(claim: int, cur: seq<Term>, deg: nat, strat: Strategy, prefix: seq<int>, past: seq<int>,
                                         future: seq<int>)
    requires Survives(claim, cur, deg, After(strat, prefix), past, future)
    ensures Survives(claim, cur, deg, strat, prefix + past, future)
    decreases |future|
  {
    hide Lagrange, FoldTerms, TerminalSum;
    if future != [] {
      assert prefix + (past + [future[0]]) == prefix + past + [future[0]];
      SurvivesAfter(Lagrange(strat(prefix + past), future[0]), FoldTerms(cur, future[0]), deg, strat, prefix, past + [future[0]],
                    future[1..]);
    }
  }

  /** The rounds of one sumcheck, whatever was drawn before them. */
  lemma RoundsFooledRarely(strat: Strategy, terms: seq<Term>, n: nat, deg: nat, prefix: seq<int>, good: seq<int> -> bool)
    requires Uniform(terms, Pow2(n)) && Degree(terms) <= deg && Total(terms, Pow2(n)) % P != 0
    requires forall rs :: |rs| == n && good(prefix + rs) ==> Fooled(After(strat, prefix), 0, terms, n, rs)
    ensures Count(n, good, prefix) * P <= (n * deg) * Pow(P, n)
  {
    hide Fooled, Survives, Completes, Degree, Total;
    ModSmall(0, P);
    forall future | Completes(n, good, prefix, future) ensures Survives(0, terms, Degree(terms), strat, prefix, future) {
      CompletesIs(n, good, prefix, future);
      FooledSurvives(After(strat, prefix), 0, terms, n, future);
      SurvivesAfter(0, terms, Degree(terms), strat, prefix, [], future);
      assert prefix + [] == prefix;
    }
    hide Uniform, Count, Pow;
    SurvivalBound(0, terms, n, Degree(terms), strat, prefix, good);
    PowPositive(n);
    MulMonotone(n, n, Degree(terms), deg);
    TimesMonotone(n * Degree(terms), n * deg, Pow(P, n));
  }

  // ---------------------------------------------------------------- the gate batch

  /** verify_batch on a claim of zero, its coins in place of the hash's: the gates' weights, the point
      (backwards) and the rounds' challenges, drawn in this order. */
  predicate BatchFooled(strat: Strategy, gates: seq<Gate>, n: nat, v: seq<int>) {
    var L := |gates|;
    && |v| == L + n + n
    && VerifyResult(StrategyProof(After(strat, v[..L + n]), 0, v[L + n..]),
                    BatchTerms(Eq(Reverse(v[L..L + n])), v[..L], gates, Pow2(n)), CoinOf(v[L + n..])) == Accept
  }

  lemma BatchRounds(strat: Strategy, gates: seq<Gate>, n: nat, lambdas: seq<int>, p: seq<int>, good: seq<int> -> bool)
    requires gates != [] && AllInZoo(gates, Pow2(n)) && |lambdas| == |gates| && |p| == n
    requires forall v :: good(v) <==> BatchFooled(strat, gates, n, v)
    requires Total(BatchTerms(Eq(Reverse(p)), lambdas, gates, Pow2(n)), Pow2(n)) % P != 0
    ensures Count(n, good, lambdas + p) * P <= (n * 3) * Pow(P, n)
  {
    hide *;
    var terms := BatchTerms(Eq(Reverse(p)), lambdas, gates, Pow2(n));
    A.ReverseLength(p);
    EqLength(Reverse(p));
    BatchIsUniform(Eq(Reverse(p)), lambdas, gates, Pow2(n));
    UniformSize(terms, Pow2(n));
    forall rs | |rs| == n && good(lambdas + p + rs) ensures Fooled(After(strat, lambdas + p), 0, terms, n, rs) {
      BatchFooledIs(strat, gates, n, lambdas, p, rs);
      VerifyResultIs(StrategyProof(After(strat, lambdas + p), 0, rs), terms, CoinOf(rs), Pow2(n));
      FooledIs(After(strat, lambdas + p), terms, n, rs);
    }
    RoundsFooledRarely(strat, terms, n, 3, lambdas + p, good);
  }

  lemma BatchFooledIs(strat: Strategy, gates: seq<Gate>, n: nat, lambdas: seq<int>, p: seq<int>, rs: seq<int>)
    requires |lambdas| == |gates| && |p| == n == |rs|
    ensures BatchFooled(strat, gates, n, lambdas + p + rs)
      <==> VerifyResult(StrategyProof(After(strat, lambdas + p), 0, rs), BatchTerms(Eq(Reverse(p)), lambdas, gates, Pow2(n)),
                        CoinOf(rs)) == Accept
  {
    hide VerifyResult, StrategyProof, BatchTerms, Eq, Reverse, CoinOf, After;
    BatchCoinsCut(lambdas, p, rs);
  }

  lemma BatchCoinsCut(lambdas: seq<int>, p: seq<int>, rs: seq<int>)
    ensures var v, L, n := lambdas + p + rs, |lambdas|, |p|;
      v[..L + n] == lambdas + p && v[L + n..] == rs && v[L..L + n] == p && v[..L] == lambdas
  {}

  lemma FooledIs(strat: Strategy, terms: seq<Term>, n: nat, rs: seq<int>)
    ensures Fooled(strat, 0, terms, n, rs) <==> VerifySized(StrategyProof(strat, 0, rs), terms, Pow2(n), CoinOf(rs)) == Accept
  {}

  /** The point at which the combination's extension vanishes, once the weights are drawn. */
  predicate BatchZero(gates: seq<Gate>, n: nat, v: seq<int>) {
    var L := |gates|;
    |v| == L + n && Total(BatchTerms(Eq(Reverse(v[L..])), v[..L], gates, Pow2(n)), Pow2(n)) % P == 0
  }

  lemma BatchPoint(gates: seq<Gate>, n: nat, lambdas: seq<int>, i: nat, zero: seq<int> -> bool)
    requires |lambdas| == |gates| && i < Pow2(n) && BatchAt(lambdas, gates, i) % P != 0
    requires forall v :: zero(v) <==> BatchZero(gates, n, v)
    ensures Count(n, zero, lambdas) * P <= n * Pow(P, n)
  {
    hide BatchTerms, BatchAt, Eq, Mle, Total, Reverse, Pow2;
    var r := Residuals(lambdas, gates, Pow2(n));
    assert r[i] % P != 0;
    forall p | |p| == n && zero(lambdas + p) ensures Mle(r, p) == 0 {
      assert (lambdas + p)[|gates|..] == p && (lambdas + p)[..|gates|] == lambdas;
      ReverseTwice(p);
      A.ReverseLength(p);
      ClaimIsExtension(Reverse(p), lambdas, gates);
    }
    ZeroPointsAreFew(r, n, zero, lambdas);
  }

  lemma AfterWeights(strat: Strategy, gates: seq<Gate>, n: nat, lambdas: seq<int>, i: nat, good: seq<int> -> bool)
    requires gates != [] && AllInZoo(gates, Pow2(n)) && |lambdas| == |gates| && i < Pow2(n)
    requires BatchAt(lambdas, gates, i) % P != 0 && forall v :: good(v) <==> BatchFooled(strat, gates, n, v)
    ensures Count(n + n, good, lambdas) * P <= (n + n * 3) * Pow(P, n + n)
  {
    hide *;
    var zero := (v: seq<int>) => BatchZero(gates, n, v);
    BatchPoint(gates, n, lambdas, i, zero);
    forall p | |p| == n && InField(p) && !zero(lambdas + p) ensures Count(n, good, lambdas + p) * P <= (n * 3) * Pow(P, n) {
      NotZero(gates, n, lambdas, p);
      BatchRounds(strat, gates, n, lambdas, p, good);
    }
    FewAfterIs(n, n, good, lambdas, zero, n * 3);
    TwoPhases(n, n, good, lambdas, zero, n, n * 3);
  }

  /** Soundness of the batched gates: if any gate fails at any index then, of all choices of weights,
      point and challenges, at most 1 + n + 3n in P let a proof through, whatever the prover's strategy. */
  lemma BatchSoundness(strat: Strategy, gates: seq<Gate>, n: nat, k: nat, i: nat)
    requires AllInZoo(gates, Pow2(n)) && k < |gates| && i < Pow2(n) && AtIndex(gates[k].terms, i) % P != 0
    ensures Count(|gates| + (n + n), v => BatchFooled(strat, gates, n, v), []) * P
            <= (1 + (n + n * 3)) * Pow(P, |gates| + (n + n))
  {
    hide *;
    BatchCount(strat, gates, n, k, i, v => BatchFooled(strat, gates, n, v));
  }

  lemma BatchCount(strat: Strategy, gates: seq<Gate>, n: nat, k: nat, i: nat, good: seq<int> -> bool)
    requires AllInZoo(gates, Pow2(n)) && k < |gates| && i < Pow2(n) && AtIndex(gates[k].terms, i) % P != 0
    requires forall v :: good(v) <==> BatchFooled(strat, gates, n, v)
    ensures Count(|gates| + (n + n), good, []) * P <= (1 + (n + n * 3)) * Pow(P, |gates| + (n + n))
  {
    hide *;
    PIsPositive();
    var hides := (v: seq<int>) => BatchAt(v, gates, i) % P == 0;
    var last := LastFailing(gates, k, i);
    HidesAtIs(gates, i, hides);
    WeightsHideRarely(gates, last, i, hides, []);
    forall lambdas | |lambdas| == |gates| && InField(lambdas) && !hides([] + lambdas)
      ensures Count(n + n, good, [] + lambdas) * P <= (n + n * 3) * Pow(P, n + n)
    {
      assert [] + lambdas == lambdas;
      AfterWeights(strat, gates, n, lambdas, i, good);
    }
    FewAfterIs(|gates|, n + n, good, [], hides, n + n * 3);
    TwoPhases(|gates|, n + n, good, [], hides, 1, n + n * 3);
  }

  lemma HidesAtIs(gates: seq<Gate>, i: nat, hides: seq<int> -> bool)
    requires forall v :: hides(v) <==> BatchAt(v, gates, i) % P == 0
    ensures HidesAt(gates, i, hides)
  {
    hide BatchAt;
  }

  lemma NotZero(gates: seq<Gate>, n: nat, lambdas: seq<int>, p: seq<int>)
    requires |lambdas| == |gates| && |p| == n && !BatchZero(gates, n, lambdas + p)
    ensures Total(BatchTerms(Eq(Reverse(p)), lambdas, gates, Pow2(n)), Pow2(n)) % P != 0
  {
    hide Total, BatchTerms, Eq, Reverse;
    assert (lambdas + p)[|gates|..] == p && (lambdas + p)[..|gates|] == lambdas;
  }

  lemma FewAfterIs(a: nat, b: nat, good: seq<int> -> bool, prefix: seq<int>, bad: seq<int> -> bool, B: nat)
    requires forall x :: |x| == a && InField(x) && !bad(prefix + x) ==> Count(b, good, prefix + x) * P <= B * Pow(P, b)
    ensures FewAfter(a, b, good, prefix, bad, B)
  {}

  // ------------------------------------------------------------ the relation check

  /** The audit's verifier on a relation block, its coins in place of the hash's: the point (backwards)
      and the rounds' challenges. */
  predicate RelationFooled(strat: Strategy, terms: seq<A.RelTerm>, wires: A.Wires, n: nat, v: seq<int>) {
    && |v| == n + n
    && VerifyResult(StrategyProof(After(strat, v[..n]), 0, v[n..]), A.Weighted(terms, wires, Eq(Reverse(v[..n]))), CoinOf(v[n..]))
       == Accept
  }

  ghost predicate RolesWithin(terms: seq<A.RelTerm>, deg: nat) {
    forall k :: 0 <= k < |terms| ==> |terms[k].roles| + 1 <= deg
  }

  lemma {:induction false} WithinDegree(terms: seq<A.RelTerm>, wires: A.Wires, e: seq<int>, deg: nat)
    requires RolesWithin(terms, deg)
    ensures Degree(A.Weighted(terms, wires, e)) <= deg
  {
    if terms != [] {
      WithinDegree(terms[1..], wires, e, deg);
      assert A.Weighted(terms, wires, e)[1..] == A.Weighted(terms[1..], wires, e);
      assert |terms[0].roles| + 1 <= deg;
    }
  }

  lemma RelationRounds(strat: Strategy, terms: seq<A.RelTerm>, wires: A.Wires, n: nat, deg: nat, p: seq<int>, good: seq<int> -> bool)
    requires A.RelationShaped(terms, wires, n) && RolesWithin(terms, deg) && |p| == n
    requires forall v :: good(v) <==> RelationFooled(strat, terms, wires, n, v)
    requires Total(A.Weighted(terms, wires, Eq(Reverse(p))), Pow2(n)) % P != 0
    ensures Count(n, good, p) * P <= (n * deg) * Pow(P, n)
  {
    var ts := A.Weighted(terms, wires, Eq(Reverse(p)));
    forall rs | |rs| == n && good(p + rs) ensures VerifyResult(StrategyProof(After(strat, p), 0, rs), ts, CoinOf(rs)) == Accept {
      assert (p + rs)[..n] == p && (p + rs)[n..] == rs;
    }
    hide *;
    A.ReverseLength(p);
    A.WeightedUniform(terms, wires, Reverse(p));
    WithinDegree(terms, wires, Eq(Reverse(p)), deg);
    forall rs | |rs| == n && good(p + rs) ensures Fooled(After(strat, p), 0, ts, n, rs) {
      A.SizedVerdict(StrategyProof(After(strat, p), 0, rs), ts, n, CoinOf(rs));
      FooledIs(After(strat, p), ts, n, rs);
    }
    RoundsFooledRarely(strat, ts, n, deg, p, good);
  }

  predicate RelationZero(terms: seq<A.RelTerm>, wires: A.Wires, n: nat, p: seq<int>) {
    |p| == n && Total(A.Weighted(terms, wires, Eq(Reverse(p))), Pow2(n)) % P == 0
  }

  /** Soundness of a relation block: wrong at any coordinate, it passes for at most n + n * deg in P of
      all points and challenges, whatever the prover's strategy. */
  lemma RelationSoundness(strat: Strategy, terms: seq<A.RelTerm>, wires: A.Wires, n: nat, deg: nat)
    requires A.RelationShaped(terms, wires, n) && RolesWithin(terms, deg) && !AllZero(A.Residual(terms, wires, Pow2(n)))
    ensures Count(n + n, v => RelationFooled(strat, terms, wires, n, v), []) * P <= (n + n * deg) * Pow(P, n + n)
  {
    hide *;
    RelationCount(strat, terms, wires, n, deg, v => RelationFooled(strat, terms, wires, n, v));
  }

  lemma RelationCount(strat: Strategy, terms: seq<A.RelTerm>, wires: A.Wires, n: nat, deg: nat, good: seq<int> -> bool)
    requires A.RelationShaped(terms, wires, n) && RolesWithin(terms, deg) && !AllZero(A.Residual(terms, wires, Pow2(n)))
    requires forall v :: good(v) <==> RelationFooled(strat, terms, wires, n, v)
    ensures Count(n + n, good, []) * P <= (n + n * deg) * Pow(P, n + n)
  {
    hide *;
    var zero := (p: seq<int>) => RelationZero(terms, wires, n, p);
    ZeroIs(terms, wires, n, zero);
    A.WrongRelationRarelyZero(terms, wires, n, zero);
    forall p | |p| == n && InField(p) && !zero([] + p) ensures Count(n, good, [] + p) * P <= (n * deg) * Pow(P, n) {
      assert [] + p == p;
      RelationRounds(strat, terms, wires, n, deg, p, good);
    }
    FewAfterIs(n, n, good, [], zero, n * deg);
    TwoPhases(n, n, good, [], zero, n, n * deg);
  }

  lemma ZeroIs(terms: seq<A.RelTerm>, wires: A.Wires, n: nat, zero: seq<int> -> bool)
    requires forall p :: zero(p) <==> RelationZero(terms, wires, n, p)
    ensures forall p :: |p| == n ==> (zero(p) <==> Total(A.Weighted(terms, wires, Eq(Reverse(p))), Pow2(n)) % P == 0)
  {
    hide Total, A.Weighted, Eq, Pow2;
  }
}
