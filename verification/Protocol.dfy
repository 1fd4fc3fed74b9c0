/** The sumcheck protocol of sumcheck.py on values: what the prover sends and the
    verifier accepts, round by round, and completeness with and without masks. */
module Protocol {
  import opened NumberTheory
  import opened Field
  import opened Polynomial
  import opened Interpolation
  import opened Sumcheck

  datatype SumcheckProof = SumcheckProof(
    claim: int, roundPolys: seq<seq<Sample>>, challenges: seq<int>, finalPoint: seq<int>,
    masked: bool, finalMask: int)

  datatype Verdict = Accept | Reject | Raise

  /** A coin may depend on every polynomial sent so far, the present round's included. */
  type CoinFn = seq<seq<Sample>> -> int

  // ----------------------------------------------------------------- the masks

  function Sum(s: seq<int>): int {
    if s == [] then 0 else s[0] + Sum(s[1..])
  }

  function Reduced(s: seq<int>): (r: seq<int>)
    ensures |r| == |s| && forall i :: 0 <= i < |s| ==> r[i] == s[i] % P
  {
    seq(|s|, i requires 0 <= i < |s| => s[i] % P)
  }

  /** Ascending coefficients of h with h(0) + h(1) = mu. */
  function MaskPoly(mu: int, u: seq<int>): (h: seq<int>)
    ensures |h| == |u| + 1
  {
    [((mu - Sum(u)) % P * Inv(2)) % P] + Reduced(u)
  }

  lemma {:induction false} SumReduced(u: seq<int>)
    ensures Sum(Reduced(u)) % P == Sum(u) % P
  {
    if u != [] {
      SumReduced(u[1..]);
      assert Reduced(u)[1..] == Reduced(u[1..]);
      ModMod(u[0], P);
      ModAdd(u[0] % P, u[0], Sum(Reduced(u[1..])), Sum(u[1..]), P);
    }
  }

  lemma {:induction false} EvalAtOne(c: seq<int>)
    ensures Eval(c, 1) == Sum(c)
  {
    if c != [] { EvalAtOne(c[1..]); }
  }

  lemma HalfTwice(x: int)
    ensures (2 * ((x % P * Inv(2)) % P)) % P == x % P
  {
    ModSmall(2, P);
    hide *;
    InvCorrect(2);
    var i := Inv(2);
    ModMod(x, P);
    ModMod(x % P * i, P);
    ModMul(2, 2, (x % P * i) % P, x % P * i, P);
    OneTimes(P, 2 * i, x % P);
    TwiceRegroup(x % P, i);
  }

  lemma TwiceRegroup(x: int, i: int)
    ensures 2 * (x * i) == (2 * i) * x
  {}

  /** The mask polynomial splits the carried mask between 0 and 1. */
  lemma MaskPolySplits(mu: int, u: seq<int>)
    ensures (Eval(MaskPoly(mu, u), 0) + Eval(MaskPoly(mu, u), 1)) % P == mu % P
  {
    var h := MaskPoly(mu, u);
    var s := Sum(u);
    EvalAtOne(h);
    assert h[1..] == Reduced(u);
    SumReduced(u);
    HalfTwice(mu - s);
    ModAdd(2 * h[0], mu - s, Sum(Reduced(u)), s, P);
  }

  // ------------------------------------------------------------------ the prover

  /** One round's message: the honest samples at 0..deg plus the mask polynomial h
      (empty when the proof is not masked). */
  function SentPoly(cur: seq<Term>, half: nat, deg: nat, h: seq<int>): (s: seq<Sample>)
    ensures |s| == deg + 1
    ensures forall x :: 0 <= x <= deg ==>
      s[x] == (x, (RoundSum(cur, half, x) % P + Eval(h, x) % P) % P)
  {
    seq(deg + 1, x requires 0 <= x => (x, (RoundSum(cur, half, x) % P + Eval(h, x) % P) % P))
  }

  datatype Rounds = Rounds(polys: seq<seq<Sample>>, challenges: seq<int>, mask: int)

  /** rows[k] holds the tape values of the k-th remaining round. */
  function ProveRounds(cur: seq<Term>, n: nat, deg: nat, coin: CoinFn, sent: seq<seq<Sample>>,
                       masked: bool, rows: seq<seq<int>>, mu: int): (r: Rounds)
    requires masked ==> |rows| == n
    ensures |r.polys| == n && |r.challenges| == n
    decreases n
  {
    if n == 0 then Rounds([], [], mu)
    else
      var h := if masked then MaskPoly(mu, rows[0]) else [];
      var poly := SentPoly(cur, Pow2(n - 1), deg, h);
      var r := coin(sent + [poly]) % P;
      var rest := ProveRounds(FoldTerms(cur, r), n - 1, deg, coin, sent + [poly], masked,
                              if masked then rows[1..] else rows,
                              if masked then Eval(h, r) % P else mu);
      Rounds([poly] + rest.polys, [r] + rest.challenges, rest.mask)
  }

  function ReduceCoeffs(terms: seq<Term>): (us: seq<Term>)
    ensures |us| == |terms|
    ensures forall k :: 0 <= k < |terms| ==> us[k] == Term(terms[k].coeff % P, terms[k].factors)
  {
    seq(|terms|, k requires 0 <= k < |terms| => Term(terms[k].coeff % P, terms[k].factors))
  }

  function Prove(terms: seq<Term>, n: nat, coin: CoinFn, masked: bool, rows: seq<seq<int>>, mu0: int)
    : SumcheckProof
    requires masked ==> |rows| == n
  {
    var cur := ReduceCoeffs(terms);
    var mu := mu0 % P;
    var r := ProveRounds(cur, n, Degree(terms), coin, [], masked, rows, mu);
    SumcheckProof((Total(cur, Pow2(n)) % P + mu) % P, r.polys, r.challenges, r.challenges, masked, r.mask)
  }

  // ---------------------------------------------------------------- the verifier

  datatype Chain = Broken | Ends(claim: int)

  function VerifyRounds(claim: int, polys: seq<seq<Sample>>, challenges: seq<int>, deg: nat,
                        coin: CoinFn, sent: seq<seq<Sample>>): Chain
    requires |polys| == |challenges|
    decreases |polys|
  {
    if polys == [] then Ends(claim)
    else
      var s := polys[0];
      if |s| != deg + 1 then Broken
      else if (Lagrange(s, 0) + Lagrange(s, 1)) % P != claim then Broken
      else
        var r := coin(sent + [s]) % P;
        if r != challenges[0] then Broken
        else VerifyRounds(Lagrange(s, r), polys[1..], challenges[1..], deg, coin, sent + [s])
  }

  /** bit_length - 1 */
  function Log2(size: nat): nat {
    if size <= 1 then 0 else 1 + Log2(size / 2)
  }

  lemma {:induction false} Log2OfPow2(n: nat)
    ensures Log2(Pow2(n)) == n
  {
    if n > 0 { Log2OfPow2(n - 1); }
  }

  predicate HasFactor(terms: seq<Term>) {
    exists k :: 0 <= k < |terms| && terms[k].factors != []
  }

  /** Every factor has the same length, and there is one to have it. */
  predicate Uniform(terms: seq<Term>, size: nat) {
    Sized(terms, size) && HasFactor(terms)
  }

  function Terminal(terms: seq<Term>, point: seq<int>): int {
    TerminalSum(terms, point) % P
  }

  /** verify_terms once the factors are known to have one common size. */
  function VerifySized(proof: SumcheckProof, terms: seq<Term>, size: nat, coin: CoinFn): Verdict {
    var n := Log2(size);
    if size == 0 || size != Pow2(n) then Raise
    else if |proof.roundPolys| != n || |proof.challenges| != n || |proof.finalPoint| != n then Reject
    else
      match VerifyRounds(proof.claim % P, proof.roundPolys, proof.challenges, Degree(terms), coin, [])
      case Broken => Reject
      case Ends(claim) =>
        if proof.finalPoint != proof.challenges then Reject
        else
          var t := Terminal(terms, proof.finalPoint);
          if claim == (if proof.masked then (t + proof.finalMask) % P else t) then Accept else Reject
  }

  // ---------------------------------------------------------------- completeness

  lemma {:induction false} ReduceCoeffsFacts(terms: seq<Term>, m: nat, point: seq<int>)
    ensures Total(ReduceCoeffs(terms), m) % P == Total(terms, m) % P
    ensures Degree(ReduceCoeffs(terms)) == Degree(terms)
    ensures TerminalSum(ReduceCoeffs(terms), point) % P == TerminalSum(terms, point) % P
  {
    if terms != [] {
      var t, u := terms[0], ReduceCoeffs(terms)[0];
      ReduceCoeffsFacts(terms[1..], m, point);
      assert ReduceCoeffs(terms)[1..] == ReduceCoeffs(terms[1..]);
      ReduceTermSum(t, u, m);
      ModMod(t.coeff, P);
      ModMul(u.coeff, t.coeff, ProdMle(t.factors, point), ProdMle(t.factors, point), P);
      ModAdd(TermSum(u, m), TermSum(t, m),
             Total(ReduceCoeffs(terms[1..]), m), Total(terms[1..], m), P);
      ModAdd(u.coeff * ProdMle(t.factors, point), t.coeff * ProdMle(t.factors, point),
             TerminalSum(ReduceCoeffs(terms[1..]), point), TerminalSum(terms[1..], point), P);
    }
  }

  lemma {:induction false} ReduceTermSum(t: Term, u: Term, m: nat)
    requires u == Term(t.coeff % P, t.factors)
    ensures TermSum(u, m) % P == TermSum(t, m) % P
  {
    if m > 0 {
      var q := ProdAt(t.factors, m - 1);
      ReduceTermSum(t, u, m - 1);
      ModMod(t.coeff, P);
      ModMul(u.coeff, t.coeff, q, q, P);
      ModAdd(TermSum(u, m - 1), TermSum(t, m - 1), u.coeff * q, t.coeff * q, P);
    }
  }

  /** What one message interpolates to: the honest polynomial plus the mask. */
  lemma SentPolyRecovers(cur: seq<Term>, half: nat, deg: nat, h: seq<int>)
    requires Degree(cur) <= deg < P && |h| <= deg + 1
    ensures forall x :: Lagrange(SentPoly(cur, half, deg, h), x)
                        == (RoundSum(cur, half, x) + Eval(h, x)) % P
  {
    var s, g := SentPoly(cur, half, deg, h), RoundPoly(cur, half);
    var c := Add(g, h);
    forall x ensures Eval(c, x) == RoundSum(cur, half, x) + Eval(h, x) {
      EvalAdd(g, h, x);
      RoundPolyEval(cur, half, x);
    }
    forall i | 0 <= i < |s| ensures s[i].1 % P == Eval(c, s[i].0) % P {
      ModMod(RoundSum(cur, half, i), P);
      ModMod(Eval(h, i), P);
      ModAdd(RoundSum(cur, half, i) % P, RoundSum(cur, half, i), Eval(h, i) % P, Eval(h, i), P);
      ModMod(RoundSum(cur, half, i) % P + Eval(h, i) % P, P);
    }
    InterpolationRecovers(s, c);
  }

  /** The round check, and the claim handed to the next round. */
  lemma RoundAdvances(cur: seq<Term>, n: nat, deg: nat, h: seq<int>, mu: int, r: int)
    requires Sized(cur, Pow2(n + 1)) && Degree(cur) <= deg < P && |h| <= deg + 1
    requires (Eval(h, 0) + Eval(h, 1)) % P == mu % P
    ensures var s := SentPoly(cur, Pow2(n), deg, h);
            && (Lagrange(s, 0) + Lagrange(s, 1)) % P == (Total(cur, Pow2(n + 1)) + mu) % P
            && Lagrange(s, r) == (Total(FoldTerms(cur, r), Pow2(n)) + Eval(h, r)) % P
  {
    hide *;
    var half := Pow2(n);
    Pow2Unfold(n + 1);
    SentPolyRecovers(cur, half, deg, h);
    RoundSumSplits(cur, half);
    FoldTotal(cur, half, r);
    AddFour(RoundSum(cur, half, 0), Eval(h, 0), RoundSum(cur, half, 1), Eval(h, 1), mu);
    PIsPositive();
    ModAdd(Total(FoldTerms(cur, r), half), RoundSum(cur, half, r), Eval(h, r), Eval(h, r), P);
  }

  lemma AddFour(a: int, b: int, c: int, d: int, mu: int)
    requires (b + d) % P == mu % P
    ensures ((a + b) % P + (c + d) % P) % P == (a + c + mu) % P
  {
    ModMod(a + b, P);
    ModMod(c + d, P);
    ModAdd((a + b) % P, a + b, (c + d) % P, c + d, P);
    ModAdd(a + c, a + c, b + d, mu, P);
  }

  ghost predicate RowsFit(masked: bool, rows: seq<seq<int>>, n: nat, deg: nat) {
    masked ==> |rows| == n && forall k :: 0 <= k < n ==> |rows[k]| == deg
  }

  function RoundMask(masked: bool, rows: seq<seq<int>>, mu: int): seq<int>
    requires masked ==> rows != []
  {
    if masked then MaskPoly(mu, rows[0]) else []
  }

  lemma ProveUnfold(cur: seq<Term>, n: nat, deg: nat, coin: CoinFn, sent: seq<seq<Sample>>,
                    masked: bool, rows: seq<seq<int>>, mu: int)
    returns (h: seq<int>, poly: seq<Sample>, r: int, rest: Rounds)
    requires n > 0 && (masked ==> |rows| == n)
    ensures h == RoundMask(masked, rows, mu) && poly == SentPoly(cur, Pow2(n - 1), deg, h)
    ensures |h| == (if masked then |rows[0]| + 1 else 0) && (!masked ==> Eval(h, r) == 0)
    ensures r == coin(sent + [poly]) % P
    ensures rest == ProveRounds(FoldTerms(cur, r), n - 1, deg, coin, sent + [poly], masked,
                      if masked then rows[1..] else rows, if masked then Eval(h, r) % P else mu)
    ensures ProveRounds(cur, n, deg, coin, sent, masked, rows, mu)
            == Rounds([poly] + rest.polys, [r] + rest.challenges, rest.mask)
  {
    h := if masked then MaskPoly(mu, rows[0]) else [];
    poly := SentPoly(cur, Pow2(n - 1), deg, h);
    r := coin(sent + [poly]) % P;
    rest := ProveRounds(FoldTerms(cur, r), n - 1, deg, coin, sent + [poly], masked,
                      if masked then rows[1..] else rows, if masked then Eval(h, r) % P else mu);
  }

  lemma VerifyCons(claim: int, s: seq<Sample>, r: int, polys: seq<seq<Sample>>, challenges: seq<int>,
                   deg: nat, coin: CoinFn, sent: seq<seq<Sample>>)
    requires |polys| == |challenges|
    ensures VerifyRounds(claim, [s] + polys, [r] + challenges, deg, coin, sent)
            == if |s| == deg + 1 && (Lagrange(s, 0) + Lagrange(s, 1)) % P == claim
                  && r == coin(sent + [s]) % P
               then VerifyRounds(Lagrange(s, r), polys, challenges, deg, coin, sent + [s])
               else Broken
  {
    assert ([s] + polys)[1..] == polys && ([r] + challenges)[1..] == challenges;
  }

  lemma RoundMaskSplits(masked: bool, rows: seq<seq<int>>, mu: int)
    requires masked ==> rows != []
    ensures var h := RoundMask(masked, rows, mu);
            (Eval(h, 0) + Eval(h, 1)) % P == (if masked then mu else 0) % P
  {
    if masked { MaskPolySplits(mu, rows[0]); }
  }

  lemma CarryMask(total: int, masked: bool, e: int)
    requires !masked ==> e == 0
    ensures (total + e) % P == (total + if masked then e % P else 0) % P
  {
    ModMod(e, P);
    ModAdd(total, total, e, e % P, P);
  }

  /** The verifier's chain on the prover's rounds: it holds together from the true
      claim plus the mask, and ends at the terminal plus the last mask. */
  lemma {:induction false} RoundsComplete(cur: seq<Term>, n: nat, deg: nat, coin: CoinFn,
      sent: seq<seq<Sample>>, masked: bool, rows: seq<seq<int>>, mu: int, claim: int)
    requires Sized(cur, Pow2(n)) && Degree(cur) <= deg < P && RowsFit(masked, rows, n, deg)
    requires claim == (Total(cur, Pow2(n)) + if masked then mu else 0) % P
    ensures var r := ProveRounds(cur, n, deg, coin, sent, masked, rows, mu);
            VerifyRounds(claim, r.polys, r.challenges, deg, coin, sent)
            == Ends((TerminalSum(cur, r.challenges) + if masked then r.mask else 0) % P)
    decreases n
  {
    hide *;
    PIsPositive();
    RowsFitTail(masked, rows, n, deg);
    if n == 0 {
      RoundsCompleteBase(cur, deg, coin, sent, masked, rows, mu, claim);
    } else {
      var h, poly, r, rest := ProveUnfold(cur, n, deg, coin, sent, masked, rows, mu);
      RoundMaskSplits(masked, rows, mu);
      RoundAdvances(cur, n - 1, deg, h, if masked then mu else 0, r);
      FoldSized(cur, n - 1, r);
      FoldDegree(cur, r);
      CarryMask(Total(FoldTerms(cur, r), Pow2(n - 1)), masked, Eval(h, r));
      RoundsComplete(FoldTerms(cur, r), n - 1, deg, coin, sent + [poly], masked,
                     if masked then rows[1..] else rows, if masked then Eval(h, r) % P else mu,
                     Lagrange(poly, r));
      VerifyCons(claim, poly, r, rest.polys, rest.challenges, deg, coin, sent);
      assert ([r] + rest.challenges)[1..] == rest.challenges;
      TerminalFold(cur, [r] + rest.challenges);
    }
  }

  lemma RowsFitTail(masked: bool, rows: seq<seq<int>>, n: nat, deg: nat)
    requires RowsFit(masked, rows, n, deg)
    ensures masked ==> |rows| == n
    ensures n > 0 && masked ==> |rows[0]| == deg
    ensures n > 0 ==> RowsFit(masked, if masked then rows[1..] else rows, n - 1, deg)
  {}

  lemma RoundsCompleteBase(cur: seq<Term>, deg: nat, coin: CoinFn, sent: seq<seq<Sample>>,
                           masked: bool, rows: seq<seq<int>>, mu: int, claim: int)
    requires RowsFit(masked, rows, 0, deg)
    requires claim == (Total(cur, Pow2(0)) + if masked then mu else 0) % P
    ensures var r := ProveRounds(cur, 0, deg, coin, sent, masked, rows, mu);
            VerifyRounds(claim, r.polys, r.challenges, deg, coin, sent)
            == Ends((TerminalSum(cur, r.challenges) + if masked then r.mask else 0) % P)
  {
    var m := if masked then mu else 0;
    TerminalVertex(cur);
    ModAdd(Total(cur, 1), TerminalSum(cur, []), m, m, P);
  }

  /** Completeness, exactly: the honest proof is accepted when it is masked, and when it
      is not, if and only if no mask was carried into it. */
  lemma Completeness(terms: seq<Term>, n: nat, coin: CoinFn, masked: bool, rows: seq<seq<int>>, mu0: int)
    requires Uniform(terms, Pow2(n)) && Degree(terms) < P && RowsFit(masked, rows, n, Degree(terms))
    ensures VerifySized(Prove(terms, n, coin, masked, rows, mu0), terms, Pow2(n), coin)
            == if masked || mu0 % P == 0 then Accept else Reject
  {
    hide *;
    PIsPositive();
    var cur, deg, mu := ReduceCoeffs(terms), Degree(terms), mu0 % P;
    UniformSized(terms, Pow2(n));
    Log2OfPow2(n);
    VerifyOfProve(terms, n, coin, masked, rows, mu0);
    var proof := Prove(terms, n, coin, masked, rows, mu0);
    ReduceSized(terms, Pow2(n));
    ReduceCoeffsFacts(terms, Pow2(n), proof.challenges);
    ClaimForm(Total(cur, Pow2(n)), mu0);
    if masked || mu == 0 {
      var m := if masked then proof.finalMask else 0;
      assert proof.claim % P == (Total(cur, Pow2(n)) + if masked then mu else 0) % P;
      RoundsComplete(cur, n, deg, coin, [], masked, rows, mu, proof.claim % P);
      TerminalForm(terms, proof.challenges, m);
      ModAdd(TerminalSum(cur, proof.challenges), TerminalSum(terms, proof.challenges), m, m, P);
    } else {
      WrongClaimBreaks(cur, n, deg, coin, rows, mu, proof.claim % P);
      VertexTotal(terms);
      assert n == 0 ==> proof.challenges == [];
    }
  }

  lemma UniformSized(terms: seq<Term>, size: nat)
    requires Uniform(terms, size)
    ensures Sized(terms, size)
  {}

  lemma VertexTotal(terms: seq<Term>)
    ensures TerminalSum(terms, []) % P == Total(terms, Pow2(0)) % P
  {
    TerminalVertex(terms);
  }

  lemma TerminalForm(terms: seq<Term>, point: seq<int>, m: int)
    ensures (TerminalSum(terms, point) % P + m) % P == (TerminalSum(terms, point) + m) % P
    ensures (TerminalSum(terms, point) % P + 0) % P == TerminalSum(terms, point) % P
  {
    ModMod(TerminalSum(terms, point), P);
    ModAdd(TerminalSum(terms, point) % P, TerminalSum(terms, point), m, m, P);
  }

  lemma VerifyOfProve(terms: seq<Term>, n: nat, coin: CoinFn, masked: bool, rows: seq<seq<int>>, mu0: int)
    requires Log2(Pow2(n)) == n && RowsFit(masked, rows, n, Degree(terms))
    ensures masked ==> |rows| == n
    ensures var cur, mu := ReduceCoeffs(terms), mu0 % P;
            var run := ProveRounds(cur, n, Degree(terms), coin, [], masked, rows, mu);
            var proof := Prove(terms, n, coin, masked, rows, mu0);
            && proof == SumcheckProof((Total(cur, Pow2(n)) % P + mu) % P, run.polys, run.challenges,
                                      run.challenges, masked, run.mask)
            && |run.challenges| == n
            && VerifySized(proof, terms, Pow2(n), coin)
               == match VerifyRounds(proof.claim % P, run.polys, run.challenges, Degree(terms), coin, [])
                  case Broken => Reject
                  case Ends(claim) =>
                    if claim == (if masked then (TerminalSum(terms, run.challenges) % P + run.mask) % P
                                 else TerminalSum(terms, run.challenges) % P)
                    then Accept else Reject
  {
    hide Total, ProveRounds, VerifyRounds, TerminalSum, Degree, ReduceCoeffs, Pow2, Log2;
    Pow2Nonzero(n);
  }

  lemma Pow2Nonzero(n: nat)
    ensures Pow2(n) != 0
  {}

  /** An honest run from any other claim fails at its first round check. */
  lemma WrongClaimBreaks(cur: seq<Term>, n: nat, deg: nat, coin: CoinFn, rows: seq<seq<int>>,
                         mu: int, claim: int)
    requires Sized(cur, Pow2(n)) && Degree(cur) <= deg < P && claim != Total(cur, Pow2(n)) % P
    ensures var r := ProveRounds(cur, n, deg, coin, [], false, rows, mu);
            VerifyRounds(claim, r.polys, r.challenges, deg, coin, [])
            == if n == 0 then Ends(claim) else Broken
  {
    hide *;
    PIsPositive();
    if n == 0 {
      NoRounds(claim, cur, deg, coin, rows, mu);
    } else {
      var h, poly, r, rest := ProveUnfold(cur, n, deg, coin, [], false, rows, mu);
      RoundMaskSplits(false, rows, mu);
      RoundAdvances(cur, n - 1, deg, h, 0, r);
      VerifyCons(claim, poly, r, rest.polys, rest.challenges, deg, coin, []);
    }
  }

  lemma NoRounds(claim: int, cur: seq<Term>, deg: nat, coin: CoinFn, rows: seq<seq<int>>, mu: int)
    ensures ProveRounds(cur, 0, deg, coin, [], false, rows, mu) == Rounds([], [], mu)
    ensures VerifyRounds(claim, [], [], deg, coin, []) == Ends(claim)
  {}

  lemma ReduceSized(terms: seq<Term>, size: nat)
    requires Sized(terms, size)
    ensures Sized(ReduceCoeffs(terms), size)
  {
    forall k | 0 <= k < |terms| ensures FactorsSized(ReduceCoeffs(terms)[k].factors, size) {
      assert FactorsSized(terms[k].factors, size);
    }
  }

  lemma ClaimForm(total: int, mu0: int)
    ensures ((total % P + mu0 % P) % P) % P == (total % P + mu0 % P) % P
    ensures (total % P + mu0 % P) % P == (total + mu0 % P) % P
    ensures (total + 0) % P == total % P
    ensures (total + mu0 % P) % P == total % P <==> mu0 % P == 0
  {
    ModMod(total, P);
    ModAdd(total % P, total, mu0 % P, mu0 % P, P);
    ModMod(total % P + mu0 % P, P);
    if (total + mu0 % P) % P == total % P {
      ModSub(total + mu0 % P, total, total, total, P);
    }
  }
}
