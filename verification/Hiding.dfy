/** Hiding of the masked sumcheck. */
module Hiding {
  // For two statements of one shape whose masked claims agree, the tapes of the first correspond one to
  // one with the tapes of the second so that every round sends the same polynomial, whatever the coins
  // do with it.

  import opened NumberTheory
  import opened Field
  import opened Polynomial
  import opened Interpolation
  import opened Sumcheck
  import opened Protocol

  predicate InFieldRow(u: seq<int>) {
    forall i :: 0 <= i < |u| ==> 0 <= u[i] < P
  }

  predicate InFieldRows(rows: seq<seq<int>>) {
    forall k :: 0 <= k < |rows| ==> InFieldRow(rows[k])
  }

  lemma ReducedInField(u: seq<int>)
    ensures InFieldRow(u) ==> Reduced(u) == u
    ensures InFieldRow(Reduced(u))
  {
    if InFieldRow(u) {
      forall i | 0 <= i < |u| ensures Reduced(u)[i] == u[i] { ModSmall(u[i], P); }
    }
  }

  // ------------------------------------------------------------ one polynomial

  /** A polynomial splits mu between 0 and 1 only in one way once its higher
      coefficients are fixed. */
  lemma ConstantDetermined(c: seq<int>, d: seq<int>, mu: int)
    requires |c| == |d| > 0 && (forall i :: 1 <= i < |c| ==> c[i] % P == d[i] % P)
    requires (Eval(c, 0) + Eval(c, 1)) % P == mu % P == (Eval(d, 0) + Eval(d, 1)) % P
    ensures SamePoly(c, d)
  {
    EvalAtOne(c);
    EvalAtOne(d);
    forall i | 0 <= i < |c| - 1 ensures c[1..][i] % P == d[1..][i] % P {
      assert c[1..][i] == c[i + 1] && d[1..][i] == d[i + 1];
    }
    SumCongruent(c[1..], d[1..]);
    ModSub(2 * c[0] + Sum(c[1..]), 2 * d[0] + Sum(d[1..]), Sum(c[1..]), Sum(d[1..]), P);
    GoldilocksIsPrime();
    ModSmall(2, P);
    Cancel(P, 2, c[0], d[0]);
  }

  lemma {:induction false} SumCongruent(c: seq<int>, d: seq<int>)
    requires |c| == |d| && forall i :: 0 <= i < |c| ==> c[i] % P == d[i] % P
    ensures Sum(c) % P == Sum(d) % P
  {
    if c != [] {
      SumCongruent(c[1..], d[1..]);
      ModAdd(c[0], d[0], Sum(c[1..]), Sum(d[1..]), P);
    }
  }

  /** solve_tape_for_target: the higher coefficients, if the target splits mu. */
  function SolveTape(mu: int, target: seq<int>): (u: Option<seq<int>>)
  {
    if target == [] then None
    else if (Eval(target, 0) % P + Eval(target, 1) % P) % P != mu % P then None
    else
      var u := Reduced(target[1..]);
      if MaskPoly(mu, u) == Reduced(target) then Some(u) else None
  }

  datatype Option<T> = None | Some(value: T)

  /** The tape-to-polynomial map is a bijection onto the polynomials that split mu: the
      solver finds the one tape of a polynomial, and fails exactly outside that space. */
  lemma SolveTapeExact(mu: int, target: seq<int>, u: seq<int>)
    requires target != []
    ensures SolveTape(mu, target).Some? <==> (Eval(target, 0) + Eval(target, 1)) % P == mu % P
    ensures InFieldRow(u) ==> (SolveTape(mu, target) == Some(u) <==> MaskPoly(mu, u) == Reduced(target))
  {
    var v := Reduced(target[1..]);
    ModMod(Eval(target, 0), P);
    ModMod(Eval(target, 1), P);
    ModAdd(Eval(target, 0) % P, Eval(target, 0), Eval(target, 1) % P, Eval(target, 1), P);
    if (Eval(target, 0) + Eval(target, 1)) % P == mu % P {
      TargetHit(mu, target);
    }
    if InFieldRow(u) && MaskPoly(mu, u) == Reduced(target) {
      ReducedInField(u);
      assert MaskPoly(mu, u)[1..] == u;
      assert Reduced(target)[1..] == v;
      ReducedEval(target, 0);
      ReducedEval(target, 1);
      MaskPolySplits(mu, u);
      ModAdd(Eval(Reduced(target), 0), Eval(target, 0), Eval(Reduced(target), 1), Eval(target, 1), P);
    }
  }

  lemma ReducedEval(c: seq<int>, x: int)
    ensures Eval(Reduced(c), x) % P == Eval(c, x) % P
  {
    forall i | 0 <= i < |c| ensures Reduced(c)[i] % P == c[i] % P { ModMod(c[i], P); }
    EvalCongruent(Reduced(c), c, x, x);
  }

  /** A polynomial that splits mu is the mask polynomial of its higher coefficients. */
  lemma TargetHit(mu: int, target: seq<int>)
    requires target != [] && (Eval(target, 0) + Eval(target, 1)) % P == mu % P
    ensures MaskPoly(mu, Reduced(target[1..])) == Reduced(target)
  {
    var u := Reduced(target[1..]);
    var h := MaskPoly(mu, u);
    MaskPolySplits(mu, u);
    ReducedInField(target[1..]);
    ReducedInField(u);
    assert h[1..] == u;
    forall i | 1 <= i < |h| ensures h[i] % P == target[i] % P {
      assert h[i] == u[i - 1] == target[i] % P;
      ModMod(target[i], P);
    }
    ConstantDetermined(h, target, mu);
    assert At(h, 0) % P == At(target, 0) % P;
    ModMod((mu - Sum(u)) % P * Inv(2), P);
    assert h[0] == Reduced(target)[0];
    assert h[1..] == Reduced(target)[1..];
    assert h == [h[0]] + h[1..] && Reduced(target) == [Reduced(target)[0]] + Reduced(target)[1..];
  }

  // ------------------------------------------------------------------ one round

  /** The mask row with which cur2 sends what cur1 sends under the mask h1. */
  function MatchRow(cur1: seq<Term>, cur2: seq<Term>, half: nat, deg: nat, h1: seq<int>): (u: seq<int>)
    requires Degree(cur1) <= deg && Degree(cur2) <= deg && |h1| == deg + 1
    ensures |u| == deg
  {
    Reduced(Target(cur1, cur2, half, deg, h1)[1..])
  }

  /** g1 + h1 - g2, to deg + 1 coefficients. */
  function Target(cur1: seq<Term>, cur2: seq<Term>, half: nat, deg: nat, h1: seq<int>): (c: seq<int>)
    requires Degree(cur1) <= deg && Degree(cur2) <= deg && |h1| == deg + 1
    ensures |c| == deg + 1
  {
    Sub(Add(RoundPoly(cur1, half), h1), RoundPoly(cur2, half))
  }

  lemma TargetEval(cur1: seq<Term>, cur2: seq<Term>, half: nat, deg: nat, h1: seq<int>, x: int)
    requires Degree(cur1) <= deg && Degree(cur2) <= deg && |h1| == deg + 1
    ensures Eval(Target(cur1, cur2, half, deg, h1), x)
            == RoundSum(cur1, half, x) + Eval(h1, x) - RoundSum(cur2, half, x)
  {
    var g1, g2 := RoundPoly(cur1, half), RoundPoly(cur2, half);
    EvalSub(Add(g1, h1), g2, x);
    EvalAdd(g1, h1, x);
    RoundPolyEval(cur1, half, x);
    RoundPolyEval(cur2, half, x);
  }

  lemma MatchRowMatches(cur1: seq<Term>, cur2: seq<Term>, half: nat, deg: nat, h1: seq<int>, mu2: int, x: int)
    requires Degree(cur1) <= deg && Degree(cur2) <= deg && |h1| == deg + 1
    requires (Total(cur1, half + half) + Eval(h1, 0) + Eval(h1, 1)) % P == (Total(cur2, half + half) + mu2) % P
    ensures (RoundSum(cur2, half, x) + Eval(MaskPoly(mu2, MatchRow(cur1, cur2, half, deg, h1)), x)) % P
            == (RoundSum(cur1, half, x) + Eval(h1, x)) % P
  {
    hide *;
    PIsPositive();
    var t := Target(cur1, cur2, half, deg, h1);
    var m := MaskPoly(mu2, Reduced(t[1..]));
    MatchRowIs(cur1, cur2, half, deg, h1);
    RoundSumSplits(cur1, half);
    RoundSumSplits(cur2, half);
    TargetEval(cur1, cur2, half, deg, h1, 0);
    TargetEval(cur1, cur2, half, deg, h1, 1);
    TargetEval(cur1, cur2, half, deg, h1, x);
    MoveTotal(Total(cur1, half + half) + Eval(h1, 0) + Eval(h1, 1), Total(cur2, half + half), mu2);
    TargetHit(mu2, t);
    ReducedEval(t, x);
    ModAdd(RoundSum(cur2, half, x), RoundSum(cur2, half, x), Eval(m, x), Eval(t, x), P);
  }

  lemma MatchRowIs(cur1: seq<Term>, cur2: seq<Term>, half: nat, deg: nat, h1: seq<int>)
    requires Degree(cur1) <= deg && Degree(cur2) <= deg && |h1| == deg + 1
    ensures MatchRow(cur1, cur2, half, deg, h1) == Reduced(Target(cur1, cur2, half, deg, h1)[1..])
    ensures |Target(cur1, cur2, half, deg, h1)| == deg + 1
  {}

  lemma MoveTotal(a: int, b: int, mu: int)
    requires a % P == (b + mu) % P
    ensures (a - b) % P == mu % P
  {
    ModSub(a, b + mu, b, b, P);
  }

  ghost predicate SameMessage(cur1: seq<Term>, cur2: seq<Term>, half: nat, h1: seq<int>, h2: seq<int>) {
    forall x :: (RoundSum(cur2, half, x) + Eval(h2, x)) % P == (RoundSum(cur1, half, x) + Eval(h1, x)) % P
  }

  lemma SameMessageSent(cur1: seq<Term>, cur2: seq<Term>, half: nat, deg: nat, h1: seq<int>, h2: seq<int>)
    requires SameMessage(cur1, cur2, half, h1, h2)
    ensures SentPoly(cur1, half, deg, h1) == SentPoly(cur2, half, deg, h2)
  {
    var s1, s2 := SentPoly(cur1, half, deg, h1), SentPoly(cur2, half, deg, h2);
    forall x | 0 <= x <= deg ensures s1[x] == s2[x] {
      SampleValue(RoundSum(cur1, half, x), Eval(h1, x));
      SampleValue(RoundSum(cur2, half, x), Eval(h2, x));
    }
  }

  lemma SampleValue(a: int, b: int)
    ensures (a % P + b % P) % P == (a + b) % P
  {
    ModMod(a, P);
    ModMod(b, P);
    ModAdd(a % P, a, b % P, b, P);
  }

  /** Two mask rows that send the same message are the same row. */
  lemma RowDetermined(cur: seq<Term>, half: nat, deg: nat, mu: int, u: seq<int>, v: seq<int>)
    requires deg < P && |u| == |v| == deg && InFieldRow(u) && InFieldRow(v)
    requires SentPoly(cur, half, deg, MaskPoly(mu, u)) == SentPoly(cur, half, deg, MaskPoly(mu, v))
    ensures u == v
  {
    var c, d := MaskPoly(mu, u), MaskPoly(mu, v);
    forall x | x in Range(deg + 1) ensures 0 <= x < P && Eval(c, x) % P == Eval(d, x) % P {
      assert SentPoly(cur, half, deg, c)[x] == SentPoly(cur, half, deg, d)[x];
      CancelSample(RoundSum(cur, half, x), Eval(c, x), Eval(d, x));
    }
    AgreeMeansSame(c, d, Range(deg + 1));
    ReducedInField(u);
    ReducedInField(v);
    forall i | 0 <= i < deg ensures u[i] == v[i] {
      assert At(c, i + 1) % P == At(d, i + 1) % P;
      assert c[i + 1] == u[i] && d[i + 1] == v[i];
      ModSmall(u[i], P);
      ModSmall(v[i], P);
    }
  }

  lemma CancelSample(a: int, b: int, c: int)
    requires (a % P + b % P) % P == (a % P + c % P) % P
    ensures b % P == c % P
  {
    ModSub(a % P + b % P, a % P + c % P, a % P, a % P, P);
    ModMod(b, P);
    ModMod(c, P);
  }

  // ------------------------------------------------------------------- all rounds

  ghost predicate Tape(rows: seq<seq<int>>, n: nat, deg: nat) {
    RowsFit(true, rows, n, deg) && InFieldRows(rows)
  }

  ghost predicate SameShape(cur1: seq<Term>, cur2: seq<Term>, n: nat, deg: nat) {
    && Sized(cur1, Pow2(n)) && Sized(cur2, Pow2(n))
    && Degree(cur1) <= deg && Degree(cur2) <= deg && deg < P
  }

  lemma SameShapeNext(cur1: seq<Term>, cur2: seq<Term>, n: nat, deg: nat, r: int)
    requires n > 0 && SameShape(cur1, cur2, n, deg)
    ensures SameShape(FoldTerms(cur1, r), FoldTerms(cur2, r), n - 1, deg)
  {
    FoldSized(cur1, n - 1, r);
    FoldSized(cur2, n - 1, r);
    FoldDegree(cur1, r);
    FoldDegree(cur2, r);
  }

  lemma TapeTail(rows: seq<seq<int>>, n: nat, deg: nat)
    requires n > 0 && Tape(rows, n, deg)
    ensures |rows| == n && |rows[0]| == deg && InFieldRow(rows[0]) && Tape(rows[1..], n - 1, deg)
    ensures rows == [rows[0]] + rows[1..]
  {}

  lemma TapeCons(u: seq<int>, rows: seq<seq<int>>, n: nat, deg: nat)
    requires |u| == deg && InFieldRow(u) && Tape(rows, n, deg)
    ensures |rows| == n && Tape([u] + rows, n + 1, deg) && ([u] + rows)[1..] == rows
  {}

  /** The masked claims of the next round agree as well. */
  lemma ClaimsCarry(cur1: seq<Term>, cur2: seq<Term>, n: nat, h1: seq<int>, h2: seq<int>, r: int)
    requires Sized(cur1, Pow2(n + 1)) && Sized(cur2, Pow2(n + 1))
    requires SameMessage(cur1, cur2, Pow2(n), h1, h2)
    ensures (Total(FoldTerms(cur1, r), Pow2(n)) + Eval(h1, r) % P) % P
            == (Total(FoldTerms(cur2, r), Pow2(n)) + Eval(h2, r) % P) % P
  {
    hide *;
    PIsPositive();
    var half := Pow2(n);
    Pow2Unfold(n + 1);
    FoldTotal(cur1, half, r);
    FoldTotal(cur2, half, r);
    SameAt(cur1, cur2, half, h1, h2, r);
    CarryBoth(Total(FoldTerms(cur1, r), half), RoundSum(cur1, half, r), Eval(h1, r));
    CarryBoth(Total(FoldTerms(cur2, r), half), RoundSum(cur2, half, r), Eval(h2, r));
  }

  lemma SameAt(cur1: seq<Term>, cur2: seq<Term>, half: nat, h1: seq<int>, h2: seq<int>, x: int)
    requires SameMessage(cur1, cur2, half, h1, h2)
    ensures (RoundSum(cur2, half, x) + Eval(h2, x)) % P == (RoundSum(cur1, half, x) + Eval(h1, x)) % P
  {
    hide RoundSum, Eval;
  }

  lemma CarryBoth(t: int, g: int, e: int)
    requires t % P == g % P
    ensures (t + e % P) % P == (g + e) % P
  {
    ModMod(e, P);
    ModAdd(t, g, e % P, e, P);
  }

  ghost predicate SendsTheSame(cur1: seq<Term>, cur2: seq<Term>, n: nat, deg: nat, coin: CoinFn,
      sent: seq<seq<Sample>>, rows1: seq<seq<int>>, rows2: seq<seq<int>>, mu1: int, mu2: int)
    requires |rows1| == |rows2| == n
  {
    var r1 := ProveRounds(cur1, n, deg, coin, sent, true, rows1, mu1);
    var r2 := ProveRounds(cur2, n, deg, coin, sent, true, rows2, mu2);
    r1.polys == r2.polys && r1.challenges == r2.challenges
  }

  lemma {:induction false} MatchingTape(cur1: seq<Term>, cur2: seq<Term>, n: nat, deg: nat, coin: CoinFn,
      sent: seq<seq<Sample>>, rows1: seq<seq<int>>, mu1: int, mu2: int) returns (rows2: seq<seq<int>>)
    requires SameShape(cur1, cur2, n, deg) && RowsFit(true, rows1, n, deg)
    requires (Total(cur1, Pow2(n)) + mu1) % P == (Total(cur2, Pow2(n)) + mu2) % P
    ensures |rows1| == n && Tape(rows2, n, deg) && |rows2| == n
    ensures SendsTheSame(cur1, cur2, n, deg, coin, sent, rows1, rows2, mu1, mu2)
    decreases n
  {
    hide *;
    PIsPositive();
    RowsFitTail(true, rows1, n, deg);
    if n == 0 {
      rows2 := [];
      EmptyTape(cur1, cur2, deg, coin, sent, mu1, mu2);
    } else {
      var half := Pow2(n - 1);
      SameShapeFacts(cur1, cur2, n, deg);
      var h1, poly, r, rest1 := ProveUnfold(cur1, n, deg, coin, sent, true, rows1, mu1);
      SingleMask(rows1, mu1, rows1, mu1);
      var u := MatchRow(cur1, cur2, half, deg, h1);
      var h2 := MaskPoly(mu2, u);
      FirstMessage(cur1, cur2, half, deg, rows1[0], mu1, mu2);
      MatchRowInField(cur1, cur2, half, deg, h1);
      SameMessageSent(cur1, cur2, half, deg, h1, h2);
      SameShapeNext(cur1, cur2, n, deg, r);
      ClaimsCarry(cur1, cur2, n - 1, h1, h2, r);
      var rest := MatchingTape(FoldTerms(cur1, r), FoldTerms(cur2, r), n - 1, deg, coin, sent + [poly],
                               rows1[1..], Eval(h1, r) % P, Eval(h2, r) % P);
      TapeCons(u, rest, n - 1, deg);
      rows2 := [u] + rest;
      var h2', poly', r', rest2 := ProveUnfold(cur2, n, deg, coin, sent, true, rows2, mu2);
      SingleMask(rows2, mu2, rows2, mu2);
      RestEqual(FoldTerms(cur1, r), FoldTerms(cur2, r), n - 1, deg, coin, sent + [poly], rows1[1..], rest,
                Eval(h1, r) % P, Eval(h2, r) % P, rest1, rest2);
      SameSend(cur1, cur2, n, deg, coin, sent, rows1, rows2, mu1, mu2, poly, r, rest1, rest2);
    }
  }

  lemma EmptyTape(cur1: seq<Term>, cur2: seq<Term>, deg: nat, coin: CoinFn, sent: seq<seq<Sample>>,
                  mu1: int, mu2: int)
    ensures Tape([], 0, deg) && SendsTheSame(cur1, cur2, 0, deg, coin, sent, [], [], mu1, mu2)
  {}

  lemma SameShapeFacts(cur1: seq<Term>, cur2: seq<Term>, n: nat, deg: nat)
    requires n > 0 && SameShape(cur1, cur2, n, deg)
    ensures Sized(cur1, Pow2(n)) && Sized(cur2, Pow2(n))
    ensures Degree(cur1) <= deg && Degree(cur2) <= deg && Pow2(n) == Pow2(n - 1) + Pow2(n - 1)
  {}

  lemma MatchRowInField(cur1: seq<Term>, cur2: seq<Term>, half: nat, deg: nat, h1: seq<int>)
    requires Degree(cur1) <= deg && Degree(cur2) <= deg && |h1| == deg + 1
    ensures InFieldRow(MatchRow(cur1, cur2, half, deg, h1))
  {
    ReducedInField(Target(cur1, cur2, half, deg, h1)[1..]);
  }

  lemma RestEqual(cur1: seq<Term>, cur2: seq<Term>, n: nat, deg: nat, coin: CoinFn, sent: seq<seq<Sample>>,
      rows1: seq<seq<int>>, rows2: seq<seq<int>>, mu1: int, mu2: int, rest1: Rounds, rest2: Rounds)
    requires |rows1| == |rows2| == n
    requires SendsTheSame(cur1, cur2, n, deg, coin, sent, rows1, rows2, mu1, mu2)
    requires rest1 == ProveRounds(cur1, n, deg, coin, sent, true, rows1, mu1)
    requires rest2 == ProveRounds(cur2, n, deg, coin, sent, true, rows2, mu2)
    ensures rest1.polys == rest2.polys && rest1.challenges == rest2.challenges
  {}

  lemma SameSend(cur1: seq<Term>, cur2: seq<Term>, n: nat, deg: nat, coin: CoinFn,
      sent: seq<seq<Sample>>, rows1: seq<seq<int>>, rows2: seq<seq<int>>, mu1: int, mu2: int,
      poly: seq<Sample>, r: int, rest1: Rounds, rest2: Rounds)
    requires |rows1| == |rows2| == n
    requires ProveRounds(cur1, n, deg, coin, sent, true, rows1, mu1)
             == Rounds([poly] + rest1.polys, [r] + rest1.challenges, rest1.mask)
    requires ProveRounds(cur2, n, deg, coin, sent, true, rows2, mu2)
             == Rounds([poly] + rest2.polys, [r] + rest2.challenges, rest2.mask)
    requires rest1.polys == rest2.polys && rest1.challenges == rest2.challenges
    ensures SendsTheSame(cur1, cur2, n, deg, coin, sent, rows1, rows2, mu1, mu2)
  {}

  lemma FirstMessage(cur1: seq<Term>, cur2: seq<Term>, half: nat, deg: nat, u1: seq<int>, mu1: int, mu2: int)
    requires Degree(cur1) <= deg && Degree(cur2) <= deg && |u1| == deg
    requires (Total(cur1, half + half) + mu1) % P == (Total(cur2, half + half) + mu2) % P
    ensures var h1 := MaskPoly(mu1, u1);
            SameMessage(cur1, cur2, half, h1, MaskPoly(mu2, MatchRow(cur1, cur2, half, deg, h1)))
  {
    var h1 := MaskPoly(mu1, u1);
    MaskPolySplits(mu1, u1);
    ModAdd(Total(cur1, half + half), Total(cur1, half + half), Eval(h1, 0) + Eval(h1, 1), mu1, P);
    forall x ensures (RoundSum(cur2, half, x) + Eval(MaskPoly(mu2, MatchRow(cur1, cur2, half, deg, h1)), x)) % P
                     == (RoundSum(cur1, half, x) + Eval(h1, x)) % P
    {
      MatchRowMatches(cur1, cur2, half, deg, h1, mu2, x);
    }
  }

  /** A tape is determined by what it makes the prover send. */
  lemma {:induction false} TapeDetermined(cur: seq<Term>, n: nat, deg: nat, coin: CoinFn,
      sent: seq<seq<Sample>>, rows: seq<seq<int>>, rows': seq<seq<int>>, mu: int)
    requires deg < P && Tape(rows, n, deg) && Tape(rows', n, deg) && |rows| == |rows'| == n
    requires SendsTheSame(cur, cur, n, deg, coin, sent, rows, rows', mu, mu)
    ensures rows == rows'
    decreases n
  {
    if n > 0 {
      hide *;
      PIsPositive();
      TapeTail(rows, n, deg);
      TapeTail(rows', n, deg);
      var h, poly, r, rest := ProveUnfold(cur, n, deg, coin, sent, true, rows, mu);
      var h', poly', r', rest' := ProveUnfold(cur, n, deg, coin, sent, true, rows', mu);
      SplitSend(cur, n, deg, coin, sent, rows, rows', mu, poly, poly', r, r', rest, rest');
      SingleMask(rows, mu, rows', mu);
      RowDetermined(cur, Pow2(n - 1), deg, mu, rows[0], rows'[0]);
      RestSame(FoldTerms(cur, r), n - 1, deg, coin, sent + [poly], rows[1..], rows'[1..], Eval(h, r) % P, rest, rest');
      TapeDetermined(FoldTerms(cur, r), n - 1, deg, coin, sent + [poly], rows[1..], rows'[1..], Eval(h, r) % P);
    }
  }

  lemma SingleMask(rows: seq<seq<int>>, mu: int, rows': seq<seq<int>>, mu': int)
    requires rows != [] && rows' != []
    ensures RoundMask(true, rows, mu) == MaskPoly(mu, rows[0])
    ensures RoundMask(true, rows', mu') == MaskPoly(mu', rows'[0])
  {}

  lemma SplitSend(cur: seq<Term>, n: nat, deg: nat, coin: CoinFn, sent: seq<seq<Sample>>,
      rows: seq<seq<int>>, rows': seq<seq<int>>, mu: int, poly: seq<Sample>, poly': seq<Sample>,
      r: int, r': int, rest: Rounds, rest': Rounds)
    requires |rows| == |rows'| == n && SendsTheSame(cur, cur, n, deg, coin, sent, rows, rows', mu, mu)
    requires ProveRounds(cur, n, deg, coin, sent, true, rows, mu)
             == Rounds([poly] + rest.polys, [r] + rest.challenges, rest.mask)
    requires ProveRounds(cur, n, deg, coin, sent, true, rows', mu)
             == Rounds([poly'] + rest'.polys, [r'] + rest'.challenges, rest'.mask)
    ensures poly == poly' && r == r' && rest.polys == rest'.polys && rest.challenges == rest'.challenges
  {
    assert ([poly] + rest.polys)[1..] == rest.polys && ([poly'] + rest'.polys)[1..] == rest'.polys;
    assert ([r] + rest.challenges)[1..] == rest.challenges && ([r'] + rest'.challenges)[1..] == rest'.challenges;
    assert ([poly] + rest.polys)[0] == ([poly'] + rest'.polys)[0];
    assert ([r] + rest.challenges)[0] == ([r'] + rest'.challenges)[0];
  }

  lemma RestSame(cur: seq<Term>, n: nat, deg: nat, coin: CoinFn, sent: seq<seq<Sample>>,
      rows: seq<seq<int>>, rows': seq<seq<int>>, mu: int, rest: Rounds, rest': Rounds)
    requires |rows| == |rows'| == n
    requires rest == ProveRounds(cur, n, deg, coin, sent, true, rows, mu)
    requires rest' == ProveRounds(cur, n, deg, coin, sent, true, rows', mu)
    requires rest.polys == rest'.polys && rest.challenges == rest'.challenges
    ensures SendsTheSame(cur, cur, n, deg, coin, sent, rows, rows', mu, mu)
  {}

  /** Hiding over a whole run: for each tape of the first statement exactly one tape of
      the second gives the same claim, the same polynomials and the same challenges. */
  lemma TapesCorrespond(terms1: seq<Term>, terms2: seq<Term>, n: nat, coin: CoinFn,
      rows1: seq<seq<int>>, mu1: int, mu2: int) returns (rows2: seq<seq<int>>)
    requires Uniform(terms1, Pow2(n)) && Uniform(terms2, Pow2(n)) && Degree(terms1) == Degree(terms2) < P
    requires RowsFit(true, rows1, n, Degree(terms1)) && |rows1| == n
    requires (Total(terms1, Pow2(n)) + mu1) % P == (Total(terms2, Pow2(n)) + mu2) % P
    ensures |rows2| == n && Tape(rows2, n, Degree(terms1))
    ensures SameView(Prove(terms1, n, coin, true, rows1, mu1), Prove(terms2, n, coin, true, rows2, mu2))
    ensures forall rows :: |rows| == n && Tape(rows, n, Degree(terms1))
              && SameView(Prove(terms1, n, coin, true, rows1, mu1), Prove(terms2, n, coin, true, rows, mu2))
              ==> rows == rows2
  {
    var c1, c2, deg := ReduceCoeffs(terms1), ReduceCoeffs(terms2), Degree(terms1);
    var m1, m2 := mu1 % P, mu2 % P;
    hide *;
    PIsPositive();
    UniformSized(terms1, Pow2(n));
    UniformSized(terms2, Pow2(n));
    ReduceSized(terms1, Pow2(n));
    ReduceSized(terms2, Pow2(n));
    ReduceCoeffsFacts(terms1, Pow2(n), []);
    ReduceCoeffsFacts(terms2, Pow2(n), []);
    ReducedClaim(Total(c1, Pow2(n)), Total(terms1, Pow2(n)), mu1);
    ReducedClaim(Total(c2, Pow2(n)), Total(terms2, Pow2(n)), mu2);
    ShapeOf(c1, c2, n, deg);
    rows2 := MatchingTape(c1, c2, n, deg, coin, [], rows1, m1, m2);
    ViewOf(terms1, terms2, n, coin, rows1, rows2, mu1, mu2);
    forall rows | |rows| == n && Tape(rows, n, Degree(terms1))
        && SameView(Prove(terms1, n, coin, true, rows1, mu1), Prove(terms2, n, coin, true, rows, mu2))
      ensures rows == rows2
    {
      ViewOf(terms1, terms2, n, coin, rows1, rows, mu1, mu2);
      SendTransitive(c1, c2, n, deg, coin, rows1, rows, rows2, m1, m2);
      TapeDetermined(c2, n, deg, coin, [], rows, rows2, m2);
    }
  }

  lemma ShapeOf(c1: seq<Term>, c2: seq<Term>, n: nat, deg: nat)
    requires Sized(c1, Pow2(n)) && Sized(c2, Pow2(n)) && Degree(c1) == Degree(c2) == deg < P
    ensures SameShape(c1, c2, n, deg)
  {}

  /** Same view, same sends: with the masked claims equal the two come to one. */
  lemma ViewOf(terms1: seq<Term>, terms2: seq<Term>, n: nat, coin: CoinFn,
      rows1: seq<seq<int>>, rows2: seq<seq<int>>, mu1: int, mu2: int)
    requires |rows1| == |rows2| == n && Degree(terms1) == Degree(terms2)
    requires (Total(ReduceCoeffs(terms1), Pow2(n)) % P + mu1 % P) % P
             == (Total(ReduceCoeffs(terms2), Pow2(n)) % P + mu2 % P) % P
    ensures SameView(Prove(terms1, n, coin, true, rows1, mu1), Prove(terms2, n, coin, true, rows2, mu2))
            <==> SendsTheSame(ReduceCoeffs(terms1), ReduceCoeffs(terms2), n, Degree(terms1), coin, [],
                              rows1, rows2, mu1 % P, mu2 % P)
  {
    hide ProveRounds, Total, Degree, ReduceCoeffs, Pow2;
  }

  lemma SendTransitive(c1: seq<Term>, c2: seq<Term>, n: nat, deg: nat, coin: CoinFn,
      rows1: seq<seq<int>>, rows: seq<seq<int>>, rows2: seq<seq<int>>, mu1: int, mu2: int)
    requires |rows1| == |rows| == |rows2| == n
    requires SendsTheSame(c1, c2, n, deg, coin, [], rows1, rows, mu1, mu2)
    requires SendsTheSame(c1, c2, n, deg, coin, [], rows1, rows2, mu1, mu2)
    ensures SendsTheSame(c2, c2, n, deg, coin, [], rows, rows2, mu2, mu2)
  {
    hide ProveRounds;
  }

  lemma ReducedClaim(t: int, t': int, mu: int)
    requires t % P == t' % P
    ensures (t + mu % P) % P == (t' + mu) % P == (t % P + mu % P) % P
  {
    ModMod(mu, P);
    ModMod(t, P);
    ModAdd(t, t', mu % P, mu, P);
    ModAdd(t % P, t, mu % P, mu % P, P);
  }

  /** Everything the verifier sees before the authenticated mask is opened. */
  predicate SameView(p: SumcheckProof, q: SumcheckProof) {
    && p.claim == q.claim && p.roundPolys == q.roundPolys && p.challenges == q.challenges
    && p.finalPoint == q.finalPoint && p.masked == q.masked
  }
}
