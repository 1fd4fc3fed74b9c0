/** The arithmetic of sumcheck.py: sums of products over a hypercube, their folding at
    a challenge, and the round polynomial that links one fold to the next. */
module Sumcheck {
  import opened NumberTheory
  import opened Field
  import opened Polynomial
  import opened Interpolation

  /** A coefficient and a list of factors, each given by its hypercube evaluations,
      most significant variable first. */
  datatype Term = Term(coeff: int, factors: seq<seq<int>>)

  predicate FactorsSized(fs: seq<seq<int>>, size: nat) {
    forall j :: 0 <= j < |fs| ==> |fs[j]| == size
  }

  predicate Sized(terms: seq<Term>, size: nat) {
    forall k :: 0 <= k < |terms| ==> FactorsSized(terms[k].factors, size)
  }

  /** The widest term. */
  function Degree(terms: seq<Term>): nat {
    if terms == [] then 0
    else
      var rest := Degree(terms[1..]);
      if |terms[0].factors| > rest then |terms[0].factors| else rest
  }

  // ------------------------------------------------------------- hypercube sums

  function ProdAt(fs: seq<seq<int>>, i: nat): int {
    if fs == [] then 1 else At(fs[0], i) * ProdAt(fs[1..], i)
  }

  function TermSum(t: Term, m: nat): int {
    if m == 0 then 0 else TermSum(t, m - 1) + t.coeff * ProdAt(t.factors, m - 1)
  }

  /** The sum over the first m hypercube points of the sum of products. */
  function Total(terms: seq<Term>, m: nat): int {
    if terms == [] then 0 else TermSum(terms[0], m) + Total(terms[1..], m)
  }

  /** The sum of products at one hypercube point. */
  function AtIndex(terms: seq<Term>, i: nat): int {
    if terms == [] then 0 else terms[0].coeff * ProdAt(terms[0].factors, i) + AtIndex(terms[1..], i)
  }

  lemma {:induction false} TotalStep(terms: seq<Term>, m: nat)
    ensures Total(terms, m + 1) == Total(terms, m) + AtIndex(terms, m)
  {
    if terms != [] {
      TotalStep(terms[1..], m);
      assert TermSum(terms[0], m + 1) == TermSum(terms[0], m) + terms[0].coeff * ProdAt(terms[0].factors, m);
    }
  }

  lemma {:induction false} TotalZero(terms: seq<Term>)
    ensures Total(terms, 0) == 0
  {
    if terms != [] { TotalZero(terms[1..]); }
  }

  // ------------------------------------------------ binding the leading variable

  /** The line through a factor's values at 0 and 1 in its leading variable. */
  function Line(f: seq<int>, half: nat, i: nat, x: int): int {
    At(f, i) + x * (At(f, half + i) - At(f, i))
  }

  function ProdLine(fs: seq<seq<int>>, half: nat, i: nat, x: int): int {
    if fs == [] then 1 else Line(fs[0], half, i, x) * ProdLine(fs[1..], half, i, x)
  }

  function LineSum(t: Term, half: nat, m: nat, x: int): int {
    if m == 0 then 0
    else LineSum(t, half, m - 1, x) + t.coeff * ProdLine(t.factors, half, m - 1, x)
  }

  /** The honest round polynomial at x: the leading variable set to x, the rest summed
      over the smaller hypercube. */
  function RoundSum(terms: seq<Term>, half: nat, x: int): int {
    if terms == [] then 0 else LineSum(terms[0], half, half, x) + RoundSum(terms[1..], half, x)
  }

  function Fold(f: seq<int>, r: int): (g: seq<int>)
    ensures |g| == |f| / 2
    ensures forall i :: 0 <= i < |g| ==> g[i] == Line(f, |f| / 2, i, r) % P
  {
    seq(|f| / 2, i requires 0 <= i => Line(f, |f| / 2, i, r) % P)
  }

  function FoldAll(fs: seq<seq<int>>, r: int): (gs: seq<seq<int>>)
    ensures |gs| == |fs|
    ensures forall j :: 0 <= j < |fs| ==> gs[j] == Fold(fs[j], r)
  {
    seq(|fs|, j requires 0 <= j < |fs| => Fold(fs[j], r))
  }

  function FoldTerms(terms: seq<Term>, r: int): (us: seq<Term>)
    ensures |us| == |terms|
    ensures forall k :: 0 <= k < |terms| ==>
      us[k] == Term(terms[k].coeff, FoldAll(terms[k].factors, r))
  {
    seq(|terms|, k requires 0 <= k < |terms| => Term(terms[k].coeff, FoldAll(terms[k].factors, r)))
  }

  lemma FoldSized(terms: seq<Term>, n: nat, r: int)
    requires Sized(terms, Pow2(n + 1))
    ensures Sized(FoldTerms(terms, r), Pow2(n))
  {
    forall k | 0 <= k < |terms| ensures FactorsSized(FoldTerms(terms, r)[k].factors, Pow2(n)) {
      assert FactorsSized(terms[k].factors, Pow2(n + 1));
    }
  }

  lemma {:induction false} FoldDegree(terms: seq<Term>, r: int)
    ensures Degree(FoldTerms(terms, r)) == Degree(terms)
  {
    if terms != [] {
      FoldDegree(terms[1..], r);
      assert FoldTerms(terms, r)[1..] == FoldTerms(terms[1..], r);
    }
  }

  // -------------------------------------------------- g(0) + g(1) is the claim

  lemma {:induction false} ProdLineEnds(fs: seq<seq<int>>, half: nat, i: nat)
    ensures ProdLine(fs, half, i, 0) == ProdAt(fs, i)
    ensures ProdLine(fs, half, i, 1) == ProdAt(fs, half + i)
  {
    if fs != [] {
      ProdLineEnds(fs[1..], half, i);
      assert Line(fs[0], half, i, 0) == At(fs[0], i);
      assert Line(fs[0], half, i, 1) == At(fs[0], half + i);
    }
  }

  lemma {:induction false} LineSumEnds(t: Term, half: nat, m: nat)
    ensures LineSum(t, half, m, 0) == TermSum(t, m)
    ensures TermSum(t, half) + LineSum(t, half, m, 1) == TermSum(t, half + m)
  {
    if m > 0 {
      LineSumEnds(t, half, m - 1);
      ProdLineEnds(t.factors, half, m - 1);
    }
  }

  lemma {:induction false} RoundSumSplits(terms: seq<Term>, half: nat)
    ensures RoundSum(terms, half, 0) + RoundSum(terms, half, 1) == Total(terms, half + half)
  {
    if terms != [] {
      RoundSumSplits(terms[1..], half);
      LineSumEnds(terms[0], half, half);
    }
  }

  // -------------------------------------------------- g(r) is the folded claim

  lemma {:induction false} FoldProduct(fs: seq<seq<int>>, half: nat, i: nat, r: int)
    requires FactorsSized(fs, half + half) && i < half
    ensures ProdAt(FoldAll(fs, r), i) % P == ProdLine(fs, half, i, r) % P
  {
    if fs != [] {
      assert FactorsSized(fs[1..], half + half);
      FoldProduct(fs[1..], half, i, r);
      assert FoldAll(fs, r)[1..] == FoldAll(fs[1..], r);
      ModMod(Line(fs[0], half, i, r), P);
      ModMul(Fold(fs[0], r)[i], Line(fs[0], half, i, r),
             ProdAt(FoldAll(fs[1..], r), i), ProdLine(fs[1..], half, i, r), P);
    }
  }

  lemma {:induction false} FoldTermSum(t: Term, half: nat, m: nat, r: int)
    requires FactorsSized(t.factors, half + half) && m <= half
    ensures TermSum(Term(t.coeff, FoldAll(t.factors, r)), m) % P == LineSum(t, half, m, r) % P
  {
    if m > 0 {
      var u := Term(t.coeff, FoldAll(t.factors, r));
      FoldTermSum(t, half, m - 1, r);
      FoldProduct(t.factors, half, m - 1, r);
      ModMul(t.coeff, t.coeff, ProdAt(u.factors, m - 1), ProdLine(t.factors, half, m - 1, r), P);
      ModAdd(TermSum(u, m - 1), LineSum(t, half, m - 1, r),
             t.coeff * ProdAt(u.factors, m - 1), t.coeff * ProdLine(t.factors, half, m - 1, r), P);
    }
  }

  lemma {:induction false} FoldTotal(terms: seq<Term>, half: nat, r: int)
    requires Sized(terms, half + half)
    ensures Total(FoldTerms(terms, r), half) % P == RoundSum(terms, half, r) % P
  {
    if terms != [] {
      assert Sized(terms[1..], half + half);
      assert FactorsSized(terms[0].factors, half + half);
      FoldTotal(terms[1..], half, r);
      FoldTermSum(terms[0], half, half, r);
      assert FoldTerms(terms, r)[1..] == FoldTerms(terms[1..], r);
      ModAdd(TermSum(FoldTerms(terms, r)[0], half), LineSum(terms[0], half, half, r),
             Total(FoldTerms(terms[1..], r), half), RoundSum(terms[1..], half, r), P);
    }
  }

  // --------------------------------------------- g is a polynomial of low degree

  function ProdPoly(fs: seq<seq<int>>, half: nat, i: nat): (c: seq<int>)
    ensures |c| == |fs| + 1
  {
    if fs == [] then [1]
    else TimesLinear(ProdPoly(fs[1..], half, i), At(fs[0], i), At(fs[0], half + i) - At(fs[0], i))
  }

  function LinePoly(t: Term, half: nat, m: nat): (c: seq<int>)
    ensures |c| <= |t.factors| + 1
  {
    if m == 0 then []
    else Add(LinePoly(t, half, m - 1), Scale(t.coeff, ProdPoly(t.factors, half, m - 1)))
  }

  /** The coefficients of the honest round polynomial. */
  function RoundPoly(terms: seq<Term>, half: nat): (c: seq<int>)
    ensures |c| <= Degree(terms) + 1
  {
    if terms == [] then []
    else Add(LinePoly(terms[0], half, half), RoundPoly(terms[1..], half))
  }

  lemma {:induction false} ProdPolyEval(fs: seq<seq<int>>, half: nat, i: nat, x: int)
    ensures Eval(ProdPoly(fs, half, i), x) == ProdLine(fs, half, i, x)
  {
    if fs == [] {
      EvalConstant(1, x);
    } else {
      ProdPolyStep(fs, half, i, x);
      hide *;
      ProdPolyEval(fs[1..], half, i, x);
      var c, a, b := ProdPoly(fs[1..], half, i), At(fs[0], i), At(fs[0], half + i);
      EvalTimesLinear(c, a, b - a, x);
      LineFlip(Eval(c, x), a, b, x);
    }
  }

  lemma ProdPolyStep(fs: seq<seq<int>>, half: nat, i: nat, x: int)
    requires fs != []
    ensures ProdPoly(fs, half, i)
            == TimesLinear(ProdPoly(fs[1..], half, i), At(fs[0], i), At(fs[0], half + i) - At(fs[0], i))
    ensures ProdLine(fs, half, i, x)
            == (At(fs[0], i) + x * (At(fs[0], half + i) - At(fs[0], i))) * ProdLine(fs[1..], half, i, x)
  {}

  lemma LineFlip(e: int, a: int, b: int, x: int)
    ensures e * (a + (b - a) * x) == (a + x * (b - a)) * e
  {}

  lemma {:induction false} LinePolyEval(t: Term, half: nat, m: nat, x: int)
    ensures Eval(LinePoly(t, half, m), x) == LineSum(t, half, m, x)
  {
    hide *;
    LinePolyUnfold(t, half, m, x);
    if m > 0 {
      var c, d := LinePoly(t, half, m - 1), ProdPoly(t.factors, half, m - 1);
      LinePolyEval(t, half, m - 1, x);
      ProdPolyEval(t.factors, half, m - 1, x);
      EvalScale(t.coeff, d, x);
      EvalAdd(c, Scale(t.coeff, d), x);
    }
  }

  lemma LinePolyUnfold(t: Term, half: nat, m: nat, x: int)
    ensures LinePoly(t, half, m) == if m == 0 then []
            else Add(LinePoly(t, half, m - 1), Scale(t.coeff, ProdPoly(t.factors, half, m - 1)))
    ensures LineSum(t, half, m, x) == if m == 0 then 0
            else LineSum(t, half, m - 1, x) + t.coeff * ProdLine(t.factors, half, m - 1, x)
    ensures Eval([], x) == 0
  {}

  lemma {:induction false} RoundPolyEval(terms: seq<Term>, half: nat, x: int)
    ensures Eval(RoundPoly(terms, half), x) == RoundSum(terms, half, x)
  {
    if terms != [] {
      RoundPolyUnfold(terms, half, x);
      hide *;
      RoundPolyEval(terms[1..], half, x);
      LinePolyEval(terms[0], half, half, x);
      EvalAdd(LinePoly(terms[0], half, half), RoundPoly(terms[1..], half), x);
    }
  }

  lemma RoundPolyUnfold(terms: seq<Term>, half: nat, x: int)
    requires terms != []
    ensures RoundPoly(terms, half)
            == Add(LinePoly(terms[0], half, half), RoundPoly(terms[1..], half))
    ensures RoundSum(terms, half, x)
            == LineSum(terms[0], half, half, x) + RoundSum(terms[1..], half, x)
  {}

  // ------------------------------------------------------- the terminal value

  /** mle_eval: fold once per coordinate, then read the one value left. */
  function Mle(values: seq<int>, point: seq<int>): int
    decreases |point|
  {
    if point == [] then At(values, 0) % P else Mle(Fold(values, point[0]), point[1..])
  }

  function ProdMle(fs: seq<seq<int>>, point: seq<int>): int {
    if fs == [] then 1 else Mle(fs[0], point) * ProdMle(fs[1..], point)
  }

  function TerminalSum(terms: seq<Term>, point: seq<int>): int {
    if terms == [] then 0
    else terms[0].coeff * ProdMle(terms[0].factors, point) + TerminalSum(terms[1..], point)
  }

  lemma {:induction false} ProdMleFold(fs: seq<seq<int>>, point: seq<int>)
    requires point != []
    ensures ProdMle(fs, point) == ProdMle(FoldAll(fs, point[0]), point[1..])
  {
    if fs != [] {
      ProdMleFold(fs[1..], point);
      assert FoldAll(fs, point[0])[1..] == FoldAll(fs[1..], point[0]);
    }
  }

  lemma {:induction false} TerminalFold(terms: seq<Term>, point: seq<int>)
    requires point != []
    ensures TerminalSum(terms, point) == TerminalSum(FoldTerms(terms, point[0]), point[1..])
  {
    if terms != [] {
      TerminalFold(terms[1..], point);
      ProdMleFold(terms[0].factors, point);
      assert FoldTerms(terms, point[0])[1..] == FoldTerms(terms[1..], point[0]);
    }
  }

  lemma {:induction false} ProdMleVertex(fs: seq<seq<int>>)
    ensures ProdMle(fs, []) % P == ProdAt(fs, 0) % P
  {
    if fs != [] {
      ProdMleVertex(fs[1..]);
      ModMod(At(fs[0], 0), P);
      ModMul(Mle(fs[0], []), At(fs[0], 0), ProdMle(fs[1..], []), ProdAt(fs[1..], 0), P);
    }
  }

  lemma {:induction false} TerminalVertex(terms: seq<Term>)
    ensures TerminalSum(terms, []) % P == Total(terms, 1) % P
  {
    if terms != [] {
      var t := terms[0];
      TerminalVertex(terms[1..]);
      ProdMleVertex(t.factors);
      ModMul(t.coeff, t.coeff, ProdMle(t.factors, []), ProdAt(t.factors, 0), P);
      assert TermSum(t, 1) == TermSum(t, 0) + t.coeff * ProdAt(t.factors, 0);
      ModAdd(t.coeff * ProdMle(t.factors, []), TermSum(t, 1),
             TerminalSum(terms[1..], []), Total(terms[1..], 1), P);
    }
  }
}
