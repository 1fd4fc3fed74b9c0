/** sumcheck._lagrange_interpolate on any samples. */
module Interpolation {
  // Even on repeated arguments it evaluates one fixed polynomial with no more coefficients than there are
  // samples, and on distinct arguments that polynomial is the one sampled.

  import opened NumberTheory
  import opened Field
  import opened Polynomial

  type Sample = (int, int)

  /** prod over k < m, k != i, of (x - x_k) */
  function Numerator(pts: seq<Sample>, i: nat, x: int, m: nat): int
    requires m <= |pts|
  {
    if m == 0 then 1
    else if m - 1 == i then Numerator(pts, i, x, m - 1)
    else Numerator(pts, i, x, m - 1) * (x - pts[m - 1].0)
  }

  function Weight(pts: seq<Sample>, i: nat): int
    requires i < |pts|
  {
    Inv(Numerator(pts, i, pts[i].0, |pts|))
  }

  /** sum over i < m of y_i * prod (x - x_k) / prod (x_i - x_k) */
  function Interpolant(pts: seq<Sample>, x: int, m: nat): int
    requires m <= |pts|
  {
    if m == 0 then 0 else Interpolant(pts, x, m - 1) + Share(pts, m - 1, x)
  }

  function Share(pts: seq<Sample>, i: nat, x: int): int
    requires i < |pts|
  {
    pts[i].1 * Numerator(pts, i, x, |pts|) * Weight(pts, i)
  }

  function Lagrange(pts: seq<Sample>, x: int): int {
    Interpolant(pts, x, |pts|) % P
  }

  method LagrangeInterpolate(points: seq<Sample>, x: int) returns (acc: int)
    ensures acc == Lagrange(points, x)
  {
    acc := 0;
    for i := 0 to |points|
      invariant acc == Interpolant(points, x, i) % P
    {
      var (xi, yi) := points[i];
      var num, den := 1, 1;
      for k := 0 to |points|
        invariant num % P == Numerator(points, i, x, k) % P
        invariant den % P == Numerator(points, i, xi, k) % P
      {
        if k != i {
          var xk := points[k].0;
          FactorStep(num, Numerator(points, i, x, k), x - xk);
          FactorStep(den, Numerator(points, i, xi, k), xi - xk);
          num := num * (x - xk) % P;
          den := den * (xi - xk) % P;
        }
      }
      InvMod(den);
      InvMod(Numerator(points, i, xi, |points|));
      SumStep(acc, Interpolant(points, x, i), yi, num, Numerator(points, i, x, |points|), Weight(points, i));
      acc := (acc + yi * num * Inv(den % P)) % P;
      InvMod(den);
    }
  }

  lemma FactorStep(a: int, b: int, f: int)
    requires a % P == b % P
    ensures (a * f % P) % P == (b * f) % P
  {
    ModMul(a, b, f, f, P);
    ModMod(a * f, P);
  }

  lemma SumStep(acc: int, s: int, y: int, num: int, num': int, w: int)
    requires acc == s % P && num % P == num' % P
    ensures (acc + y * num * w) % P == (s + y * num' * w) % P
  {
    ModMod(s, P);
    ModMul(y, y, num, num', P);
    ModMul(y * num, y * num', w, w, P);
    ModAdd(acc, s, y * num * w, y * num' * w, P);
  }

  // --------------------------------------------- the interpolant as a polynomial

  function NumeratorPoly(pts: seq<Sample>, i: nat, m: nat): (r: seq<int>)
    requires m <= |pts|
    ensures |r| == if i < m then m else m + 1
  {
    if m == 0 then [1]
    else if m - 1 == i then NumeratorPoly(pts, i, m - 1)
    else TimesRoot(NumeratorPoly(pts, i, m - 1), pts[m - 1].0)
  }

  /** c * (X - a) */
  function TimesRoot(c: seq<int>, a: int): (r: seq<int>)
    ensures |r| == |c| + 1
  {
    TimesLinear(c, -a, 1)
  }

  lemma EvalTimesRoot(c: seq<int>, a: int, x: int)
    ensures Eval(TimesRoot(c, a), x) == Eval(c, x) * (x - a)
  {
    EvalTimesLinear(c, -a, 1, x);
    var e := Eval(c, x);
    assert -a + 1 * x == x - a;
  }

  lemma {:induction false} NumeratorPolyEval(pts: seq<Sample>, i: nat, m: nat, x: int)
    requires m <= |pts|
    ensures Eval(NumeratorPoly(pts, i, m), x) == Numerator(pts, i, x, m)
  {
    hide Eval;
    if m == 0 {
      EvalConstant(1, x);
    } else {
      NumeratorPolyEval(pts, i, m - 1, x);
      if m - 1 != i {
        EvalTimesRoot(NumeratorPoly(pts, i, m - 1), pts[m - 1].0, x);
      }
    }
  }

  lemma EvalConstant(k: int, x: int)
    ensures Eval([k], x) == k
  {
    assert [k][1..] == [];
    assert Eval([], x) == 0;
  }

  function SharePoly(pts: seq<Sample>, i: nat): (r: seq<int>)
    requires i < |pts|
    ensures |r| == |pts|
  {
    Scale(pts[i].1 * Weight(pts, i), NumeratorPoly(pts, i, |pts|))
  }

  lemma SharePolyEval(pts: seq<Sample>, i: nat, x: int)
    requires i < |pts|
    ensures Eval(SharePoly(pts, i), x) == Share(pts, i, x)
  {
    EvalScale(pts[i].1 * Weight(pts, i), NumeratorPoly(pts, i, |pts|), x);
    NumeratorPolyEval(pts, i, |pts|, x);
    MulRegroup(pts[i].1, Weight(pts, i), Numerator(pts, i, x, |pts|));
  }

  function InterpolantPoly(pts: seq<Sample>, m: nat): (r: seq<int>)
    requires m <= |pts|
    ensures |r| == if m == 0 then 0 else |pts|
  {
    if m == 0 then [] else Add(InterpolantPoly(pts, m - 1), SharePoly(pts, m - 1))
  }

  lemma InterpolantUnfold(pts: seq<Sample>, m: nat, x: int)
    requires m <= |pts|
    ensures Interpolant(pts, x, m)
            == if m == 0 then 0 else Interpolant(pts, x, m - 1) + Share(pts, m - 1, x)
    ensures InterpolantPoly(pts, m)
            == if m == 0 then [] else Add(InterpolantPoly(pts, m - 1), SharePoly(pts, m - 1))
    ensures Eval([], x) == 0
  {}

  lemma {:induction false} InterpolantPolyEval(pts: seq<Sample>, m: nat, x: int)
    requires m <= |pts|
    ensures Eval(InterpolantPoly(pts, m), x) == Interpolant(pts, x, m)
  {
    hide *;
    InterpolantUnfold(pts, m, x);
    if m > 0 {
      InterpolantPolyEval(pts, m - 1, x);
      SharePolyEval(pts, m - 1, x);
      EvalAdd(InterpolantPoly(pts, m - 1), SharePoly(pts, m - 1), x);
    }
  }

  /** The degree bound, for every sample list: repeated arguments are harmless because
      the inverse of zero is zero. */
  lemma LagrangeIsPolynomial(pts: seq<Sample>) returns (c: seq<int>)
    ensures |c| == |pts| && forall x :: Lagrange(pts, x) == Eval(c, x) % P
  {
    c := InterpolantPoly(pts, |pts|);
    forall x ensures Lagrange(pts, x) == Eval(c, x) % P {
      InterpolantPolyEval(pts, |pts|, x);
    }
  }

  // --------------------------------------------------------- exact on its samples

  ghost predicate DistinctArguments(pts: seq<Sample>) {
    && (forall i :: 0 <= i < |pts| ==> 0 <= pts[i].0 < P)
    && (forall i, j :: 0 <= i < j < |pts| ==> pts[i].0 != pts[j].0)
  }

  lemma {:induction false} NumeratorVanishes(pts: seq<Sample>, i: nat, j: nat, m: nat)
    requires j < m <= |pts| && i != j
    ensures Numerator(pts, i, pts[j].0, m) == 0
  {
    if m - 1 != j {
      NumeratorVanishes(pts, i, j, m - 1);
    }
  }

  lemma {:induction false} NumeratorNonzero(pts: seq<Sample>, i: nat, m: nat)
    requires DistinctArguments(pts) && i < |pts| && m <= |pts|
    ensures Numerator(pts, i, pts[i].0, m) % P != 0
  {
    if m > 0 {
      NumeratorNonzero(pts, i, m - 1);
      if m - 1 != i {
        var d := pts[i].0 - pts[m - 1].0;
        GoldilocksIsPrime();
        assert d % P != 0;
        if (Numerator(pts, i, pts[i].0, m - 1) * d) % P == 0 {
          Euclid(P, Numerator(pts, i, pts[i].0, m - 1), d);
        }
      }
    } else {
      ModSmall(1, P);
    }
  }

  lemma OwnShare(pts: seq<Sample>, j: nat)
    requires DistinctArguments(pts) && j < |pts|
    ensures Share(pts, j, pts[j].0) % P == pts[j].1 % P
  {
    NumeratorNonzero(pts, j, |pts|);
    var y, d := pts[j].1, Numerator(pts, j, pts[j].0, |pts|);
    InvCorrect(d);
    OneTimes(P, d * Inv(d), y);
    TimesRegroup(y, d, Inv(d));
  }

  lemma TimesRegroup(a: int, b: int, c: int)
    ensures a * b * c == (b * c) * a
  {}

  lemma OtherShare(pts: seq<Sample>, i: nat, j: nat)
    requires i < |pts| && j < |pts| && i != j
    ensures Share(pts, i, pts[j].0) == 0
  {
    NumeratorVanishes(pts, i, j, |pts|);
  }

  lemma {:induction false} InterpolantAt(pts: seq<Sample>, j: nat, m: nat)
    requires DistinctArguments(pts) && j < |pts| && m <= |pts|
    ensures Interpolant(pts, pts[j].0, m) % P == if j < m then pts[j].1 % P else 0
  {
    if m > 0 {
      hide Share;
      var x := pts[j].0;
      InterpolantAt(pts, j, m - 1);
      if m - 1 == j {
        OwnShare(pts, j);
        ModAdd(Interpolant(pts, x, m - 1), 0, Share(pts, j, x), pts[j].1, P);
      } else {
        OtherShare(pts, m - 1, j);
      }
    }
  }

  /** Interpolating enough samples of a polynomial gives it back everywhere. */
  lemma InterpolationRecovers(pts: seq<Sample>, g: seq<int>)
    requires DistinctArguments(pts) && |g| <= |pts|
    requires forall i :: 0 <= i < |pts| ==> pts[i].1 % P == Eval(g, pts[i].0) % P
    ensures forall x :: Lagrange(pts, x) == Eval(g, x) % P
  {
    var c := LagrangeIsPolynomial(pts);
    var xs := seq(|pts|, i requires 0 <= i < |pts| => pts[i].0);
    NoDuplicatesSize(xs);
    forall x | x in Elements(xs) ensures 0 <= x < P && Eval(c, x) % P == Eval(g, x) % P {
      var i :| 0 <= i < |xs| && xs[i] == x;
      InterpolantAt(pts, i, |pts|);
      assert Lagrange(pts, x) == Eval(c, x) % P;
    }
    AgreeMeansSame(c, g, Elements(xs));
    forall x ensures Lagrange(pts, x) == Eval(g, x) % P {
      SameEval(c, g, x);
    }
  }
}
