/** Polynomials as ascending coefficient lists over the integers, and what they mean
    modulo P: a nonzero polynomial with n coefficients has fewer than n roots, and the
    program's Lagrange interpolation recovers any polynomial from enough samples. */
module Polynomial {
  import opened NumberTheory
  import opened Field

  function Eval(c: seq<int>, x: int): int {
    if c == [] then 0 else c[0] + x * Eval(c[1..], x)
  }

  ghost predicate ZeroPoly(c: seq<int>) {
    forall i :: 0 <= i < |c| ==> c[i] % P == 0
  }

  /** Horner's rule over the reversed coefficients. */
  method PolyEvalCoeffs(coeffs: seq<int>, x: int) returns (acc: int)
    ensures acc == Eval(coeffs, x) % P
  {
    acc := 0;
    var i := |coeffs|;
    while i > 0
      invariant 0 <= i <= |coeffs|
      invariant acc == Eval(coeffs[i..], x) % P
    {
      i := i - 1;
      HornerStep(coeffs[i], coeffs[i + 1..], x, acc);
      assert coeffs[i..][1..] == coeffs[i + 1..];
      acc := (acc * x + coeffs[i]) % P;
    }
    assert coeffs[0..] == coeffs;
  }

  lemma HornerStep(c0: int, rest: seq<int>, x: int, acc: int)
    requires acc == Eval(rest, x) % P
    ensures (acc * x + c0) % P == (c0 + x * Eval(rest, x)) % P
  {
    ModMod(Eval(rest, x), P);
    ModMul(acc, Eval(rest, x), x, x, P);
    ModAdd(acc * x, Eval(rest, x) * x, c0, c0, P);
  }

  // ------------------------------------------------------------ root counting

  /** The quotient of c by X - a. */
  function Deflate(c: seq<int>, a: int): (q: seq<int>)
    ensures |q| == if c == [] then 0 else |c| - 1
  {
    if |c| <= 1 then [] else [Eval(c[1..], a)] + Deflate(c[1..], a)
  }

  lemma {:induction false} DeflateEval(c: seq<int>, a: int, x: int)
    ensures Eval(c, x) == (x - a) * Eval(Deflate(c, a), x) + Eval(c, a)
  {
    if |c| > 1 {
      var t, q := c[1..], Deflate(c[1..], a);
      DeflateEval(t, a, x);
      assert ([Eval(t, a)] + q)[1..] == q;
      assert Eval(Deflate(c, a), x) == Eval(t, a) + x * Eval(q, x);
      DeflateAlgebra(c[0], x, a, Eval(q, x), Eval(t, a));
    }
  }

  lemma DeflateAlgebra(c0: int, x: int, a: int, q: int, ta: int)
    ensures c0 + x * ((x - a) * q + ta) == (x - a) * (ta + x * q) + (c0 + a * ta)
  {
  }

  lemma {:induction false} DeflateZero(c: seq<int>, a: int)
    requires ZeroPoly(Deflate(c, a)) && Eval(c, a) % P == 0
    ensures ZeroPoly(c)
  {
    if |c| == 1 {
      assert c[1..] == [];
    } else if |c| > 1 {
      var t, q := c[1..], Deflate(c[1..], a);
      assert Deflate(c, a)[0] == Eval(t, a);
      forall i | 0 <= i < |q| ensures q[i] % P == 0 {
        assert Deflate(c, a)[i + 1] == q[i];
      }
      DeflateZero(t, a);
      ModMul(a, a, Eval(t, a), 0, P);
      ModSub(Eval(c, a), 0, a * Eval(t, a), 0, P);
      forall i | 0 <= i < |c| ensures c[i] % P == 0 {
        if i > 0 { assert c[i] == t[i - 1]; }
      }
    }
  }

  ghost predicate AreRoots(c: seq<int>, roots: set<int>) {
    forall r :: r in roots ==> 0 <= r < P && Eval(c, r) % P == 0
  }

  lemma SomeElement<T>(s: set<T>) returns (x: T)
    requires |s| > 0
    ensures x in s
  {
    x :| x in s;
  }

  /** A polynomial with more reduced roots than its degree is zero modulo P. */
  lemma {:induction false} RootBound(c: seq<int>, roots: set<int>)
    requires !ZeroPoly(c) && AreRoots(c, roots)
    ensures |roots| < |c|
    decreases |c|
  {
    if |roots| > 0 {
      var a := SomeElement(roots);
      var q := Deflate(c, a);
      if ZeroPoly(q) { DeflateZero(c, a); }
      GoldilocksIsPrime();
      forall r | r in roots - {a} ensures 0 <= r < P && Eval(q, r) % P == 0 {
        OtherRoot(c, a, r);
      }
      RootBound(q, roots - {a});
    }
  }

  lemma OtherRoot(c: seq<int>, a: int, r: int)
    requires 0 <= a < P && 0 <= r < P && a != r
    requires Eval(c, a) % P == 0 && Eval(c, r) % P == 0
    ensures Eval(Deflate(c, a), r) % P == 0
  {
    var q := Deflate(c, a);
    DeflateEval(c, a, r);
    ModSub(Eval(c, r), 0, Eval(c, a), 0, P);
    NoZeroDivisor(r, a, Eval(q, r));
  }

  lemma NoZeroDivisor(r: int, a: int, q: int)
    requires 0 <= a < P && 0 <= r < P && a != r && ((r - a) * q) % P == 0
    ensures q % P == 0
  {
    GoldilocksIsPrime();
    Euclid(P, r - a, q);
  }

  // ------------------------------------------------------ arithmetic on lists

  function At(c: seq<int>, i: nat): int {
    if i < |c| then c[i] else 0
  }

  function Add(c: seq<int>, d: seq<int>): (r: seq<int>)
    ensures |r| == if |c| >= |d| then |c| else |d|
  {
    if c == [] then d else if d == [] then c
    else [c[0] + d[0]] + Add(c[1..], d[1..])
  }

  function Scale(k: int, c: seq<int>): (r: seq<int>)
    ensures |r| == |c|
  {
    if c == [] then [] else [k * c[0]] + Scale(k, c[1..])
  }

  lemma {:induction false} AddAt(c: seq<int>, d: seq<int>, i: nat)
    ensures At(Add(c, d), i) == At(c, i) + At(d, i)
  {
    if c != [] && d != [] && i > 0 {
      AddAt(c[1..], d[1..], i - 1);
    }
  }

  lemma {:induction false} ScaleAt(k: int, c: seq<int>, i: nat)
    ensures At(Scale(k, c), i) == k * At(c, i)
  {
    if c != [] && i > 0 {
      ScaleAt(k, c[1..], i - 1);
    }
  }

  function Sub(c: seq<int>, d: seq<int>): (r: seq<int>) {
    Add(c, Scale(-1, d))
  }

  /** c * (a + b*X) */
  function TimesLinear(c: seq<int>, a: int, b: int): (r: seq<int>)
    ensures |r| == |c| + 1
  {
    Add(Scale(a, c), [0] + Scale(b, c))
  }

  lemma EvalCons(k: int, c: seq<int>, x: int)
    ensures Eval([k] + c, x) == k + x * Eval(c, x)
  {
    assert ([k] + c)[1..] == c;
  }

  lemma {:induction false} EvalAdd(c: seq<int>, d: seq<int>, x: int)
    ensures Eval(Add(c, d), x) == Eval(c, x) + Eval(d, x)
  {
    if c != [] && d != [] {
      EvalAdd(c[1..], d[1..], x);
      EvalCons(c[0] + d[0], Add(c[1..], d[1..]), x);
      assert x * (Eval(c[1..], x) + Eval(d[1..], x)) == x * Eval(c[1..], x) + x * Eval(d[1..], x);
    }
  }

  lemma {:induction false} EvalScale(k: int, c: seq<int>, x: int)
    ensures Eval(Scale(k, c), x) == k * Eval(c, x)
  {
    if c != [] {
      EvalScale(k, c[1..], x);
      EvalCons(k * c[0], Scale(k, c[1..]), x);
      MulSwap(x, k, Eval(c[1..], x));
    }
  }

  lemma EvalSub(c: seq<int>, d: seq<int>, x: int)
    ensures Eval(Sub(c, d), x) == Eval(c, x) - Eval(d, x)
  {
    EvalScale(-1, d, x);
    EvalAdd(c, Scale(-1, d), x);
    assert -1 * Eval(d, x) == -Eval(d, x);
  }

  lemma EvalTimesLinear(c: seq<int>, a: int, b: int, x: int)
    ensures Eval(TimesLinear(c, a, b), x) == Eval(c, x) * (a + b * x)
  {
    var s := Scale(b, c);
    EvalScale(a, c, x);
    EvalScale(b, c, x);
    EvalCons(0, s, x);
    EvalAdd(Scale(a, c), [0] + s, x);
    LinearAlgebra(Eval(c, x), a, b, x);
  }

  lemma LinearAlgebra(e: int, a: int, b: int, x: int)
    ensures a * e + x * (b * e) == e * (a + b * x)
  {}

  lemma {:induction false} EvalCongruent(c: seq<int>, d: seq<int>, x: int, y: int)
    requires |c| == |d| && (forall i :: 0 <= i < |c| ==> c[i] % P == d[i] % P) && x % P == y % P
    ensures Eval(c, x) % P == Eval(d, y) % P
  {
    if c != [] {
      EvalCongruent(c[1..], d[1..], x, y);
      ModMul(x, y, Eval(c[1..], x), Eval(d[1..], y), P);
      ModAdd(c[0], d[0], x * Eval(c[1..], x), y * Eval(d[1..], y), P);
    }
  }

  ghost predicate SamePoly(c: seq<int>, d: seq<int>) {
    forall i :: 0 <= i < |c| || 0 <= i < |d| ==> At(c, i) % P == At(d, i) % P
  }

  /** Distinct reduced arguments 0..n-1. */
  function Range(n: nat): (s: set<int>)
    ensures |s| == n && forall x :: x in s <==> 0 <= x < n
  {
    if n == 0 then {} else Range(n - 1) + {n - 1}
  }

  /** Two polynomials agreeing modulo P at more points than both have coefficients
      agree in every coefficient. */
  lemma AgreeMeansSame(c: seq<int>, d: seq<int>, points: set<int>)
    requires |points| >= |c| && |points| >= |d|
    requires forall x :: x in points ==> 0 <= x < P && Eval(c, x) % P == Eval(d, x) % P
    ensures SamePoly(c, d)
  {
    forall x | x in points ensures Eval(Sub(c, d), x) % P == 0 {
      AgreeMeansRoot(c, d, x);
    }
    if !ZeroPoly(Sub(c, d)) {
      RootBound(Sub(c, d), points);
    } else {
      ZeroDifference(c, d);
    }
  }

  lemma AgreeMeansRoot(c: seq<int>, d: seq<int>, x: int)
    ensures Eval(Sub(c, d), x) % P == 0 <==> Eval(c, x) % P == Eval(d, x) % P
  {
    EvalSub(c, d, x);
    DiffZero(Eval(c, x), Eval(d, x), P);
  }

  lemma ZeroDifference(c: seq<int>, d: seq<int>)
    requires ZeroPoly(Sub(c, d))
    ensures SamePoly(c, d)
  {
    var e := Sub(c, d);
    forall i | 0 <= i < |c| || 0 <= i < |d| ensures At(c, i) % P == At(d, i) % P {
      AddAt(c, Scale(-1, d), i);
      ScaleAt(-1, d, i);
      assert e[i] == At(e, i) == At(c, i) - At(d, i);
      DiffZero(At(c, i), At(d, i), P);
    }
  }

  function Padded(c: seq<int>, n: nat): (r: seq<int>)
    ensures |c| <= n ==> |r| == n && forall i :: 0 <= i < n ==> r[i] == At(c, i)
  {
    if |c| >= n then c else c + seq(n - |c|, _ => 0)
  }

  lemma EvalPadded(c: seq<int>, n: nat, x: int)
    ensures Eval(Padded(c, n), x) == Eval(c, x)
  {
    if |c| < n {
      EvalAppendZeros(c, n - |c|, x);
    }
  }

  lemma {:induction false} EvalAppendZeros(c: seq<int>, n: nat, x: int)
    ensures Eval(c + seq(n, _ => 0), x) == Eval(c, x)
    decreases |c| + n
  {
    var z := seq(n, _ => 0);
    if c != [] {
      EvalAppendZeros(c[1..], n, x);
      assert (c + z)[1..] == c[1..] + z;
    } else if n > 0 {
      EvalAppendZeros(c, n - 1, x);
      assert (c + z)[1..] == c + seq(n - 1, _ => 0);
    }
  }

  lemma SameEval(c: seq<int>, d: seq<int>, x: int)
    requires SamePoly(c, d)
    ensures Eval(c, x) % P == Eval(d, x) % P
  {
    var n := if |c| >= |d| then |c| else |d|;
    EvalPadded(c, n, x);
    EvalPadded(d, n, x);
    EvalCongruent(Padded(c, n), Padded(d, n), x, x);
  }
}
