/** eq_vector of layergkr/logup.py: "zero everywhere" as one value. */
module EqWeights {
  // The weighted sum is the multilinear extension at the reversed point; it vanishes at every point
  // exactly when the vector vanishes, and otherwise at few of them.

  import opened NumberTheory
  import opened Field
  import opened Polynomial
  import opened Interpolation
  import opened Sumcheck
  import opened Rows
  import opened Soundness

  function Scale1(v: seq<int>, k: int): (r: seq<int>)
    ensures |r| == |v| && forall i :: 0 <= i < |v| ==> r[i] == (v[i] * k) % P
  {
    seq(|v|, i requires 0 <= i < |v| => (v[i] * k) % P)
  }

  /** Each coordinate doubles the vector, the later ones at the higher indices. */
  function Eq(z: seq<int>): (e: seq<int>)
    ensures |e| == Pow2(|z|)
  {
    if z == [] then [1]
    else
      var e := Eq(z[..|z| - 1]);
      Scale1(e, 1 - z[|z| - 1]) + Scale1(e, z[|z| - 1])
  }

  method EqVector(z: seq<int>) returns (out: seq<int>)
    ensures out == Eq(z)
  {
    out := [1];
    for i := 0 to |z|
      invariant out == Eq(z[..i])
    {
      assert z[..i + 1][..i] == z[..i];
      out := Scale1(out, 1 - z[i]) + Scale1(out, z[i]);
    }
    assert z[..|z|] == z;
  }

  // ------------------------------------------------------------------ the reversal

  lemma {:induction false} InnerSplit(a: seq<int>, b: seq<int>, v: seq<int>, half: nat, m: nat)
    requires |a| == |b| == half && m <= half
    ensures Inner(a + b, v, m) == Inner(a, v, m)
    ensures |v| >= half ==> Inner(a + b, v, half + m) == Inner(a, v, half) + Inner(b, v[half..], m)
  {
    if m > 0 {
      InnerSplit(a, b, v, half, m - 1);
      assert At(a + b, m - 1) == At(a, m - 1);
      if |v| >= half {
        assert At(a + b, half + m - 1) == At(b, m - 1) && At(v, half + m - 1) == At(v[half..], m - 1);
      }
    } else if |v| >= half {
      InnerPrefix(a, b, v, half);
    }
  }

  lemma {:induction false} InnerPrefix(a: seq<int>, b: seq<int>, v: seq<int>, m: nat)
    requires m <= |a|
    ensures Inner(a + b, v, m) == Inner(a, v, m)
  {
    if m > 0 { InnerPrefix(a, b, v, m - 1); }
  }

  /** Both halves of the weights against v are the shorter weights against its fold. */
  lemma {:induction false} FoldInner(e: seq<int>, v: seq<int>, half: nat, r: int, m: nat)
    requires |v| == 2 * half && |e| == half && m <= half
    ensures (Inner(Scale1(e, 1 - r), v, m) + Inner(Scale1(e, r), v[half..], m)) % P == Inner(e, Fold(v, r), m) % P
  {
    hide *;
    PIsPositive();
    var a, b, hi, g := Scale1(e, 1 - r), Scale1(e, r), v[half..], Fold(v, r);
    if m > 0 {
      FoldInner(e, v, half, r, m - 1);
      FoldEntry(e, v, half, r, m - 1);
      AddPairs(Inner(a, v, m - 1), Inner(b, hi, m - 1), Inner(e, g, m - 1),
               At(a, m - 1) * At(v, m - 1), At(b, m - 1) * At(hi, m - 1), At(e, m - 1) * At(g, m - 1));
      InnerStep(a, v, m);
      InnerStep(b, hi, m);
      InnerStep(e, g, m);
    } else {
      InnerNone(a, v);
      InnerNone(b, hi);
      InnerNone(e, g);
    }
  }

  lemma InnerNone(a: seq<int>, b: seq<int>)
    ensures Inner(a, b, 0) == 0
  {}

  lemma InnerStep(a: seq<int>, b: seq<int>, m: nat)
    requires m > 0
    ensures Inner(a, b, m) == Inner(a, b, m - 1) + At(a, m - 1) * At(b, m - 1)
  {}

  lemma AddPairs(a: int, b: int, c: int, x: int, y: int, z: int)
    requires (a + b) % P == c % P && (x + y) % P == z % P
    ensures ((a + x) + (b + y)) % P == (c + z) % P
  {
    ModAdd(a + b, c, x + y, z, P);
  }

  lemma FoldEntry(e: seq<int>, v: seq<int>, half: nat, r: int, i: nat)
    requires |v| == 2 * half && |e| == half && i < half
    ensures (At(Scale1(e, 1 - r), i) * At(v, i) + At(Scale1(e, r), i) * At(v[half..], i)) % P
            == (At(e, i) * At(Fold(v, r), i)) % P
  {
    FoldedTerm(e[i], v[i], v[half + i], r, (e[i] * (1 - r)) % P, (e[i] * r) % P, Fold(v, r)[i]);
  }

  lemma FoldedTerm(e: int, lo: int, hi: int, r: int, e0: int, e1: int, f: int)
    requires e0 == (e * (1 - r)) % P && e1 == (e * r) % P && f == (lo + r * (hi - lo)) % P
    ensures (e0 * lo + e1 * hi) % P == (e * f) % P
  {
    hide *;
    PIsPositive();
    ModMod(e * (1 - r), P);
    ModMod(e * r, P);
    ModMod(lo + r * (hi - lo), P);
    ModMul(e0, e * (1 - r), lo, lo, P);
    ModMul(e1, e * r, hi, hi, P);
    ModAdd(e0 * lo, (e * (1 - r)) * lo, e1 * hi, (e * r) * hi, P);
    ModMul(e, e, f, lo + r * (hi - lo), P);
    LineAlgebra(e, lo, hi, r);
  }

  lemma LineAlgebra(e: int, lo: int, hi: int, r: int)
    ensures (e * (1 - r)) * lo + (e * r) * hi == e * (lo + r * (hi - lo))
  {
    assert (e * (1 - r)) * lo == e * ((1 - r) * lo) && (e * r) * hi == e * (r * hi);
    assert (1 - r) * lo + r * hi == lo + r * (hi - lo);
  }

  /** eq(z, .) weighs v to its multilinear extension at z reversed. */
  lemma {:induction false} EqIsMle(z: seq<int>, v: seq<int>)
    requires |v| == Pow2(|z|)
    ensures Inner(Eq(z), v, |v|) % P == Mle(v, Reverse(z))
  {
    hide *;
    PIsPositive();
    if z == [] {
      EqOfNone(v);
    } else {
      var n := |z| - 1;
      var r, short := z[n], z[..n];
      var e, half := Eq(short), Pow2(n);
      EqUnfold(z, e, r);
      EqHalves(|z|, e, r);
      EqSizes(v, half, r);
      EqIsMle(short, Fold(v, r));
      ReverseUnfold(z, r);
      var rest := Reverse(short);
      assert ([r] + rest)[1..] == rest;
      MleUnfold(v, [r] + rest, rest);
      InnerSplit(Scale1(e, 1 - r), Scale1(e, r), v, half, half);
      FoldInner(e, v, half, r, half);
    }
  }

  lemma EqOfNone(v: seq<int>)
    requires |v| == Pow2(0)
    ensures Inner(Eq([]), v, |v|) % P == Mle(v, Reverse([]))
  {
    assert Inner([1], v, 1) == At(v, 0);
  }

  lemma EqSizes(v: seq<int>, half: nat, r: int)
    requires |v| == half + half
    ensures |Fold(v, r)| == half
  {}

  lemma EqUnfold(z: seq<int>, e: seq<int>, r: int)
    requires z != [] && r == z[|z| - 1] && e == Eq(z[..|z| - 1])
    ensures Eq(z) == Scale1(e, 1 - r) + Scale1(e, r)
  {
    hide Scale1, Pow2;
  }

  lemma EqHalves(n: nat, e: seq<int>, r: int)
    requires n > 0 && |e| == Pow2(n - 1)
    ensures Pow2(n) == Pow2(n - 1) + Pow2(n - 1) && |Scale1(e, 1 - r)| == |e| == |Scale1(e, r)|
  {}

  lemma ReverseUnfold(z: seq<int>, r: int)
    requires z != [] && r == z[|z| - 1]
    ensures Reverse(z) == [r] + Reverse(z[..|z| - 1])
  {}

  lemma MleUnfold(v: seq<int>, point: seq<int>, rest: seq<int>)
    requires point != [] && rest == point[1..]
    ensures Mle(v, point) == Mle(Fold(v, point[0]), rest)
  {}

  /** The weights of any point add up to one. */
  lemma EqSumsToOne(z: seq<int>)
    ensures Inner(Eq(z), seq(Pow2(|z|), _ => 1), Pow2(|z|)) % P == 1
  {
    EqIsMle(z, seq(Pow2(|z|), _ => 1));
    OnesMle(|z|, Reverse(z));
  }

  lemma {:induction false} OnesMle(n: nat, point: seq<int>)
    requires |point| == n
    ensures Mle(seq(Pow2(n), _ => 1), point) == 1
  {
    var v := seq(Pow2(n), _ => 1);
    if n > 0 {
      OnesMle(n - 1, point[1..]);
      var g := Fold(v, point[0]);
      forall i | 0 <= i < |g| ensures g[i] == 1 {
        assert Line(v, |v| / 2, i, point[0]) == 1 + point[0] * 0;
        ModSmall(1, P);
      }
      assert g == seq(Pow2(n - 1), _ => 1);
    } else {
      ModSmall(1, P);
    }
  }

  // ------------------------------------------------------------ zero everywhere

  ghost predicate AllZero(v: seq<int>) {
    forall i :: 0 <= i < |v| ==> v[i] % P == 0
  }

  lemma {:induction false} ZeroMle(v: seq<int>, point: seq<int>)
    requires |v| == Pow2(|point|) && AllZero(v)
    ensures Mle(v, point) == 0
    decreases |point|
  {
    if point != [] {
      var g, half := Fold(v, point[0]), |v| / 2;
      forall i | 0 <= i < |g| ensures g[i] % P == 0 {
        ZeroLine(v[i], v[half + i], point[0]);
      }
      ZeroMle(g, point[1..]);
    }
  }

  lemma ZeroLine(lo: int, hi: int, r: int)
    requires lo % P == 0 && hi % P == 0
    ensures (lo + r * (hi - lo)) % P == 0 && ((lo + r * (hi - lo)) % P) % P == 0
  {
    ModSub(hi, 0, lo, 0, P);
    ModMul(r, r, hi - lo, 0, P);
    ModAdd(lo, 0, r * (hi - lo), 0, P);
  }

  /** Most significant bit first. */
  function Bits(i: nat, n: nat): (b: seq<int>)
    ensures |b| == n && forall k :: 0 <= k < n ==> 0 <= b[k] <= 1
  {
    if n == 0 then [] else
      var half := Pow2(n - 1);
      if i >= half then [1] + Bits(i - half, n - 1) else [0] + Bits(i, n - 1)
  }

  /** At a vertex the extension is the vector's own entry. */
  lemma {:induction false} VertexMle(v: seq<int>, i: nat, n: nat)
    requires |v| == Pow2(n) && i < |v|
    ensures Mle(v, Bits(i, n)) == v[i] % P
    decreases n
  {
    if n > 0 {
      var half := Pow2(n - 1);
      var top := i >= half;
      var k := if top then i - half else i;
      var g := Fold(v, if top then 1 else 0);
      VertexMle(g, k, n - 1);
      assert Bits(i, n)[1..] == Bits(k, n - 1);
      assert g[k] == v[i] % P;
      ModMod(v[i], P);
    }
  }

  /** The weighted sum is zero at every point exactly when the vector is zero everywhere. */
  lemma ZeroAtAllPoints(v: seq<int>, n: nat)
    requires |v| == Pow2(n)
    ensures (forall z :: |z| == n ==> Inner(Eq(z), v, |v|) % P == 0) <==> AllZero(v)
  {
    if AllZero(v) {
      forall z | |z| == n ensures Inner(Eq(z), v, |v|) % P == 0 {
        EqIsMle(z, v);
        ZeroMle(v, Reverse(z));
      }
    }
    if forall z :: |z| == n ==> Inner(Eq(z), v, |v|) % P == 0 {
      forall i | 0 <= i < |v| ensures v[i] % P == 0 {
        var z := Reverse(Bits(i, n));
        ReverseTwice(Bits(i, n));
        EqIsMle(z, v);
        VertexMle(v, i, n);
      }
    }
  }

  lemma ReverseTwice(z: seq<int>)
    ensures Reverse(Reverse(z)) == z
  {}

  // ------------------------------------------------------- nonzero vanishes rarely

  /** A nonzero vector folds to zero for one challenge at the most. */
  lemma OneZeroFold(v: seq<int>, n: nat, r: int, s: int)
    requires |v| == Pow2(n + 1) && !AllZero(v) && 0 <= r < P && 0 <= s < P
    requires AllZero(Fold(v, r)) && AllZero(Fold(v, s))
    ensures r == s
  {
    var i := NonzeroPair(v, n);
    hide *;
    PIsPositive();
    FoldZeroAt(v, n, r, i);
    FoldZeroAt(v, n, s, i);
    OneRootLine(v[i], v[Pow2(n) + i], r, s);
  }

  lemma NonzeroPair(v: seq<int>, n: nat) returns (i: nat)
    requires |v| == Pow2(n + 1) && !AllZero(v)
    ensures i < Pow2(n) && Pow2(n) + i < |v| && (v[i] % P != 0 || v[Pow2(n) + i] % P != 0)
  {
    var k :| 0 <= k < |v| && v[k] % P != 0;
    i := if k < Pow2(n) then k else k - Pow2(n);
  }

  lemma FoldZeroAt(v: seq<int>, n: nat, r: int, i: nat)
    requires |v| == Pow2(n + 1) && i < Pow2(n) && AllZero(Fold(v, r))
    ensures Pow2(n) + i < |v| && ((v[i] + r * (v[Pow2(n) + i] - v[i])) % P) % P == 0
  {
    assert Fold(v, r)[i] % P == 0;
  }

  lemma OneRootLine(lo: int, hi: int, r: int, s: int)
    requires 0 <= r < P && 0 <= s < P && (lo % P != 0 || hi % P != 0)
    requires ((lo + r * (hi - lo)) % P) % P == 0 && ((lo + s * (hi - lo)) % P) % P == 0
    ensures r == s
  {
    var d := hi - lo;
    ModMod(lo + r * d, P);
    ModMod(lo + s * d, P);
    ModSub(lo + r * d, 0, lo + s * d, 0, P);
    assert (lo + r * d) - (lo + s * d) == (r - s) * d;
    if r != s {
      NoZeroDivisor(r, s, d);
      FlatLine(lo, hi, r);
      assert false;
    }
  }

  lemma FlatLine(lo: int, hi: int, r: int)
    requires (hi - lo) % P == 0 && (lo + r * (hi - lo)) % P == 0
    ensures lo % P == 0 && hi % P == 0
  {
    var d := hi - lo;
    ModMul(r, r, d, 0, P);
    ModSub(lo + r * d, 0, r * d, 0, P);
    assert (lo + r * d) - r * d == lo;
    ModAdd(lo, 0, d, 0, P);
    assert lo + d == hi;
  }

  /** good stands for "the extension vanishes" once the prefix is bound. */
  ghost predicate OnlyZeros(v: seq<int>, n: nat, good: seq<int> -> bool, prefix: seq<int>) {
    forall rest :: |rest| == n && good(prefix + rest) ==> Mle(v, rest) == 0
  }

  /** The multilinear extension of a nonzero vector of 2^n entries vanishes at n in P of the
      points at the most. */
  lemma {:induction false} ZeroPointsAreFew(v: seq<int>, n: nat, good: seq<int> -> bool, prefix: seq<int>)
    requires |v| == Pow2(n) && !AllZero(v) && OnlyZeros(v, n, good, prefix)
    ensures Count(n, good, prefix) * P <= n * Pow(P, n)
    decreases n, P + 1
  {
    if n == 0 {
      NoPointLeft(v, good, prefix);
    } else {
      hide *;
      PIsPositive();
      var bad := BadFolds(v, n - 1, P);
      ZeroPointsBelow(v, n - 1, good, prefix, P);
      BadFoldsAtMostOne(v, n - 1, P);
      PowUnfold(P, n);
      PowPositive(n - 1);
      CountUnfold(n, good, prefix);
      TotalBound(CountBelow(n, good, prefix, P), n, bad, Pow(P, n - 1));
    }
  }

  lemma NoPointLeft(v: seq<int>, good: seq<int> -> bool, prefix: seq<int>)
    requires |v| == Pow2(0) && !AllZero(v) && OnlyZeros(v, 0, good, prefix)
    ensures Count(0, good, prefix) == 0
  {
    assert prefix + [] == prefix;
    assert good(prefix) ==> Mle(v, []) == 0;
    assert v[0] % P != 0;
  }

  lemma CountUnfold(n: nat, good: seq<int> -> bool, prefix: seq<int>)
    requires n > 0
    ensures Count(n, good, prefix) == CountBelow(n, good, prefix, P)
  {}

  lemma TotalBound(c: int, n: int, bad: int, q: int)
    requires c * P <= P * ((n - 1) * q) + bad * (P * q) && bad <= 1 && q >= 0
    ensures c * P <= n * (P * q)
  {
    hide *;
    PIsPositive();
    MulMonotoneLeft(bad, 1, P, q);
    assert P * ((n - 1) * q) == (n - 1) * (P * q);
    assert (n - 1) * (P * q) + P * q == n * (P * q);
  }

  lemma MulMonotoneLeft(a: int, b: int, p: int, q: int)
    requires a <= b && p >= 0 && q >= 0
    ensures a * (p * q) <= b * (p * q)
  {
    assert p * q >= 0;
  }

  /** How many r < m fold v to zero. */
  ghost function BadFolds(v: seq<int>, n: nat, m: nat): nat {
    if m == 0 then 0 else BadFolds(v, n, m - 1) + if AllZero(Fold(v, m - 1)) then 1 else 0
  }

  lemma {:induction false} BadFoldsAtMostOne(v: seq<int>, n: nat, m: nat)
    requires |v| == Pow2(n + 1) && !AllZero(v) && m <= P
    ensures BadFolds(v, n, m) <= 1
  {
    if m > 0 {
      BadFoldsAtMostOne(v, n, m - 1);
      if AllZero(Fold(v, m - 1)) { NoBadFolds(v, n, m - 1, m - 1); }
    }
  }

  lemma {:induction false} NoBadFolds(v: seq<int>, n: nat, m: nat, r: nat)
    requires |v| == Pow2(n + 1) && !AllZero(v) && m <= r < P && AllZero(Fold(v, r))
    ensures BadFolds(v, n, m) == 0
  {
    if m > 0 {
      NoBadFolds(v, n, m - 1, r);
      if AllZero(Fold(v, m - 1)) { OneZeroFold(v, n, m - 1, r); }
    }
  }

  lemma {:induction false} ZeroPointsBelow(v: seq<int>, n: nat, good: seq<int> -> bool, prefix: seq<int>, m: nat)
    requires |v| == Pow2(n + 1) && !AllZero(v) && OnlyZeros(v, n + 1, good, prefix) && m <= P
    ensures CountBelow(n + 1, good, prefix, m) * P <= m * (n * Pow(P, n)) + BadFolds(v, n, m) * (P * Pow(P, n))
    decreases n + 1, m
  {
    if m > 0 {
      ZeroPointsBelow(v, n, good, prefix, m - 1);
      var g, r := Fold(v, m - 1), m - 1;
      OnlyZerosNext(v, n, good, prefix, r);
      CountAtMost(n, good, prefix + [r]);
      PowPositive(n);
      if !AllZero(g) { ZeroPointsAreFew(g, n, good, prefix + [r]); }
      CountBelowUnfold(n + 1, good, prefix, m);
      StepBound(CountBelow(n + 1, good, prefix, m - 1), Count(n, good, prefix + [r]), m, n, Pow(P, n),
                BadFolds(v, n, m - 1), AllZero(g));
    }
  }

  lemma OnlyZerosNext(v: seq<int>, n: nat, good: seq<int> -> bool, prefix: seq<int>, r: int)
    requires OnlyZeros(v, n + 1, good, prefix)
    ensures OnlyZeros(Fold(v, r), n, good, prefix + [r])
  {
    forall rest | |rest| == n && good(prefix + [r] + rest) ensures Mle(Fold(v, r), rest) == 0 {
      assert prefix + ([r] + rest) == prefix + [r] + rest;
      assert Mle(v, [r] + rest) == 0;
      assert ([r] + rest)[1..] == rest;
    }
  }

  lemma StepBound(before: int, c: int, m: int, n: int, q: int, bad: int, zero: bool)
    requires before * P <= (m - 1) * (n * q) + bad * (P * q) && n >= 0 && q >= 0
    requires if zero then c <= q else c * P <= n * q
    ensures (before + c) * P <= m * (n * q) + (bad + if zero then 1 else 0) * (P * q)
  {
    hide *;
    PIsPositive();
    assert (before + c) * P == before * P + c * P;
    assert (m - 1) * (n * q) + n * q == m * (n * q);
    assert (bad + 1) * (P * q) == bad * (P * q) + P * q;
    assert n * q >= 0;
    if zero { MulMonotoneRight(c, q, P); }
  }

  lemma MulMonotoneRight(c: int, q: int, p: int)
    requires c <= q && p >= 0
    ensures c * p <= p * q
  {}
}
