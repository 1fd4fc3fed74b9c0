/** Modular arithmetic over a prime modulus: congruence, inverses, Fermat's little
    theorem, and Proth's primality criterion. */
module NumberTheory {

  // ---------------------------------------------------------------- congruence

  lemma ModShift(x: int, k: int, m: int)
    requires m > 0
    ensures (x + m * k) % m == x % m
  {
    var y := x + m * k;
    assert x == m * (x / m) + x % m;
    assert y == m * (y / m) + y % m;
    var d := y / m - x / m - k;
    assert m * d == x % m - y % m by {
      assert m * d == m * (y / m) - m * (x / m) - m * k;
    }
    assert d >= 1 ==> m * d >= m;
    assert d <= -1 ==> m * d <= -m;
  }

  /** The one fact every reduction step below rests on. */
  lemma Congruent(a: int, b: int, k: int, m: int)
    requires m > 0 && a == b + m * k
    ensures a % m == b % m
  {
    ModShift(b, k, m);
  }

  lemma ModMod(a: int, m: int)
    requires m > 0
    ensures (a % m) % m == a % m
  {
    Congruent(a, a % m, a / m, m);
  }

  lemma ModAdd(a: int, a': int, b: int, b': int, m: int)
    requires m > 0 && a % m == a' % m && b % m == b' % m
    ensures (a + b) % m == (a' + b') % m
  {
    var k := a / m - a' / m + (b / m - b' / m);
    assert a + b == a' + b' + m * k by {
      assert a == m * (a / m) + a % m && a' == m * (a' / m) + a' % m;
      assert b == m * (b / m) + b % m && b' == m * (b' / m) + b' % m;
      assert m * k == m * (a / m) - m * (a' / m) + (m * (b / m) - m * (b' / m));
    }
    Congruent(a + b, a' + b', k, m);
  }

  lemma ModNeg(a: int, a': int, m: int)
    requires m > 0 && a % m == a' % m
    ensures (-a) % m == (-a') % m
  {
    var k := a' / m - a / m;
    assert -a == -a' + m * k by {
      assert a == m * (a / m) + a % m && a' == m * (a' / m) + a' % m;
      assert m * k == m * (a' / m) - m * (a / m);
    }
    Congruent(-a, -a', k, m);
  }

  lemma ModSub(a: int, a': int, b: int, b': int, m: int)
    requires m > 0 && a % m == a' % m && b % m == b' % m
    ensures (a - b) % m == (a' - b') % m
  {
    ModNeg(b, b', m);
    ModAdd(a, a', -b, -b', m);
  }

  lemma ModMul(a: int, a': int, b: int, b': int, m: int)
    requires m > 0 && a % m == a' % m && b % m == b' % m
    ensures (a * b) % m == (a' * b') % m
  {
    var i, j := a / m - a' / m, b / m - b' / m;
    assert a == a' + m * i by {
      assert a == m * (a / m) + a % m && a' == m * (a' / m) + a' % m;
      assert m * i == m * (a / m) - m * (a' / m);
    }
    assert b == b' + m * j by {
      assert b == m * (b / m) + b % m && b' == m * (b' / m) + b' % m;
      assert m * j == m * (b / m) - m * (b' / m);
    }
    var k := i * b' + a' * j + m * (i * j);
    assert a * b == a' * b' + m * k by {
      assert (a' + m * i) * (b' + m * j) == a' * b' + m * (i * b') + m * (a' * j) + m * (m * (i * j));
    }
    Congruent(a * b, a' * b', k, m);
  }

  lemma ModSmall(a: int, m: int)
    requires 0 <= a < m
    ensures a % m == a
  {}

  lemma MultipleIsZero(k: int, m: int)
    requires m > 0
    ensures (m * k) % m == 0
  {
    Congruent(m * k, 0, k, m);
  }

  lemma DiffZero(a: int, b: int, m: int)
    requires m > 0
    ensures (a - b) % m == 0 <==> a % m == b % m
  {
    if (a - b) % m == 0 {
      ModAdd(a - b, 0, b, b, m);
    } else if a % m == b % m {
      ModSub(a, b, b, b, m);
    }
  }

  // -------------------------------------------------------------------- powers

  function Pow(b: int, e: nat): int
    decreases e, b
  {
    if e == 0 then 1 else b * Pow(b, e - 1)
  }

  function Pow2(k: nat): (r: nat)
    ensures r >= 1
  {
    if k == 0 then 1 else 2 * Pow2(k - 1)
  }

  lemma {:induction false} PowAdd(b: int, e: nat, f: nat)
    ensures Pow(b, e + f) == Pow(b, e) * Pow(b, f)
  {
    if e > 0 {
      PowAdd(b, e - 1, f);
    }
  }

  lemma {:induction false} PowMul(b: int, e: nat, f: nat)
    ensures e * f >= 0 && Pow(b, e * f) == Pow(Pow(b, e), f)
  {
    if f == 0 {
      assert e * f == 0;
    } else {
      PowMul(b, e, f - 1);
      assert e * f == e + e * (f - 1);
      PowAdd(b, e, e * (f - 1));
    }
  }

  lemma {:induction false} PowMod(a: int, b: int, e: nat, m: int)
    requires m > 0 && a % m == b % m
    ensures Pow(a, e) % m == Pow(b, e) % m
  {
    if e > 0 {
      PowMod(a, b, e - 1, m);
      ModMul(a, b, Pow(a, e - 1), Pow(b, e - 1), m);
    }
  }

  lemma {:induction false} PowOne(e: nat)
    ensures Pow(1, e) == 1
  {
    if e > 0 { PowOne(e - 1); }
  }

  lemma {:induction false} PowProduct(a: int, b: int, e: nat)
    ensures Pow(a * b, e) == Pow(a, e) * Pow(b, e)
  {
    if e > 0 {
      PowProduct(a, b, e - 1);
      calc {
        Pow(a * b, e);
        a * b * (Pow(a, e - 1) * Pow(b, e - 1));
        (a * Pow(a, e - 1)) * (b * Pow(b, e - 1));
      }
    }
  }

  // -------------------------------------------------------------------- primes

  predicate Divides(d: int, n: int)
    requires d > 0
  {
    n % d == 0
  }

  ghost predicate IsPrime(p: int) {
    p >= 2 && forall d :: 2 <= d < p ==> !Divides(d, p)
  }

  /** Euclid's descent on `a`, run backwards: every residue has an inverse. */
  lemma {:induction false} InverseExists(p: int, a: int) returns (b: int)
    requires IsPrime(p) && 1 <= a < p
    ensures (a * b) % p == 1
    decreases a
  {
    if a == 1 {
      b := 1;
    } else {
      var q, r := p / a, p % a;
      assert !Divides(a, p);
      assert p == a * q + r;
      var c := InverseExists(p, r);
      b := -(q * c);
      assert a * b == r * c + p * (-c) by {
        assert r * c == (p - a * q) * c;
        assert (p - a * q) * c == p * c - a * (q * c);
      }
      Congruent(a * b, r * c, -c, p);
    }
  }

  lemma Euclid(p: int, a: int, b: int)
    requires IsPrime(p) && (a * b) % p == 0
    ensures a % p == 0 || b % p == 0
  {
    if a % p != 0 {
      var c := InverseOf(p, a);
      ZeroTimes(p, a * b, c);
      assert (a * b) * c == (a * c) * b;
      OneTimes(p, a * c, b);
    }
  }

  lemma InverseOf(p: int, a: int) returns (c: int)
    requires IsPrime(p) && a % p != 0
    ensures (a * c) % p == 1
  {
    c := InverseExists(p, a % p);
    ModMod(a, p);
    ModMul(a, a % p, c, c, p);
  }

  lemma ZeroTimes(m: int, x: int, y: int)
    requires m > 0 && x % m == 0
    ensures (x * y) % m == 0
  {
    ModMul(x, 0, y, y, m);
  }

  lemma OneTimes(m: int, x: int, y: int)
    requires m > 1 && x % m == 1
    ensures (x * y) % m == y % m
  {
    ModMul(x, 1, y, y, m);
  }

  lemma Cancel(p: int, a: int, b: int, c: int)
    requires IsPrime(p) && a % p != 0 && (a * b) % p == (a * c) % p
    ensures b % p == c % p
  {
    DiffZero(a * b, a * c, p);
    assert a * b - a * c == a * (b - c);
    Euclid(p, a, b - c);
    DiffZero(b, c, p);
  }

  // ------------------------------------------------------ Fermat's little theorem

  function Product(s: seq<int>): int {
    if s == [] then 1 else s[0] * Product(s[1..])
  }

  lemma ProductCons(x: int, s: seq<int>)
    ensures Product([x] + s) == x * Product(s)
  {
    assert ([x] + s)[1..] == s;
  }

  lemma {:induction false} ProductConcat(s: seq<int>, t: seq<int>)
    ensures Product(s + t) == Product(s) * Product(t)
  {
    if s == [] {
      assert s + t == t;
    } else {
      assert (s + t)[1..] == s[1..] + t;
      ProductConcat(s[1..], t);
      assert s[0] * (Product(s[1..]) * Product(t)) == (s[0] * Product(s[1..])) * Product(t);
    }
  }

  lemma TimesCommute(a: int, b: int)
    ensures a * b == b * a
  {}

  lemma TimesZero(x: int)
    ensures 0 * x == 0
  {}

  lemma MulSwap(a: int, b: int, c: int)
    ensures a * (b * c) == b * (a * c)
  {}

  lemma ProductRemove(t: seq<int>, k: nat)
    requires k < |t|
    ensures Product(t) == t[k] * Product(t[..k] + t[k + 1..])
  {
    hide *;
    var l, r := t[..k], t[k + 1..];
    assert t == l + ([t[k]] + r);
    ProductConcat(l, [t[k]] + r);
    ProductConcat(l, r);
    ProductCons(t[k], r);
    MulSwap(Product(l), t[k], Product(r));
  }

  lemma MultisetRemove<T>(t: seq<T>, k: nat)
    requires k < |t|
    ensures multiset(t) == multiset{t[k]} + multiset(t[..k] + t[k + 1..])
  {
    assert t == t[..k] + [t[k]] + t[k + 1..];
  }

  lemma MultisetMatch<T>(s: seq<T>, t: seq<T>) returns (k: nat)
    requires s != [] && multiset(s) == multiset(t)
    ensures k < |t| && t[k] == s[0] && multiset(s[1..]) == multiset(t[..k] + t[k + 1..])
  {
    assert s[0] in multiset(s);
    k :| 0 <= k < |t| && t[k] == s[0];
    MultisetRemove(t, k);
    assert s == [s[0]] + s[1..];
    assert multiset(s[1..]) == multiset(s) - multiset{s[0]};
    assert multiset(t[..k] + t[k + 1..]) == multiset(t) - multiset{s[0]};
  }

  /** A product does not depend on the order of its factors. */
  lemma {:induction false} ProductPermutation(s: seq<int>, t: seq<int>)
    requires multiset(s) == multiset(t)
    ensures Product(s) == Product(t)
  {
    if s == [] {
      assert |s| == |multiset(s)| == |multiset(t)| == |t|;
    } else {
      var k := MultisetMatch(s, t);
      ProductPermutation(s[1..], t[..k] + t[k + 1..]);
      ProductRemove(t, k);
    }
  }

  /** [1, 2, ..., n] and its image under multiplication by `a` modulo `m`. */
  function UpTo(n: nat): (s: seq<int>)
    ensures |s| == n && forall i :: 0 <= i < n ==> s[i] == i + 1
  {
    seq(n, i => i + 1)
  }

  function Multiples(a: int, n: nat, m: int): (s: seq<int>)
    requires m > 0
    ensures |s| == n && forall i :: 0 <= i < n ==> s[i] == (a * (i + 1)) % m
  {
    seq(n, i => (a * (i + 1)) % m)
  }

  ghost predicate NoDuplicates(s: seq<int>) {
    forall i, j :: 0 <= i < j < |s| ==> s[i] != s[j]
  }

  lemma {:induction false} NoDuplicatesMultiplicity(s: seq<int>, x: int)
    requires NoDuplicates(s)
    ensures multiset(s)[x] == if x in s then 1 else 0
  {
    if s != [] {
      assert s == [s[0]] + s[1..];
      NoDuplicatesMultiplicity(s[1..], x);
    }
  }

  function Elements(s: seq<int>): set<int> {
    set x | x in s
  }

  lemma {:induction false} NoDuplicatesSize(s: seq<int>)
    requires NoDuplicates(s)
    ensures |Elements(s)| == |s|
  {
    if s != [] {
      NoDuplicatesSize(s[1..]);
      assert Elements(s) == {s[0]} + Elements(s[1..]);
      assert s[0] !in Elements(s[1..]);
    } else {
      assert Elements(s) == {};
    }
  }

  lemma QuotientUnique(x: int, n: int, q: int, r: int)
    requires n > 0 && 0 <= r < n && x == q * n + r
    ensures q == x / n && r == x % n
  {
    Congruent(x, r, q, n);
    ModSmall(r, n);
    assert x == n * (x / n) + x % n;
    assert n * (q - x / n) == 0 by {
      assert n * (q - x / n) == q * n - n * (x / n);
    }
  }

  lemma SubsetSize<T>(s: set<T>, t: set<T>)
    requires s <= t
    ensures |s| <= |t|
  {
    assert t == s + (t - s);
  }

  lemma SubsetSameSize(a: set<int>, b: set<int>)
    requires a <= b && |a| == |b|
    ensures a == b
  {
    assert |b - a| == |b| - |a|;
    assert b - a == {};
  }

  lemma MultiplesPermute(a: int, p: int)
    requires IsPrime(p) && a % p != 0
    ensures multiset(Multiples(a, p - 1, p)) == multiset(UpTo(p - 1))
  {
    var s, t := Multiples(a, p - 1, p), UpTo(p - 1);
    forall i, j | 0 <= i < j < |s| ensures s[i] != s[j] {
      if s[i] == s[j] {
        Cancel(p, a, i + 1, j + 1);
        ModSmall(i + 1, p);
        ModSmall(j + 1, p);
      }
    }
    forall i | 0 <= i < |s| ensures s[i] in t {
      if s[i] == 0 {
        Euclid(p, a, i + 1);
        ModSmall(i + 1, p);
      }
      assert t[s[i] - 1] == s[i];
    }
    NoDuplicatesSize(s);
    NoDuplicatesSize(t);
    SubsetSameSize(Elements(s), Elements(t));
    forall x ensures multiset(s)[x] == multiset(t)[x] {
      NoDuplicatesMultiplicity(s, x);
      NoDuplicatesMultiplicity(t, x);
      assert x in s <==> x in Elements(s);
      assert x in t <==> x in Elements(t);
    }
  }

  lemma MultiplesSnoc(a: int, n: nat, m: int)
    requires m > 0 && n > 0
    ensures Multiples(a, n, m) == Multiples(a, n - 1, m) + [(a * n) % m]
    ensures UpTo(n) == UpTo(n - 1) + [n]
  {}

  lemma ProductSnoc(s: seq<int>, x: int)
    ensures Product(s + [x]) == Product(s) * x
  {
    hide *;
    ProductConcat(s, [x]);
    assert [x] == [x] + [];
    ProductCons(x, []);
    ProductEmpty();
  }

  lemma ProductEmpty()
    ensures Product([]) == 1
  {}

  lemma PowUnfold(b: int, e: nat)
    ensures Pow(b, e) == if e == 0 then 1 else b * Pow(b, e - 1)
  {}

  lemma {:induction false} ProductMultiples(a: int, n: nat, m: int)
    requires m > 0
    ensures Product(Multiples(a, n, m)) % m == (Pow(a, n) * Product(UpTo(n))) % m
  {
    hide *;
    PowUnfold(a, n);
    if n == 0 {
      assert Multiples(a, 0, m) == [] && UpTo(0) == [];
      ProductEmpty();
    } else {
      var s, t := Multiples(a, n - 1, m), UpTo(n - 1);
      ProductMultiples(a, n - 1, m);
      MultiplesSnoc(a, n, m);
      ProductSnoc(s, (a * n) % m);
      ProductSnoc(t, n);
      ModMod(a * n, m);
      ModMul(Product(s), Pow(a, n - 1) * Product(t), (a * n) % m, a * n, m);
      FourProduct(Pow(a, n - 1), Product(t), a, n);
    }
  }

  lemma FourProduct(x: int, y: int, a: int, n: int)
    ensures x * y * (a * n) == (a * x) * (y * n)
  {}

  lemma {:induction false} ProductNonzero(s: seq<int>, p: int)
    requires IsPrime(p) && forall i :: 0 <= i < |s| ==> s[i] % p != 0
    ensures Product(s) % p != 0
  {
    if s != [] {
      ProductNonzero(s[1..], p);
      if Product(s) % p == 0 {
        Euclid(p, s[0], Product(s[1..]));
      }
    }
  }

  lemma Fermat(a: int, p: int)
    requires IsPrime(p) && a % p != 0
    ensures Pow(a, p - 1) % p == 1
  {
    var t := UpTo(p - 1);
    MultiplesPermute(a, p);
    ProductPermutation(Multiples(a, p - 1, p), t);
    ProductMultiples(a, p - 1, p);
    forall i | 0 <= i < |t| ensures t[i] % p != 0 {
      ModSmall(i + 1, p);
    }
    ProductNonzero(t, p);
    assert Product(t) * 1 == Product(t);
    assert Product(t) * Pow(a, p - 1) == Pow(a, p - 1) * Product(t);
    Cancel(p, Product(t), Pow(a, p - 1), 1);
    ModSmall(1, p);
  }

  // ------------------------------------------------------------ Proth's criterion

  /** Splits off the powers of two. */
  lemma {:induction false} OddPart(n: int) returns (s: nat, m: int)
    requires n >= 1
    ensures m >= 1 && m % 2 == 1 && n == Pow(2, s) * m
    decreases n
  {
    if n % 2 == 1 {
      s, m := 0, n;
    } else {
      s, m := OddPart(n / 2);
      s := s + 1;
      assert Pow(2, s) * m == 2 * (Pow(2, s - 1) * m);
    }
  }

  lemma {:induction false} MinusOneOdd(b: int, m: int, r: int)
    requires r >= 2 && m >= 1 && m % 2 == 1 && b % r == r - 1
    ensures Pow(b, m) % r == r - 1
  {
    assert b % r == (-1) % r by {
      Congruent(r - 1, -1, 1, r);
      ModSmall(r - 1, r);
    }
    PowMod(b, -1, m, r);
    MinusOnePower(m);
    Congruent(-1, r - 1, -1, r);
    ModSmall(r - 1, r);
  }

  lemma {:induction false} MinusOnePower(m: nat)
    ensures Pow(-1, m) == if m % 2 == 1 then -1 else 1
  {
    if m > 0 { MinusOnePower(m - 1); }
  }

  lemma ModOfDivisor(a: int, n: int, r: int)
    requires n > 0 && r > 0 && n % r == 0
    ensures (a % n) % r == a % r
  {
    assert a == n * (a / n) + a % n;
    assert n == r * (n / r);
    assert n * (a / n) == r * ((n / r) * (a / n));
    Congruent(a, a % n, (n / r) * (a / n), r);
  }

  /** If b^(2^j) = -1 modulo a prime r > 2, then 2^(j+1) divides r - 1. */
  lemma OrderDivides(b: int, j: nat, r: int)
    requires IsPrime(r) && r > 2 && Pow(b, Pow2(j)) % r == r - 1
    ensures r - 1 >= Pow2(j + 1)
  {
    if b % r == 0 {
      PowMod(b, 0, Pow2(j), r);
      assert Pow(0, Pow2(j)) == 0;
      assert false;
    }
    Fermat(b, r);
    var s, m := OddPart(r - 1);
    Pow2IsPow(s);
    if s <= j {
      // b^(2^j * m) is (-1)^m and also a power of b^(r-1)
      MinusOneOdd(Pow(b, Pow2(j)), m, r);
      PowMul(b, Pow2(j), m);
      HalvesToOne(b, j, s, m, r);
      assert false;
    } else {
      Pow2Monotone(j + 1, s);
      TimesAtLeast(Pow2(s), m);
    }
  }

  lemma TimesAtLeast(x: int, m: int)
    requires x >= 0 && m >= 1
    ensures x * m >= x
  {}

  lemma HalvesToOne(b: int, j: nat, s: nat, m: nat, r: int)
    requires s <= j && r > 1 && Pow2(s) * m == r - 1 && Pow(b, r - 1) % r == 1
    ensures Pow2(j) * m >= 0 && Pow(b, Pow2(j) * m) % r == 1
  {
    var k := Pow2(j - s);
    Pow2Add(s, j - s);
    MulRegroup(Pow2(s), k, m);
    PowOfOne(b, r - 1, k, r);
  }

  lemma MulRegroup(a: int, b: int, c: int)
    ensures (a * b) * c == (a * c) * b
  {}

  lemma PowOfOne(b: int, e: nat, k: nat, r: int)
    requires r > 1 && Pow(b, e) % r == 1
    ensures e * k >= 0 && Pow(b, e * k) % r == 1
  {
    PowMul(b, e, k);
    ModSmall(1, r);
    PowMod(Pow(b, e), 1, k, r);
    PowOne(k);
  }

  /** A prime r dividing n, where b^(2^j) = -1 mod n, exceeds 2^(j+1). */
  lemma ProthFactor(n: int, b: int, j: nat, r: int)
    requires n >= 3 && n % 2 == 1 && IsPrime(r) && Divides(r, n)
    requires Pow(b, Pow2(j)) % n == n - 1
    ensures r - 1 >= Pow2(j + 1)
  {
    var c := Pow(b, Pow2(j));
    ModOfDivisor(c, n, r);
    Congruent(n - 1, r - 1, n / r - 1, r);
    ModSmall(r - 1, r);
    OrderDivides(b, j, r);
  }

  lemma Pow2Unfold(k: nat)
    requires k > 0
    ensures Pow2(k) == 2 * Pow2(k - 1)
  {}

  lemma {:induction false} Pow2IsPow(k: nat)
    ensures Pow2(k) == Pow(2, k)
  {
    if k > 0 { Pow2IsPow(k - 1); }
  }

  lemma {:induction false} Pow2Add(a: nat, b: nat)
    ensures Pow2(a + b) == Pow2(a) * Pow2(b)
  {
    if a > 0 { Pow2Add(a - 1, b); }
  }

  lemma {:induction false} Pow2Monotone(a: nat, b: nat)
    requires a <= b
    ensures Pow2(a) <= Pow2(b)
  {
    if a < b {
      Pow2Monotone(a, b - 1);
    }
  }

  lemma DividesTransitive(e: int, d: int, n: int)
    requires e > 0 && d > 0 && n > 0 && Divides(e, d) && Divides(d, n)
    ensures Divides(e, n)
  {
    ModOfDivisor(n, d, e);
    assert n == d * (n / d) && d == e * (d / e);
    assert n == e * ((d / e) * (n / d));
    MultipleIsZero((d / e) * (n / d), e);
  }

  lemma {:induction false} LeastDivisor(n: int, bound: int) returns (d: int)
    requires n >= 2 && 2 <= bound <= n && forall e :: 2 <= e < bound ==> !Divides(e, n)
    ensures 2 <= d <= n && Divides(d, n) && IsPrime(d)
    ensures forall e :: 2 <= e < d ==> !Divides(e, n)
    decreases n - bound
  {
    if Divides(bound, n) {
      d := bound;
      forall e | 2 <= e < d ensures !Divides(e, d) {
        if Divides(e, d) { DividesTransitive(e, d, n); }
      }
    } else {
      if bound == n { MultipleIsZero(1, n); }
      d := LeastDivisor(n, bound + 1);
    }
  }

  /** Proth: an odd n below (2^(j+1) + 1)^2 with b^(2^j) = -1 mod n is prime. */
  lemma Proth(n: int, b: int, j: nat)
    requires n >= 3 && n % 2 == 1 && Pow(b, Pow2(j)) % n == n - 1
    requires n < (Pow2(j + 1) + 1) * (Pow2(j + 1) + 1)
    ensures IsPrime(n)
  {
    var d := LeastDivisor(n, 2);
    if d < n {
      ProthFactor(n, b, j, d);
      var e := n / d;
      assert n == d * e;
      CofactorAtLeast(n, d, e);
      MulMonotone(Pow2(j + 1) + 1, d, Pow2(j + 1) + 1, e);
      assert false;
    }
  }

  lemma CofactorAtLeast(n: int, d: int, e: int)
    requires 2 <= d < n && n == d * e && forall x :: 2 <= x < d ==> !Divides(x, n)
    ensures e >= d
  {
    assert e >= 2 by {
      assert e <= 1 ==> d * e <= d;
    }
    assert n == e * d;
    MultipleIsZero(d, e);
    assert Divides(e, n);
  }

  lemma MulMonotone(a: int, b: int, c: int, d: int)
    requires 0 <= a <= b && 0 <= c <= d
    ensures a * c <= b * d
  {
    assert a * c <= b * c <= b * d;
  }
}
