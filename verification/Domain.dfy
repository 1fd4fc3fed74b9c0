/** The evaluation domains of prover/protocol.py. */
module Domain {
  // Message points at the K-th roots of unity, codeword points on a coset of the N-th roots, proved
  // distinct and disjoint from the one computed fact 7^((P-1)/2) = -1.

  import opened NumberTheory
  import opened Field

  /** ELL message slots, K = 2^kLog coefficients, N = 2^nLog columns. */
  datatype Config = Config(ELL: nat, kLog: nat, nLog: nat) {
    ghost predicate Valid() {
      0 < ELL <= K() && kLog <= nLog <= 31
    }

    function K(): nat { Pow2(kLog) }
    function N(): nat { Pow2(nLog) }

    /** Message point c: the c-th power of the K-th root of unity. */
    function Zeta(c: nat): int { Pow(Root(kLog), c) % P }

    /** Codeword point j, on the coset of the generator. */
    function Eta(j: nat): int { (GENERATOR * (Pow(Root(nLog), j) % P)) % P }
  }

  const GENERATOR := 7

  /** pow(GLOBAL_G, (P - 1) // 2^k, P) */
  function Root(k: nat): int {
    Pow(GENERATOR, RootExp(k)) % P
  }

  function RootExp(k: nat): nat {
    QuotientNonnegative(P - 1, Pow2(k));
    (P - 1) / Pow2(k)
  }

  lemma QuotientNonnegative(n: int, d: int)
    requires n >= 0 && d > 0
    ensures n / d >= 0
  {}

  // -------------------------------------------------------- orders of the roots

  lemma RootExponent(k: nat)
    requires k <= 32
    ensures RootExp(k) == 0xFFFF_FFFF * Pow2(32 - k) && RootExp(k) * Pow2(k) == P - 1
  {
    hide Pow2, Pow;
    Pow2Values();
    Pow2Add(k, 32 - k);
    PValue();
    ExactQuotient(P - 1, Pow2(k), 0xFFFF_FFFF * Pow2(32 - k));
  }

  lemma PValue()
    ensures P - 1 == 0xFFFF_FFFF * 0x1_0000_0000
  {}

  lemma ExactQuotient(n: int, d: int, q: int)
    requires d > 0 && n == q * d
    ensures n / d == q
  {
    assert n == d * (n / d) + n % d;
    assert n % d == 0 by { Congruent(n, 0, q, d); }
    assert d * (n / d - q) == 0 by { assert d * (n / d - q) == d * (n / d) - q * d; }
  }

  lemma RootToTheFull(k: nat)
    requires k <= 32
    ensures Pow(Root(k), Pow2(k)) % P == 1
  {
    var e := RootExp(k);
    RootExponent(k);
    PowMul(GENERATOR, e, Pow2(k));
    ModMod(Pow(GENERATOR, e), P);
    PowMod(Root(k), Pow(GENERATOR, e), Pow2(k), P);
    GoldilocksIsPrime();
    ModSmall(GENERATOR, P);
    Fermat(GENERATOR, P);
  }

  lemma RootToTheHalf(k: nat)
    requires 1 <= k <= 32
    ensures Pow(Root(k), Pow2(k - 1)) % P == P - 1
  {
    var g, e := HalfOrder();
    var q := RootExp(k);
    RootExponent(k);
    hide *;
    HalfExponent(g, e, k, q);
    RootIsPower(k, g, q);
    PowMod(Root(k), Pow(g, q), Pow2(k - 1), P);
    PowMul(g, q, Pow2(k - 1));
  }

  lemma RootIsPower(k: nat, g: int, q: nat)
    requires g == 7 && q == RootExp(k)
    ensures P > 0 && Root(k) % P == Pow(g, q) % P
  {
    ModMod(Pow(GENERATOR, q), P);
  }

  lemma HalfExponent(g: int, e: nat, k: nat, q: nat)
    requires 1 <= k <= 32 && q == e * Pow2(32 - k) && P > 0 && Pow(Pow(g, e), Pow2(31)) % P == P - 1
    ensures q * Pow2(k - 1) >= 0 && Pow(g, q * Pow2(k - 1)) % P == P - 1
  {
    hide *;
    Pow2Add(32 - k, k - 1);
    PowMul(g, e, Pow2(31));
    TripleProduct(e, Pow2(32 - k), Pow2(k - 1));
  }

  lemma TripleProduct(a: nat, b: nat, c: nat)
    ensures (a * b) * c == a * (b * c) >= 0
  {}

  /** The K-th root has order exactly K. */
  lemma RootOrder(k: nat, d: nat)
    requires k <= 32 && 0 < d < Pow2(k)
    ensures Pow(Root(k), d) % P != 1
  {
    var w := Root(k);
    var s, m := OddPart(d);
    Pow2IsPow(s);
    OddPartBelow(s, m, d, k);
    RootToTheHalf(k);
    if Pow(w, d) % P == 1 {
      // w^(d * 2^(k-1-s)) is both 1 and (-1)^m
      PowOfOne(w, d, Pow2(k - 1 - s), P);
      MinusOneOdd(Pow(w, Pow2(k - 1)), m, P);
      PowMul(w, Pow2(k - 1), m);
      HalfTimesOdd(s, k - 1 - s, m, d);
      assert false;
    }
  }

  lemma OddPartBelow(s: nat, m: nat, d: nat, k: nat)
    requires d == Pow2(s) * m && m >= 1 && d < Pow2(k)
    ensures s < k
  {
    if s >= k {
      Pow2Monotone(k, s);
      TimesAtLeast(Pow2(s), m);
    }
  }

  lemma HalfTimesOdd(s: nat, t: nat, m: nat, d: nat)
    requires d == Pow2(s) * m
    ensures Pow2(s + t) * m == d * Pow2(t)
  {
    hide *;
    Pow2Add(s, t);
    MulRegroup(Pow2(s), Pow2(t), m);
  }

  lemma PowersDistinct(k: nat, i: nat, j: nat)
    requires k <= 32 && i < j < Pow2(k)
    ensures Pow(Root(k), i) % P != Pow(Root(k), j) % P
  {
    var w := Root(k);
    if Pow(w, i) % P == Pow(w, j) % P {
      PowAdd(w, i, j - i);
      PowNonzero(k, i);
      GoldilocksIsPrime();
      assert Pow(w, i) * 1 == Pow(w, i);
      Cancel(P, Pow(w, i), 1, Pow(w, j - i));
      ModSmall(1, P);
      RootOrder(k, j - i);
    }
  }

  lemma RootNonzero(k: nat)
    requires k <= 32
    ensures Root(k) % P != 0
  {
    RootToTheFull(k);
    if Root(k) % P == 0 {
      PowMod(Root(k), 0, Pow2(k), P);
      ZeroPow(Pow2(k));
      assert false;
    }
  }

  lemma ZeroPow(e: nat)
    requires e > 0
    ensures Pow(0, e) == 0
  {}

  lemma {:induction false} PowNonzero(k: nat, i: nat)
    requires k <= 32
    ensures Pow(Root(k), i) % P != 0
  {
    RootNonzero(k);
    if i > 0 {
      PowNonzero(k, i - 1);
      GoldilocksIsPrime();
      if Pow(Root(k), i) % P == 0 { Euclid(P, Root(k), Pow(Root(k), i - 1)); }
    } else {
      ModSmall(1, P);
    }
  }

  // ------------------------------------------------------------ the two domains

  lemma ZetaDistinct(cfg: Config, c: nat, d: nat)
    requires cfg.Valid() && c < d < cfg.K()
    ensures cfg.Zeta(c) != cfg.Zeta(d)
  {
    PowersDistinct(cfg.kLog, c, d);
  }

  lemma EtaDistinct(cfg: Config, i: nat, j: nat)
    requires cfg.Valid() && i < j < cfg.N()
    ensures cfg.Eta(i) != cfg.Eta(j)
  {
    var a, b := Pow(Root(cfg.nLog), i) % P, Pow(Root(cfg.nLog), j) % P;
    PowersDistinct(cfg.nLog, i, j);
    ScaledDistinct(a, b);
  }

  lemma ScaledDistinct(a: int, b: int)
    requires 0 <= a < P && 0 <= b < P && a != b
    ensures (GENERATOR * a) % P != (GENERATOR * b) % P
  {
    GoldilocksIsPrime();
    if (GENERATOR * a) % P == (GENERATOR * b) % P {
      Cancel(P, GENERATOR, a, b);
    }
  }

  lemma ZetaToTheK(cfg: Config, c: nat)
    requires cfg.Valid()
    ensures Pow(cfg.Zeta(c), cfg.K()) % P == 1
  {
    var w, k := Root(cfg.kLog), Pow2(cfg.kLog);
    ModMod(Pow(w, c), P);
    PowMod(cfg.Zeta(c), Pow(w, c), k, P);
    PowMul(w, c, k);
    RootToTheFull(cfg.kLog);
    PowOfOne(w, k, c, P);
    assert c * k == k * c;
  }

  lemma ZetaToTheN(cfg: Config, c: nat)
    requires cfg.Valid()
    ensures Pow(cfg.Zeta(c), cfg.N()) % P == 1
  {
    ZetaToTheK(cfg, c);
    Pow2Add(cfg.kLog, cfg.nLog - cfg.kLog);
    PowOfOne(cfg.Zeta(c), cfg.K(), Pow2(cfg.nLog - cfg.kLog), P);
  }

  /** On the coset, every N-th power is the generator's, which is not one. */
  lemma EtaToTheN(cfg: Config, j: nat)
    requires cfg.Valid()
    ensures Pow(cfg.Eta(j), cfg.N()) % P != 1
  {
    GeneratorToTheN(cfg.nLog);
    RootToTheFull(cfg.nLog);
    CosetPower(cfg, j);
    hide *;
    PIsPositive();
    var w, n := Root(cfg.nLog), Pow2(cfg.nLog);
    PowOfOne(w, n, j, P);
    PowMul(w, j, n);
    TimesCommute(j, n);
    OneTimes(P, Pow(Pow(w, j), n), Pow(GENERATOR, n));
  }

  lemma CosetPower(cfg: Config, j: nat)
    ensures Pow(cfg.Eta(j), Pow2(cfg.nLog)) % P
            == (Pow(Pow(Root(cfg.nLog), j), Pow2(cfg.nLog)) * Pow(GENERATOR, Pow2(cfg.nLog))) % P
    ensures cfg.N() == Pow2(cfg.nLog)
  {
    hide Pow, Pow2, Root;
    var n, x := Pow2(cfg.nLog), Pow(Root(cfg.nLog), j);
    ModMod(x, P);
    ModMod(GENERATOR * (x % P), P);
    ModMul(GENERATOR, GENERATOR, x % P, x, P);
    PowMod(cfg.Eta(j), GENERATOR * x, n, P);
    PowProduct(GENERATOR, x, n);
    TimesCommute(Pow(GENERATOR, n), Pow(x, n));
  }

  lemma GeneratorToTheN(n: nat)
    requires n <= 31
    ensures Pow(GENERATOR, Pow2(n)) % P != 1
  {
    var g, e := HalfOrder();
    if Pow(g, Pow2(n)) % P == 1 {
      PowOfOne(g, Pow2(n), Pow2(31 - n), P);
      Pow2Add(n, 31 - n);
      PowOfOne(g, Pow2(31), e, P);
      PowMul(g, e, Pow2(31));
      assert e * Pow2(31) == Pow2(31) * e;
    }
  }

  lemma Disjoint(cfg: Config, c: nat, j: nat)
    requires cfg.Valid()
    ensures cfg.Eta(j) != cfg.Zeta(c)
  {
    ZetaToTheN(cfg, c);
    EtaToTheN(cfg, j);
  }
}
