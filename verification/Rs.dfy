/** layergkr/rs.py: the Reed-Solomon code. */
module Rs {
  // Messages sit at the K-th roots of unity, codewords on a coset; the batched Lagrange matrix is
  // evaluation of one interpolating polynomial, two codewords agree in fewer than K columns, and the code
  // is linear, padding included.

  import opened NumberTheory
  import opened Field
  import opened Polynomial
  import opened Domain

  // ------------------------------------------------------ the Lagrange basis

  /** (X^n - z^n) / (X - z): coefficients z^(n-1), ..., z, 1. */
  function Geo(z: int, n: nat): (c: seq<int>)
    ensures |c| == n
  {
    if n == 0 then [] else [Pow(z, n - 1)] + Geo(z, n - 1)
  }

  lemma {:induction false} GeoTelescopes(z: int, n: nat, x: int)
    ensures (x - z) * Eval(Geo(z, n), x) == Pow(x, n) - Pow(z, n)
  {
    if n > 0 {
      GeoTelescopes(z, n - 1, x);
      EvalCons(Pow(z, n - 1), Geo(z, n - 1), x);
      PowUnfold(x, n);
      PowUnfold(z, n);
      GeoAlgebra(x, z, Pow(z, n - 1), Eval(Geo(z, n - 1), x), Pow(x, n - 1));
    }
  }

  lemma GeoAlgebra(x: int, z: int, zn: int, e: int, xn: int)
    requires (x - z) * e == xn - zn
    ensures (x - z) * (zn + x * e) == x * xn - z * zn
  {
    assert (x - z) * (zn + x * e) == (x - z) * zn + x * ((x - z) * e);
  }

  lemma {:induction false} GeoAtItself(z: int, n: nat)
    ensures z * Eval(Geo(z, n), z) == n * Pow(z, n)
  {
    if n > 0 {
      GeoAtItself(z, n - 1);
      EvalCons(Pow(z, n - 1), Geo(z, n - 1), z);
      PowUnfold(z, n);
      SelfAlgebra(z, Pow(z, n - 1), Eval(Geo(z, n - 1), z), n);
    }
  }

  lemma SelfAlgebra(z: int, p: int, e: int, n: int)
    requires z * e == (n - 1) * p
    ensures z * (p + z * e) == n * (z * p)
  {
    assert z * (z * e) == z * ((n - 1) * p) == (n - 1) * (z * p);
  }

  /** The polynomial of degree K-1 that is one at message point c and zero at the others. */
  function Basis(cfg: Config, c: nat): (p: seq<int>)
    ensures |p| == cfg.K()
  {
    Scale(cfg.Zeta(c) * Inv(cfg.K()), Geo(cfg.Zeta(c), cfg.K()))
  }

  lemma KIsUnit(cfg: Config)
    requires cfg.Valid()
    ensures 0 < cfg.K() < P && cfg.K() <= cfg.N() && cfg.K() % P != 0 && (cfg.K() * Inv(cfg.K())) % P == 1
  {
    Pow2Monotone(cfg.kLog, 31);
    Pow2Monotone(cfg.kLog, cfg.nLog);
    Pow2Values();
    ModSmall(cfg.K(), P);
    InvCorrect(cfg.K());
  }

  lemma BasisEval(cfg: Config, c: nat, x: int)
    ensures Eval(Basis(cfg, c), x) == cfg.Zeta(c) * Inv(cfg.K()) * Eval(Geo(cfg.Zeta(c), cfg.K()), x)
  {
    hide Config.Zeta, Eval, Geo, Inv, Pow2;
    EvalScale(cfg.Zeta(c) * Inv(cfg.K()), Geo(cfg.Zeta(c), cfg.K()), x);
  }

  lemma BasisIsDelta(cfg: Config, c: nat, d: nat)
    requires cfg.Valid() && c < cfg.K() && d < cfg.K()
    ensures Eval(Basis(cfg, c), cfg.Zeta(d)) % P == if c == d then 1 else 0
  {
    var z, x, k := cfg.Zeta(c), cfg.Zeta(d), cfg.K();
    BasisEval(cfg, c, x);
    KIsUnit(cfg);
    ZetaToTheK(cfg, c);
    ZetaToTheK(cfg, d);
    PointsReduced(cfg, 0, c);
    PointsReduced(cfg, 0, d);
    hide *;
    PIsPositive();
    var e := Eval(Geo(z, k), x);
    if c == d {
      GeoAtItself(z, k);
      DeltaOne(z, k, Inv(k), e, Pow(z, k));
    } else {
      GeoTelescopes(z, k, x);
      if c < d { ZetaDistinct(cfg, c, d); } else { ZetaDistinct(cfg, d, c); }
      ModSub(Pow(x, k), Pow(z, k), Pow(z, k), Pow(z, k), P);
      SelfDifference(Pow(z, k));
      NoZeroDivisor(x, z, e);
      ZeroTimes(P, e, z * Inv(k));
      TimesCommute(e, z * Inv(k));
    }
  }

  lemma SelfDifference(a: int)
    ensures (a - a) % P == 0
  {}

  lemma DeltaOne(z: int, k: int, ik: int, e: int, zk: int)
    requires z * e == k * zk && zk % P == 1 && (k * ik) % P == 1
    ensures (z * ik * e) % P == 1
  {
    OneTimes(P, k * ik, zk);
    assert z * ik * e == (k * ik) * zk by {
      assert z * ik * e == ik * (z * e);
    }
  }

  /** One cell as the batched build computes it: zeta*num % P * inv % P. */
  function Cell(cfg: Config, j: nat, c: nat, inverse: int): int {
    (cfg.Zeta(c) * ((Pow(cfg.Eta(j), cfg.K()) % P - 1) % P) % P) * inverse % P
  }

  function Denominator(cfg: Config, j: nat, c: nat): int {
    (cfg.K() % P) * ((cfg.Eta(j) - cfg.Zeta(c)) % P) % P
  }

  lemma DenominatorNonzero(cfg: Config, j: nat, c: nat)
    requires cfg.Valid()
    ensures Denominator(cfg, j, c) % P != 0
    ensures Inv(Denominator(cfg, j, c)) == (Inv(cfg.K()) * Inv(cfg.Eta(j) - cfg.Zeta(c))) % P
    ensures (cfg.Eta(j) - cfg.Zeta(c)) % P != 0
  {
    hide Pow, Pow2, Inv, Config.Eta, Config.Zeta;
    var k, d := cfg.K(), cfg.Eta(j) - cfg.Zeta(c);
    KIsUnit(cfg);
    Disjoint(cfg, c, j);
    PointsReduced(cfg, j, c);
    DistinctDiffer(cfg.Eta(j), cfg.Zeta(c));
    ProductReduced(k, d);
    GoldilocksIsPrime();
    if (k * d) % P == 0 { Euclid(P, k, d); }
    InvMod(k * d);
    InvProduct(k, d);
  }

  lemma PointsReduced(cfg: Config, j: nat, c: nat)
    ensures 0 <= cfg.Eta(j) < P && 0 <= cfg.Zeta(c) < P
  {}

  lemma DistinctDiffer(a: int, b: int)
    requires 0 <= a < P && 0 <= b < P && a != b
    ensures (a - b) % P != 0
  {
    DiffZero(a, b, P);
    ModSmall(a, P);
    ModSmall(b, P);
  }

  lemma ProductReduced(a: int, b: int)
    ensures ((a % P) * (b % P)) % P == (a * b) % P
    ensures (((a % P) * (b % P)) % P) % P == (a * b) % P
  {
    ModMod(a, P);
    ModMod(b, P);
    ModMul(a % P, a, b % P, b, P);
    ModMod((a % P) * (b % P), P);
  }

  /** The batched cell is the basis polynomial evaluated at the codeword point. */
  lemma CellIsBasis(cfg: Config, j: nat, c: nat)
    requires cfg.Valid()
    ensures Cell(cfg, j, c, Inv(Denominator(cfg, j, c))) == Eval(Basis(cfg, c), cfg.Eta(j)) % P
  {
    var z, x, k := cfg.Zeta(c), cfg.Eta(j), cfg.K();
    var e := Eval(Geo(z, k), x);
    CellUnfold(cfg, j, c, Inv(Denominator(cfg, j, c)));
    hide *;
    PIsPositive();
    BasisEval(cfg, c, x);
    GeoTelescopes(z, k, x);
    ZetaToTheK(cfg, c);
    DenominatorNonzero(cfg, j, c);
    InvCorrect(x - z);
    CellNumerator(Pow(x, k), Pow(z, k), (x - z) * e);
    CellAlgebra(z, (Pow(x, k) % P - 1) % P, Inv(Denominator(cfg, j, c)), Inv(k), x - z, Inv(x - z), e);
  }

  lemma CellUnfold(cfg: Config, j: nat, c: nat, iv: int)
    ensures Cell(cfg, j, c, iv) == ((cfg.Zeta(c) * ((Pow(cfg.Eta(j), cfg.K()) % P - 1) % P) % P) * iv) % P
    ensures Inv(Denominator(cfg, j, c)) % P == Inv(Denominator(cfg, j, c))
  {
    hide Inv, Denominator, Config.Eta, Config.Zeta, Config.K, Pow;
    ModSmall(Inv(Denominator(cfg, j, c)), P);
  }

  lemma CellNumerator(xk: int, zk: int, d: int)
    requires zk % P == 1 && d == xk - zk
    ensures ((xk % P - 1) % P) % P == d % P
  {
    ModMod(xk, P);
    ModSmall(1, P);
    ModSub(xk % P, xk, 1, zk, P);
    ModMod(xk % P - 1, P);
  }

  lemma CellAlgebra(z: int, num: int, iv: int, ik: int, d: int, id: int, e: int)
    requires num % P == (d * e) % P && iv % P == (ik * id) % P && (d * id) % P == 1
    ensures ((z * num % P) * iv) % P == (z * ik * e) % P
  {
    hide *;
    PIsPositive();
    ModMod(z * num, P);
    ModMul(z, z, num, d * e, P);
    ModMul((z * num) % P, z * (d * e), iv, ik * id, P);
    Regroup5(z, d, e, ik, id);
    OneTimes(P, d * id, z * ik * e);
  }

  lemma Regroup5(z: int, d: int, e: int, ik: int, id: int)
    ensures (z * (d * e)) * (ik * id) == (d * id) * (z * ik * e)
  {
    assert (z * (d * e)) * (ik * id) == ((z * e) * (ik)) * (d * id);
  }

  ghost predicate IsLagrangeRow(cfg: Config, j: nat, row: seq<int>) {
    |row| == cfg.ELL && forall c :: 0 <= c < cfg.ELL ==> row[c] == Eval(Basis(cfg, c), cfg.Eta(j)) % P
  }

  ghost predicate IsLagrangeMatrix(cfg: Config, L: seq<seq<int>>) {
    |L| == cfg.N() && forall j :: 0 <= j < |L| ==> IsLagrangeRow(cfg, j, L[j])
  }

  /** One column of cells: all its denominators are inverted together. */
  method LagrangeRow(cfg: Config, zetas: seq<int>, j: nat) returns (row: seq<int>)
    requires cfg.Valid() && |zetas| == cfg.ELL && forall c :: 0 <= c < cfg.ELL ==> zetas[c] == cfg.Zeta(c)
    ensures IsLagrangeRow(cfg, j, row)
  {
    hide Inv, Pow, Pow2, Basis, Config.Eta, Config.Zeta;
    var eta := cfg.Eta(j);
    var num := (Pow(eta, cfg.K()) % P - 1) % P;
    var kMod := cfg.K() % P;
    var dens := [];
    for c := 0 to |zetas|
      invariant |dens| == c && forall i :: 0 <= i < c ==> dens[i] == Denominator(cfg, j, i)
    {
      dens := dens + [kMod * ((eta - zetas[c]) % P) % P];
    }
    forall c | 0 <= c < |dens| ensures dens[c] % P != 0 {
      DenominatorNonzero(cfg, j, c);
    }
    var invs := BatchInv(dens);
    row := [];
    for c := 0 to |zetas|
      invariant |row| == c && forall i :: 0 <= i < c ==> row[i] == Eval(Basis(cfg, i), cfg.Eta(j)) % P
    {
      CellIsBasis(cfg, j, c);
      row := row + [(zetas[c] * num % P) * invs[c] % P];
    }
  }

  method BuildLagrange(cfg: Config) returns (L: seq<seq<int>>)
    requires cfg.Valid()
    ensures IsLagrangeMatrix(cfg, L)
  {
    var zetas := seq(cfg.ELL, c requires 0 <= c < cfg.ELL => cfg.Zeta(c));
    L := [];
    for j := 0 to cfg.N()
      invariant |L| == j && forall i :: 0 <= i < j ==> IsLagrangeRow(cfg, i, L[i])
    {
      var row := LagrangeRow(cfg, zetas, j);
      L := L + [row];
    }
  }

  // ------------------------------------------------------------------ encoding

  datatype Result<T> = Ok(value: T) | ValueError

  /** The interpolant: value m[c] at message point c, zero at every other K-th root. */
  function MessagePoly(cfg: Config, m: seq<int>): (p: seq<int>)
    ensures |p| <= cfg.K()
  {
    if m == [] then []
    else Add(MessagePoly(cfg, m[..|m| - 1]), Scale(m[|m| - 1], Basis(cfg, |m| - 1)))
  }

  lemma {:induction false} MessagePolyAtZeta(cfg: Config, m: seq<int>, d: nat)
    requires cfg.Valid() && |m| <= cfg.K() && d < cfg.K()
    ensures Eval(MessagePoly(cfg, m), cfg.Zeta(d)) % P == At(m, d) % P
  {
    hide *;
    PIsPositive();
    AtPrefix(m, d);
    if m == [] {
      MessagePolyEmpty(cfg, cfg.Zeta(d));
    } else {
      var n := |m| - 1;
      MessagePolyAtZeta(cfg, m[..n], d);
      BasisIsDelta(cfg, n, d);
      MessagePolyStep(cfg, m, n, cfg.Zeta(d));
      AddDelta(Eval(MessagePoly(cfg, m[..n]), cfg.Zeta(d)), At(m[..n], d), Eval(Basis(cfg, n), cfg.Zeta(d)), m[n], n == d);
    }
  }

  lemma AtPrefix(m: seq<int>, d: nat)
    ensures m == [] ==> At(m, d) == 0
    ensures m != [] ==> At(m, d) == if d == |m| - 1 then m[d] else At(m[..|m| - 1], d)
    ensures m != [] && d == |m| - 1 ==> At(m[..|m| - 1], d) == 0
  {}

  lemma AddDelta(e: int, a: int, b: int, v: int, hit: bool)
    requires b % P == (if hit then 1 else 0) && e % P == a % P && (hit ==> a == 0)
    ensures (e + v * b) % P == (if hit then v else a) % P
  {
    TimesCommute(b, v);
    if hit {
      OneTimes(P, b, v);
      ModAdd(e, 0, b * v, v, P);
    } else {
      ZeroTimes(P, b, v);
      ModAdd(e, a, b * v, 0, P);
    }
  }

  lemma MessagePolyStep(cfg: Config, m: seq<int>, n: nat, x: int)
    requires n + 1 == |m|
    ensures Eval(MessagePoly(cfg, m), x) == Eval(MessagePoly(cfg, m[..n]), x) + m[n] * Eval(Basis(cfg, n), x)
  {
    hide Basis, Eval, Add, Scale;
    EvalAdd(MessagePoly(cfg, m[..n]), Scale(m[n], Basis(cfg, n)), x);
    EvalScale(m[n], Basis(cfg, n), x);
  }

  /** A word of the code: N evaluations of one polynomial with at most K coefficients. */
  function Word(cfg: Config, p: seq<int>): (w: seq<int>)
    ensures |w| == cfg.N() && forall j :: 0 <= j < |w| ==> w[j] == Eval(p, cfg.Eta(j)) % P
  {
    seq(cfg.N(), j requires 0 <= j < cfg.N() => Eval(p, cfg.Eta(j)) % P)
  }

  function Codeword(cfg: Config, m: seq<int>): seq<int> {
    Word(cfg, MessagePoly(cfg, m))
  }

  lemma {:induction false} PaddingIsFree(cfg: Config, m: seq<int>, n: nat, x: int)
    requires |m| <= n
    ensures Eval(MessagePoly(cfg, Padded(m, n)), x) == Eval(MessagePoly(cfg, m), x)
    decreases n
  {
    if |m| < n {
      PaddingIsFree(cfg, m, n - 1, x);
      MessagePolyStep(cfg, Padded(m, n), n - 1, x);
      assert Padded(m, n)[..n - 1] == Padded(m, n - 1);
      assert 0 * Eval(Basis(cfg, n - 1), x) == 0;
    }
  }

  /** One position: only the nonzero slots are multiplied. */
  method EncodeColumn(cfg: Config, row: seq<int>, vals: seq<int>, j: nat) returns (v: int)
    requires IsLagrangeRow(cfg, j, row) && |vals| == cfg.ELL
    ensures v == Eval(MessagePoly(cfg, vals), cfg.Eta(j)) % P
  {
    hide MessagePoly, Basis, Eval, Config.Eta;
    var acc := 0;
    MessagePolyEmpty(cfg, cfg.Eta(j));
    assert vals[..0] == [];
    for c := 0 to |vals|
      invariant acc % P == Eval(MessagePoly(cfg, vals[..c]), cfg.Eta(j)) % P
    {
      EncodeStep(cfg, vals, c, cfg.Eta(j), acc, row[c]);
      if vals[c] != 0 {
        acc := acc + vals[c] * row[c];
      }
    }
    assert vals[..|vals|] == vals;
    v := acc % P;
  }

  /** A message longer than ELL is refused; any other becomes its codeword. */
  method EncodeRow(cfg: Config, L: seq<seq<int>>, message: seq<int>) returns (r: Result<seq<int>>)
    requires cfg.Valid() && IsLagrangeMatrix(cfg, L)
    ensures r == if |message| > cfg.ELL then ValueError else Ok(Codeword(cfg, message))
  {
    if |message| > cfg.ELL {
      return ValueError;
    }
    hide MessagePoly, Eval, Config.Eta, Pow2, IsLagrangeRow;
    var vals := message + seq(cfg.ELL - |message|, _ => 0);
    assert vals == Padded(message, cfg.ELL);
    var out := [];
    for j := 0 to cfg.N()
      invariant |out| == j
      invariant forall i :: 0 <= i < j ==> out[i] == Eval(MessagePoly(cfg, message), cfg.Eta(i)) % P
    {
      var v := EncodeColumn(cfg, L[j], vals, j);
      PaddingIsFree(cfg, message, cfg.ELL, cfg.Eta(j));
      out := out + [v];
    }
    assert out == Codeword(cfg, message);
    r := Ok(out);
  }

  lemma MessagePolyEmpty(cfg: Config, x: int)
    ensures Eval(MessagePoly(cfg, []), x) == 0
  {}

  lemma EncodeStep(cfg: Config, vals: seq<int>, c: nat, x: int, acc: int, cell: int)
    requires c < |vals| && cell == Eval(Basis(cfg, c), x) % P
    requires acc % P == Eval(MessagePoly(cfg, vals[..c]), x) % P
    ensures (acc + vals[c] * cell) % P == Eval(MessagePoly(cfg, vals[..c + 1]), x) % P
    ensures vals[c] == 0 ==> acc % P == Eval(MessagePoly(cfg, vals[..c + 1]), x) % P
  {
    MessagePolyStep(cfg, vals[..c + 1], c, x);
    assert vals[..c + 1][..c] == vals[..c];
    hide *;
    PIsPositive();
    var b := Eval(Basis(cfg, c), x);
    ModMod(b, P);
    ModMul(vals[c], vals[c], cell, b, P);
    ModAdd(acc, Eval(MessagePoly(cfg, vals[..c]), x), vals[c] * cell, vals[c] * b, P);
    if vals[c] == 0 { TimesZero(cell); }
  }

  // ------------------------------------------------------------------ distance

  ghost predicate IsCodeword(cfg: Config, w: seq<int>) {
    exists p :: |p| <= cfg.K() && w == Word(cfg, p)
  }

  function Agreements(v: seq<int>, w: seq<int>): set<int> {
    set j | 0 <= j < |v| && 0 <= j < |w| && v[j] == w[j]
  }

  function Points(cfg: Config, js: set<int>): set<int>
    requires forall j :: j in js ==> 0 <= j
  {
    set j | j in js :: cfg.Eta(j)
  }

  lemma {:induction false} PointsDistinct(cfg: Config, js: set<int>)
    requires cfg.Valid() && forall j :: j in js ==> 0 <= j < cfg.N()
    ensures |Points(cfg, js)| == |js|
  {
    if js != {} {
      var a := SomeElement(js);
      PointsDistinct(cfg, js - {a});
      forall j | j in js - {a} ensures cfg.Eta(j) != cfg.Eta(a) {
        if a < j { EtaDistinct(cfg, a, j); } else { EtaDistinct(cfg, j, a); }
      }
      assert Points(cfg, js) == Points(cfg, js - {a}) + {cfg.Eta(a)};
    } else {
      assert Points(cfg, js) == {};
    }
  }

  /** Two words agreeing in K columns come from the same polynomial. */
  lemma AgreementIsIdentity(cfg: Config, p: seq<int>, q: seq<int>)
    requires cfg.Valid() && |p| <= cfg.K() && |q| <= cfg.K()
    requires |Agreements(Word(cfg, p), Word(cfg, q))| >= cfg.K()
    ensures SamePoly(p, q)
  {
    hide Config.Eta, Eval, SamePoly;
    var js := Agreements(Word(cfg, p), Word(cfg, q));
    var xs := Points(cfg, js);
    PointsDistinct(cfg, js);
    forall x | x in xs ensures 0 <= x < P && Eval(p, x) % P == Eval(q, x) % P {
      var j :| j in js && x == cfg.Eta(j);
      PointsReduced(cfg, j, 0);
    }
    AgreeMeansSame(p, q, xs);
  }

  /** The distance of the code: different codewords agree in at most K-1 of the N columns. */
  lemma Distance(cfg: Config, v: seq<int>, w: seq<int>)
    requires cfg.Valid() && IsCodeword(cfg, v) && IsCodeword(cfg, w) && v != w
    ensures |Agreements(v, w)| <= cfg.K() - 1
  {
    var p :| |p| <= cfg.K() && v == Word(cfg, p);
    var q :| |q| <= cfg.K() && w == Word(cfg, q);
    if |Agreements(v, w)| >= cfg.K() {
      AgreementIsIdentity(cfg, p, q);
      forall j | 0 <= j < cfg.N() ensures v[j] == w[j] {
        SameEval(p, q, cfg.Eta(j));
      }
      assert false;
    }
  }

  /** The encoding loses nothing: messages with equal codewords are equal modulo P. */
  lemma EncodingInjective(cfg: Config, m: seq<int>, m': seq<int>, d: nat)
    requires cfg.Valid() && |m| <= cfg.ELL && |m'| <= cfg.ELL && Codeword(cfg, m) == Codeword(cfg, m')
    ensures At(m, d) % P == At(m', d) % P
  {
    var p, q := MessagePoly(cfg, m), MessagePoly(cfg, m');
    KIsUnit(cfg);
    if d < cfg.ELL {
      AllColumns(cfg, Word(cfg, p));
      AgreementIsIdentity(cfg, p, q);
      SameEval(p, q, cfg.Zeta(d));
      MessagePolyAtZeta(cfg, m, d);
      MessagePolyAtZeta(cfg, m', d);
    }
  }

  lemma AllColumns(cfg: Config, w: seq<int>)
    requires |w| == cfg.N()
    ensures |Agreements(w, w)| == cfg.N()
  {
    assert Agreements(w, w) == Range(cfg.N());
  }

  // ----------------------------------------------------------------- linearity

  /** sum_i coeffs[i] * rows[i][j] */
  function Mix(rows: seq<seq<int>>, coeffs: seq<int>, j: nat): int {
    if coeffs == [] || rows == [] then 0
    else At(rows[0], j) * coeffs[0] + Mix(rows[1..], coeffs[1..], j)
  }

  lemma {:induction false} MixSnoc(rows: seq<seq<int>>, coeffs: seq<int>, n: nat, j: nat)
    requires n < |rows| && n < |coeffs|
    ensures Mix(rows[..n + 1], coeffs[..n + 1], j) == Mix(rows[..n], coeffs[..n], j) + At(rows[n], j) * coeffs[n]
  {
    if n > 0 {
      MixSnoc(rows[1..], coeffs[1..], n - 1, j);
      assert rows[..n + 1][1..] == rows[1..][..n] && coeffs[..n + 1][1..] == coeffs[1..][..n];
      assert rows[..n][1..] == rows[1..][..n - 1] && coeffs[..n][1..] == coeffs[1..][..n - 1];
    }
  }

  /** Pointwise in place, skipping zero coefficients; a length mismatch is refused. */
  method LinearCombination(width: nat, codewords: seq<seq<int>>, coeffs: seq<int>) returns (r: Result<seq<int>>)
    requires forall i :: 0 <= i < |codewords| ==> |codewords[i]| >= width
    ensures r.Ok? <==> |codewords| == |coeffs|
    ensures r.Ok? ==> |r.value| == width && forall j :: 0 <= j < width ==> r.value[j] == Mix(codewords, coeffs, j) % P
  {
    if |codewords| != |coeffs| {
      return ValueError;
    }
    var out := new int[width](_ => 0);
    for i := 0 to |coeffs|
      invariant forall j :: 0 <= j < width ==> out[j] == Mix(codewords[..i], coeffs[..i], j) % P
    {
      var cw, a := codewords[i], coeffs[i];
      forall j | 0 <= j < width
        ensures (out[j] + cw[j] * a) % P == Mix(codewords[..i + 1], coeffs[..i + 1], j) % P
        ensures a == 0 ==> out[j] == Mix(codewords[..i + 1], coeffs[..i + 1], j) % P
      {
        MixStep(codewords, coeffs, i, j, out[j]);
      }
      if a != 0 {
        for j := 0 to width
          invariant forall k :: 0 <= k < j ==> out[k] == Mix(codewords[..i + 1], coeffs[..i + 1], k) % P
          invariant forall k :: j <= k < width
                      ==> (out[k] + cw[k] * a) % P == Mix(codewords[..i + 1], coeffs[..i + 1], k) % P
        {
          out[j] := (out[j] + cw[j] * a) % P;
        }
      }
    }
    assert codewords[..|codewords|] == codewords && coeffs[..|coeffs|] == coeffs;
    r := Ok(out[..]);
  }

  lemma MixStep(rows: seq<seq<int>>, coeffs: seq<int>, i: nat, j: nat, before: int)
    requires i < |rows| && i < |coeffs| && j < |rows[i]| && before == Mix(rows[..i], coeffs[..i], j) % P
    ensures (before + rows[i][j] * coeffs[i]) % P == Mix(rows[..i + 1], coeffs[..i + 1], j) % P
    ensures coeffs[i] == 0 ==> before == Mix(rows[..i + 1], coeffs[..i + 1], j) % P
  {
    MixSnoc(rows, coeffs, i, j);
    var m := Mix(rows[..i], coeffs[..i], j);
    ModMod(m, P);
    ModAdd(before, m, rows[i][j] * coeffs[i], rows[i][j] * coeffs[i], P);
    if coeffs[i] == 0 { assert rows[i][j] * coeffs[i] == 0; }
  }

  function Mixed(rows: seq<seq<int>>, coeffs: seq<int>, n: nat): (m: seq<int>)
    ensures |m| == n && forall j :: 0 <= j < n ==> m[j] == Mix(rows, coeffs, j) % P
  {
    seq(n, j requires 0 <= j < n => Mix(rows, coeffs, j) % P)
  }

  function Encoded(cfg: Config, messages: seq<seq<int>>): (w: seq<seq<int>>)
    ensures |w| == |messages| && forall i :: 0 <= i < |w| ==> w[i] == Codeword(cfg, messages[i])
  {
    seq(|messages|, i requires 0 <= i < |messages| => Codeword(cfg, messages[i]))
  }

  /** Combining codewords encodes the combination of the messages, every slot included. */
  lemma CodeIsLinear(cfg: Config, messages: seq<seq<int>>, coeffs: seq<int>)
    requires cfg.Valid() && |messages| == |coeffs|
    requires forall i :: 0 <= i < |messages| ==> |messages[i]| <= cfg.ELL
    ensures Mixed(Encoded(cfg, messages), coeffs, cfg.N()) == Codeword(cfg, Mixed(messages, coeffs, cfg.ELL))
  {
    hide Config.Eta, Codeword, Mix, Eval;
    var w := Encoded(cfg, messages);
    var m := Mixed(messages, coeffs, cfg.ELL);
    CodewordAt(cfg, m);
    forall j | 0 <= j < cfg.N()
      ensures Mixed(w, coeffs, cfg.N())[j] == Codeword(cfg, m)[j]
    {
      MixedAt(cfg, messages, coeffs, cfg.ELL, cfg.Eta(j));
      MixWords(cfg, messages, coeffs, j);
    }
  }

  lemma CodewordAt(cfg: Config, m: seq<int>)
    ensures |Codeword(cfg, m)| == cfg.N()
    ensures forall j :: 0 <= j < cfg.N() ==> Codeword(cfg, m)[j] == Eval(MessagePoly(cfg, m), cfg.Eta(j)) % P
  {}

  /** Evaluation of each message at x, combined. */
  function MixEval(cfg: Config, messages: seq<seq<int>>, coeffs: seq<int>, x: int): int {
    if coeffs == [] || messages == [] then 0
    else Eval(MessagePoly(cfg, messages[0]), x) * coeffs[0] + MixEval(cfg, messages[1..], coeffs[1..], x)
  }

  lemma {:induction false} MixWords(cfg: Config, messages: seq<seq<int>>, coeffs: seq<int>, j: nat)
    requires |messages| == |coeffs| && j < cfg.N()
    ensures Mix(Encoded(cfg, messages), coeffs, j) % P == MixEval(cfg, messages, coeffs, cfg.Eta(j)) % P
  {
    hide Config.Eta, Codeword, Eval, MessagePoly;
    if messages != [] {
      MixWords(cfg, messages[1..], coeffs[1..], j);
      var w := Encoded(cfg, messages);
      assert w[1..] == Encoded(cfg, messages[1..]);
      CodewordAt(cfg, messages[0]);
      MixWordsStep(w[0][j], Eval(MessagePoly(cfg, messages[0]), cfg.Eta(j)), coeffs[0],
                   Mix(w[1..], coeffs[1..], j), MixEval(cfg, messages[1..], coeffs[1..], cfg.Eta(j)));
    }
  }

  lemma MixWordsStep(v: int, e: int, a: int, r: int, s: int)
    requires v == e % P && r % P == s % P
    ensures (v * a + r) % P == (e * a + s) % P
  {
    ModMod(e, P);
    ModMul(v, e, a, a, P);
    ModAdd(v * a, e * a, r, s, P);
  }

  /** The combined message evaluates, slot by slot, to the combined evaluations. */
  lemma {:induction false} MixedAt(cfg: Config, messages: seq<seq<int>>, coeffs: seq<int>, n: nat, x: int)
    requires |messages| == |coeffs| && forall i :: 0 <= i < |messages| ==> |messages[i]| <= n
    ensures Eval(MessagePoly(cfg, Mixed(messages, coeffs, n)), x) % P == MixEval(cfg, messages, coeffs, x) % P
  {
    hide Basis, Eval, MessagePoly;
    if messages == [] {
      ZeroMessage(cfg, Mixed(messages, coeffs, n), x);
    } else {
      var rest := Mixed(messages[1..], coeffs[1..], n);
      MixedAt(cfg, messages[1..], coeffs[1..], n, x);
      PaddingIsFree(cfg, messages[0], n, x);
      forall d | 0 <= d < n
        ensures Mixed(messages, coeffs, n)[d] % P == (Padded(messages[0], n)[d] * coeffs[0] + rest[d]) % P
      {
        MixedSlot(messages, coeffs, d);
      }
      MessageAxpy(cfg, Mixed(messages, coeffs, n), Padded(messages[0], n), coeffs[0], rest, x);
      hide *;
      PIsPositive();
      var e, a := Eval(MessagePoly(cfg, messages[0]), x), coeffs[0];
      ModAdd(e * a, e * a, Eval(MessagePoly(cfg, rest), x), MixEval(cfg, messages[1..], coeffs[1..], x), P);
      MixEvalUnfold(cfg, messages, coeffs, x);
    }
  }

  lemma MixEvalUnfold(cfg: Config, messages: seq<seq<int>>, coeffs: seq<int>, x: int)
    requires |messages| == |coeffs| > 0
    ensures MixEval(cfg, messages, coeffs, x)
            == Eval(MessagePoly(cfg, messages[0]), x) * coeffs[0] + MixEval(cfg, messages[1..], coeffs[1..], x)
  {}

  lemma MixedSlot(messages: seq<seq<int>>, coeffs: seq<int>, d: nat)
    requires |messages| == |coeffs| > 0
    ensures (Mix(messages, coeffs, d) % P) % P
            == (At(messages[0], d) * coeffs[0] + Mix(messages[1..], coeffs[1..], d) % P) % P
  {
    MixUnfold(messages, coeffs, d);
    hide *;
    PIsPositive();
    var r := Mix(messages[1..], coeffs[1..], d);
    ModMod(r, P);
    ModMod(Mix(messages, coeffs, d), P);
    ModAdd(At(messages[0], d) * coeffs[0], At(messages[0], d) * coeffs[0], r % P, r, P);
  }

  lemma MixUnfold(messages: seq<seq<int>>, coeffs: seq<int>, d: nat)
    requires |messages| == |coeffs| > 0
    ensures Mix(messages, coeffs, d) == At(messages[0], d) * coeffs[0] + Mix(messages[1..], coeffs[1..], d)
  {}

  lemma {:induction false} ZeroMessage(cfg: Config, m: seq<int>, x: int)
    requires forall d :: 0 <= d < |m| ==> m[d] == 0
    ensures Eval(MessagePoly(cfg, m), x) == 0
  {
    if m != [] {
      ZeroMessage(cfg, m[..|m| - 1], x);
      MessagePolyStep(cfg, m, |m| - 1, x);
      TimesZero(Eval(Basis(cfg, |m| - 1), x));
    }
  }

  lemma {:induction false} MessageAxpy(cfg: Config, m: seq<int>, u: seq<int>, a: int, v: seq<int>, x: int)
    requires |m| == |u| == |v| && forall d :: 0 <= d < |m| ==> m[d] % P == (u[d] * a + v[d]) % P
    ensures Eval(MessagePoly(cfg, m), x) % P
            == (Eval(MessagePoly(cfg, u), x) * a + Eval(MessagePoly(cfg, v), x)) % P
  {
    hide *;
    PIsPositive();
    var n := |m| - 1;
    if m == [] {
      assert u == [] && v == [];
      NoMessage(cfg, x);
      TimesZero(a);
      ZeroModuloP();
    } else {
      MessageAxpy(cfg, m[..n], u[..n], a, v[..n], x);
      MessagePolyStep(cfg, m, n, x);
      MessagePolyStep(cfg, u, n, x);
      MessagePolyStep(cfg, v, n, x);
      AxpyStep(Eval(MessagePoly(cfg, m[..n]), x), Eval(MessagePoly(cfg, u[..n]), x), Eval(MessagePoly(cfg, v[..n]), x),
               a, m[n], u[n], v[n], Eval(Basis(cfg, n), x));
    }
  }

  lemma ZeroModuloP()
    ensures 0 % P == 0 && (0 * 0 + 0) % P == 0
  {}

  lemma NoMessage(cfg: Config, x: int)
    ensures Eval(MessagePoly(cfg, []), x) == 0
  {}

  lemma AxpyStep(em: int, eu: int, ev: int, a: int, m: int, u: int, v: int, b: int)
    requires em % P == (eu * a + ev) % P && m % P == (u * a + v) % P
    ensures (em + m * b) % P == ((eu + u * b) * a + (ev + v * b)) % P
  {
    hide *;
    PIsPositive();
    ModMul(m, u * a + v, b, b, P);
    ModAdd(em, eu * a + ev, m * b, (u * a + v) * b, P);
    AxpyAlgebra(eu, ev, a, u, v, b);
  }

  lemma AxpyAlgebra(eu: int, ev: int, a: int, u: int, v: int, b: int)
    ensures (eu * a + ev) + (u * a + v) * b == (eu + u * b) * a + (ev + v * b)
  {}

  // ------------------------------------------------------------ column sampling

  /** The distinct values of the first n draws, in order of first appearance. */
  function FirstSeen(draw: nat -> int, n: nat): seq<int> {
    if n == 0 then []
    else
      var before := FirstSeen(draw, n - 1);
      if draw(n - 1) in before then before else before + [draw(n - 1)]
  }

  lemma {:induction false} FirstSeenMonotone(draw: nat -> int, n: nat, m: nat)
    requires n <= m
    ensures FirstSeen(draw, n) <= FirstSeen(draw, m)
  {
    if n < m { FirstSeenMonotone(draw, n, m - 1); }
  }

  /** Rejection sampling from the stream challenge(i) % nLig. It ends because the first
      `bound` draws are given to hold `count` different columns. */
  method SampleColumns(challenge: nat -> int, count: nat, nLig: int, ghost bound: nat) returns (cols: seq<int>)
    requires nLig > 0 && |FirstSeen((i: nat) => challenge(i) % nLig, bound)| >= count
    ensures |cols| == count && NoDuplicates(cols) && forall i :: 0 <= i < count ==> 0 <= cols[i] < nLig
    ensures cols <= FirstSeen((i: nat) => challenge(i) % nLig, bound)
  {
    ghost var draw := (i: nat) => challenge(i) % nLig;
    assert |FirstSeen(draw, bound)| >= count;
    cols := [];
    var i := 0;
    var seen: set<int> := {};
    while |cols| < count
      invariant i <= bound && cols == FirstSeen(draw, i) && |cols| <= count
      invariant forall c :: c in seen <==> c in cols
      invariant NoDuplicates(cols) && forall k :: 0 <= k < |cols| ==> 0 <= cols[k] < nLig
      decreases bound - i
    {
      var c := challenge(i) % nLig;
      i := i + 1;
      if c !in seen {
        seen := seen + {c};
        cols := cols + [c];
      }
    }
    FirstSeenMonotone(draw, i, bound);
  }
}
