/** The permutation and stable-order arguments of moe.py. */
module Permutation {
  // Fingerprints, characteristic products, and why the strictly increasing key leaves no freedom in the order.

  import opened NumberTheory
  import opened Field
  import opened Polynomial
  import opened Interpolation
  import opened Rows

  datatype Record = Record(layer: int, kind: int, t: int, e: int, j: int, x: int)

  function Fields(r: Record): seq<int> {
    [r.layer, r.kind, r.t, r.e, r.j, r.x]
  }

  // --------------------------------------------------------------- fingerprints

  /** Horner compression of a tuple, as fingerprint, compress_tuple and _tuple_fp do it: the
      polynomial in beta whose constant term is the last entry. */
  function Compress(tuple: seq<int>, beta: int): int {
    Eval(Reverse(tuple), beta) % P
  }

  method CompressTuple(tuple: seq<int>, beta: int) returns (acc: int)
    ensures acc == Compress(tuple, beta)
  {
    acc := 0;
    for i := 0 to |tuple|
      invariant acc == Compress(tuple[..i], beta)
    {
      CompressSnoc(tuple[..i], tuple[i], beta);
      assert tuple[..i] + [tuple[i]] == tuple[..i + 1];
      acc := (acc * beta + tuple[i] % P) % P;
    }
    assert tuple[..|tuple|] == tuple;
  }

  lemma CompressSnoc(tuple: seq<int>, v: int, beta: int)
    ensures (Compress(tuple, beta) * beta + v % P) % P == Compress(tuple + [v], beta)
  {
    assert Reverse(tuple + [v]) == [v] + Reverse(tuple);
    EvalCons(v, Reverse(tuple), beta);
    hide Eval, Reverse;
    HornerStep(Eval(Reverse(tuple), beta), beta, v);
  }

  lemma HornerStep(e: int, beta: int, v: int)
    ensures (e % P * beta + v % P) % P == (v + beta * e) % P
  {
    hide *;
    PIsPositive();
    ModMod(e, P);
    ModMul(e % P, e, beta, beta, P);
    ModMod(v, P);
    ModAdd(e % P * beta, e * beta, v % P, v, P);
    TimesCommute(e, beta);
  }

  ghost predicate SameModP(s: seq<int>, t: seq<int>) {
    |s| == |t| && forall i :: 0 <= i < |s| ==> s[i] % P == t[i] % P
  }

  /** Tuples of one width that differ modulo P collide for fewer betas than their width:
      for a record, at most five. */
  lemma CollisionsAreFew(s: seq<int>, t: seq<int>, betas: set<int>)
    requires |s| == |t| && !SameModP(s, t)
    requires forall b :: b in betas ==> 0 <= b < P && Compress(s, b) == Compress(t, b)
    ensures |betas| < |s|
  {
    var c, d := Reverse(s), Reverse(t);
    if |betas| >= |s| {
      AgreeMeansSame(c, d, betas);
      forall i | 0 <= i < |s| ensures s[i] % P == t[i] % P {
        assert At(c, |s| - 1 - i) % P == At(d, |s| - 1 - i) % P;
      }
    }
  }

  lemma RecordCollisions(r: Record, q: Record, betas: set<int>)
    requires !SameModP(Fields(r), Fields(q))
    requires forall b :: b in betas ==> 0 <= b < P && Compress(Fields(r), b) == Compress(Fields(q), b)
    ensures |betas| <= 5
  {
    CollisionsAreFew(Fields(r), Fields(q), betas);
  }

  // ----------------------------------------------------- characteristic products

  function Shifted(vals: seq<int>, z: int): (s: seq<int>)
    ensures |s| == |vals| && forall i :: 0 <= i < |vals| ==> s[i] == z - vals[i]
  {
    seq(|vals|, i requires 0 <= i < |vals| => z - vals[i])
  }

  function Fingerprints(recs: seq<Record>, beta: int): (f: seq<int>)
    ensures |f| == |recs| && forall i :: 0 <= i < |recs| ==> f[i] == Compress(Fields(recs[i]), beta)
  {
    seq(|recs|, i requires 0 <= i < |recs| => Compress(Fields(recs[i]), beta))
  }

  function CharProduct(recs: seq<Record>, beta: int, z: int): int {
    Product(Shifted(Fingerprints(recs, beta), z)) % P
  }

  method CharacteristicProduct(recs: seq<Record>, beta: int, z: int) returns (acc: int)
    ensures acc == CharProduct(recs, beta, z)
  {
    var s := Shifted(Fingerprints(recs, beta), z);
    acc := 1;
    ProductEmpty();
    for i := 0 to |recs|
      invariant acc == Product(s[..i]) % P
    {
      var f := CompressTuple(Fields(recs[i]), beta);
      ReducedFactor(s, i, acc, (z - f) % P);
      acc := (acc * ((z - f) % P)) % P;
    }
    assert s[..|recs|] == s;
  }

  lemma ReducedFactor(s: seq<int>, i: nat, acc: int, f: int)
    requires i < |s| && acc == Product(s[..i]) % P && f == s[i] % P
    ensures (acc * f) % P == Product(s[..i + 1]) % P
  {
    PrefixProduct(s, i);
    ModMod(Product(s[..i]), P);
    ModMod(s[i], P);
    ModMul(acc, Product(s[..i]), f, s[i], P);
  }

  method PermutationOk(src: seq<Record>, dst: seq<Record>, beta: int, z: int) returns (ok: bool)
    ensures ok == (|src| == |dst| && CharProduct(src, beta, z) == CharProduct(dst, beta, z))
  {
    if |src| != |dst| {
      return false;
    }
    var a := CharacteristicProduct(src, beta, z);
    var b := CharacteristicProduct(dst, beta, z);
    ok := a == b;
  }

  /** A rearrangement is always accepted. */
  lemma PermutationAccepted(src: seq<Record>, dst: seq<Record>, beta: int, z: int)
    requires multiset(src) == multiset(dst)
    ensures |src| == |dst| && CharProduct(src, beta, z) == CharProduct(dst, beta, z)
  {
    assert |src| == |multiset(src)| == |multiset(dst)| == |dst|;
    FingerprintsPermute(src, dst, beta);
    ShiftedPermutes(Fingerprints(src, beta), Fingerprints(dst, beta), z);
    ProductPermutation(Shifted(Fingerprints(src, beta), z), Shifted(Fingerprints(dst, beta), z));
  }

  lemma {:induction false} FingerprintsPermute(src: seq<Record>, dst: seq<Record>, beta: int)
    requires multiset(src) == multiset(dst)
    ensures multiset(Fingerprints(src, beta)) == multiset(Fingerprints(dst, beta))
  {
    hide Compress;
    var a, b := Fingerprints(src, beta), Fingerprints(dst, beta);
    if src == [] {
      assert |src| == |multiset(src)| == |multiset(dst)| == |dst|;
    } else {
      var k := MultisetMatch(src, dst);
      var rest := dst[..k] + dst[k + 1..];
      FingerprintsPermute(src[1..], rest, beta);
      assert a == [a[0]] + Fingerprints(src[1..], beta);
      assert b[..k] + b[k + 1..] == Fingerprints(rest, beta);
      MultisetRemove(b, k);
    }
  }

  lemma {:induction false} ShiftedPermutes(s: seq<int>, t: seq<int>, z: int)
    requires multiset(s) == multiset(t)
    ensures multiset(Shifted(s, z)) == multiset(Shifted(t, z))
  {
    if s == [] {
      assert |s| == |multiset(s)| == |multiset(t)| == |t|;
    } else {
      var k := MultisetMatch(s, t);
      ShiftedPermutes(s[1..], t[..k] + t[k + 1..], z);
      var a, b := Shifted(s, z), Shifted(t, z);
      assert a == [a[0]] + Shifted(s[1..], z);
      assert Shifted(t[..k] + t[k + 1..], z) == b[..k] + b[k + 1..];
      MultisetRemove(b, k);
    }
  }

  // ---------------------------------------- equal products, equal multisets

  function Monomial(k: int, n: nat): (c: seq<int>)
    ensures |c| == n + 1
  {
    if n == 0 then [k] else [0] + Monomial(k, n - 1)
  }

  lemma {:induction false} EvalMonomial(k: int, n: nat, z: int)
    ensures Eval(Monomial(k, n), z) == k * Pow(z, n)
  {
    if n == 0 {
      EvalConstant(k, z);
    } else {
      EvalMonomial(k, n - 1, z);
      EvalCons(0, Monomial(k, n - 1), z);
      MulSwap(z, k, Pow(z, n - 1));
    }
  }

  /** prod (X - v_i) without its leading X^n. */
  function MonicRest(vals: seq<int>): (c: seq<int>)
    ensures |c| == |vals|
  {
    if vals == [] then []
    else Add(TimesRoot(MonicRest(vals[1..]), vals[0]), Monomial(-vals[0], |vals| - 1))
  }

  lemma {:induction false} MonicRestEval(vals: seq<int>, z: int)
    ensures Eval(MonicRest(vals), z) + Pow(z, |vals|) == Product(Shifted(vals, z))
  {
    hide *;
    MonicUnfold(vals, z);
    if vals != [] {
      var v, rest, n := vals[0], vals[1..], |vals| - 1;
      MonicRestEval(rest, z);
      EvalTimesRoot(MonicRest(rest), v, z);
      EvalMonomial(-v, n, z);
      EvalAdd(TimesRoot(MonicRest(rest), v), Monomial(-v, n), z);
      PowUnfold(z, n + 1);
      MonicAlgebra(z, v, Eval(MonicRest(rest), z), Pow(z, n));
    }
  }

  lemma MonicAlgebra(z: int, v: int, e: int, p: int)
    ensures e * (z - v) + (-v) * p + z * p == (z - v) * (e + p)
  {}

  lemma MonicUnfold(vals: seq<int>, z: int)
    ensures vals == [] ==> Eval(MonicRest(vals), z) + Pow(z, 0) == 1 == Product(Shifted(vals, z))
    ensures vals != [] ==>
      && MonicRest(vals) == Add(TimesRoot(MonicRest(vals[1..]), vals[0]), Monomial(-vals[0], |vals| - 1))
      && Product(Shifted(vals, z)) == (z - vals[0]) * Product(Shifted(vals[1..], z))
  {
    if vals != [] {
      assert Shifted(vals, z)[1..] == Shifted(vals[1..], z);
    }
  }

  ghost predicate ProductsAgree(a: seq<int>, b: seq<int>, z: int) {
    Product(Shifted(a, z)) % P == Product(Shifted(b, z)) % P
  }

  /** Agreement at as many points as there are factors is agreement everywhere. */
  lemma AgreeEverywhere(a: seq<int>, b: seq<int>, zs: set<int>, z: int)
    requires |a| == |b| <= |zs| && forall w :: w in zs ==> 0 <= w < P && ProductsAgree(a, b, w)
    ensures ProductsAgree(a, b, z)
  {
    forall w | w in zs ensures 0 <= w < P && Eval(MonicRest(a), w) % P == Eval(MonicRest(b), w) % P {
      assert ProductsAgree(a, b, w);
      MonicRestEval(a, w);
      MonicRestEval(b, w);
      ModSub(Product(Shifted(a, w)), Product(Shifted(b, w)), Pow(w, |a|), Pow(w, |a|), P);
    }
    AgreeMeansSame(MonicRest(a), MonicRest(b), zs);
    SameEval(MonicRest(a), MonicRest(b), z);
    MonicRestEval(a, z);
    MonicRestEval(b, z);
    ModAdd(Eval(MonicRest(a), z), Eval(MonicRest(b), z), Pow(z, |a|), Pow(z, |a|), P);
  }

  /** A root of one product is a factor of the other. */
  lemma {:induction false} RootIsFactor(b: seq<int>, v: int) returns (k: nat)
    requires InField(b) && 0 <= v < P && Product(Shifted(b, v)) % P == 0
    ensures k < |b| && b[k] == v
  {
    if b == [] {
      MonicUnfold(b, v);
      ModSmall(1, P);
      assert false;
    } else {
      MonicUnfold(b, v);
      GoldilocksIsPrime();
      Euclid(P, v - b[0], Product(Shifted(b[1..], v)));
      if b[0] == v {
        k := 0;
      } else {
        k := RootIsFactor(b[1..], v);
        k := k + 1;
      }
    }
  }

  lemma {:induction false} SameProductSameMultiset(a: seq<int>, b: seq<int>, zs: set<int>)
    requires InField(a) && InField(b) && |a| == |b| <= |zs|
    requires forall z :: z in zs ==> 0 <= z < P && ProductsAgree(a, b, z)
    ensures multiset(a) == multiset(b)
    decreases |a|
  {
    if a != [] {
      var v := a[0];
      var k, others := OneFactor(a, b, zs);
      var a', b' := a[1..], b[..k] + b[k + 1..];
      forall z | z in others ensures 0 <= z < P && ProductsAgree(a', b', z) {
        AgreeEverywhere(a, b, zs, z);
        StripFactor(a, b, k, z);
      }
      SameProductSameMultiset(a', b', others);
      MultisetRemove(b, k);
      assert a == [v] + a';
    } else {
      assert b == [];
    }
  }

  /** The first factor of one side occurs on the other, and enough points are left. */
  lemma OneFactor(a: seq<int>, b: seq<int>, zs: set<int>) returns (k: nat, others: set<int>)
    requires InField(a) && InField(b) && 0 < |a| == |b| <= |zs|
    requires forall z :: z in zs ==> 0 <= z < P && ProductsAgree(a, b, z)
    ensures k < |b| && b[k] == a[0] && |others| >= |a| - 1
    ensures forall z :: z in others <==> 0 <= z < P && z != a[0]
  {
    hide ProductsAgree, Shifted, Product;
    AgreeEverywhere(a, b, zs, a[0]);
    k := FirstIsFactor(a, b);
    ResiduesAtMost(zs);
    others := AllBut(a[0]);
  }

  lemma FirstIsFactor(a: seq<int>, b: seq<int>) returns (k: nat)
    requires InField(a) && InField(b) && a != [] && ProductsAgree(a, b, a[0])
    ensures k < |b| && b[k] == a[0]
  {
    MonicUnfold(a, a[0]);
    hide Shifted, Product;
    k := RootIsFactor(b, a[0]);
  }

  lemma AllBut(v: int) returns (others: set<int>)
    requires 0 <= v < P
    ensures |others| == P - 1 && forall z :: z in others <==> 0 <= z < P && z != v
  {
    var all := Residues();
    others := all - {v};
    assert |all - {v}| == P - 1;
  }

  lemma ResiduesAtMost(zs: set<int>)
    requires forall z :: z in zs ==> 0 <= z < P
    ensures |zs| <= P
  {
    var all := Residues();
    forall z | z in zs ensures z in all {}
    assert zs <= all;
    SubsetSize(zs, all);
  }

  lemma Residues() returns (s: set<int>)
    ensures |s| == P && forall x :: x in s <==> 0 <= x < P
  {
    s := Range(P);
  }

  lemma StripFactor(a: seq<int>, b: seq<int>, k: nat, z: int)
    requires a != [] && k < |b| && b[k] == a[0] && 0 <= a[0] < P && 0 <= z < P && z != a[0]
    requires ProductsAgree(a, b, z)
    ensures ProductsAgree(a[1..], b[..k] + b[k + 1..], z)
  {
    var s := Shifted(b, z);
    MonicUnfold(a, z);
    ProductRemove(s, k);
    assert s[..k] + s[k + 1..] == Shifted(b[..k] + b[k + 1..], z);
    GoldilocksIsPrime();
    ModSmallNonzero(z - a[0]);
    Cancel(P, z - a[0], Product(Shifted(a[1..], z)), Product(Shifted(b[..k] + b[k + 1..], z)));
  }

  lemma ModSmallNonzero(d: int)
    requires -P < d < P && d != 0
    ensures d % P != 0
  {}

  /** Record lists whose fingerprints differ as multisets have equal characteristic
      products for fewer than n values of z. */
  lemma ForgeriesPassRarely(src: seq<Record>, dst: seq<Record>, beta: int, zs: set<int>)
    requires |src| == |dst|
    requires multiset(Fingerprints(src, beta)) != multiset(Fingerprints(dst, beta))
    requires forall z :: z in zs ==> 0 <= z < P && CharProduct(src, beta, z) == CharProduct(dst, beta, z)
    ensures |zs| < |src|
  {
    var a, b := Fingerprints(src, beta), Fingerprints(dst, beta);
    if |zs| >= |src| {
      forall z | z in zs ensures 0 <= z < P && ProductsAgree(a, b, z) {
        assert CharProduct(src, beta, z) == CharProduct(dst, beta, z);
      }
      SameProductSameMultiset(a, b, zs);
    }
  }
}
