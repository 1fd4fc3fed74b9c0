/** The Goldilocks field of prover/protocol.py and layergkr/field.py: values are
    integers, reduced modulo P where the program reduces them. */
module Field {
  import opened NumberTheory

  const P: int := 0xFFFF_FFFF_0000_0001

  ghost predicate InField(vals: seq<int>) {
    forall i :: 0 <= i < |vals| ==> 0 <= vals[i] < P
  }

  lemma SmallCongruent(a: int, b: int)
    requires 0 <= a < P && 0 <= b < P && a % P == b % P
    ensures a == b
  {}

  lemma PIsPositive()
    ensures P > 1
  {}

  // ------------------------------------------------------------ P is prime

  predicate SquaresTo(x: int, y: int) {
    (x * x) % P == y
  }

  /** A written-out run of squarings modulo P. */
  predicate SquareRun(t: seq<int>) {
    t != [] && forall i :: 0 <= i < |t| - 1 ==> SquaresTo(t[i], t[i + 1])
  }

  lemma {:induction false} RunIsPow(t: seq<int>)
    requires SquareRun(t)
    ensures t[|t| - 1] % P == Pow(t[0], Pow2(|t| - 1)) % P
  {
    if |t| == 1 {
      assert Pow(t[0], 1) == t[0] * Pow(t[0], 0);
    } else {
      var x, h := t[0], Pow2(|t| - 2);
      assert SquaresTo(x, t[1]);
      RunIsPow(t[1..]);
      ModMod(x * x, P);
      PowMod(t[1], x * x, h, P);
      PowProduct(x, x, h);
      PowAdd(x, h, h);
    }
  }

  lemma RunJoin(s: seq<int>, t: seq<int>) returns (u: seq<int>)
    requires SquareRun(s) && SquareRun(t) && s[|s| - 1] == t[0]
    ensures SquareRun(u) && |u| == |s| + |t| - 1 && u[0] == s[0] && u[|u| - 1] == t[|t| - 1]
  {
    u := s + t[1..];
    forall i | 0 <= i < |u| - 1 ensures SquaresTo(u[i], u[i + 1]) {
      if i < |s| - 1 {
        assert SquaresTo(s[i], s[i + 1]);
      } else {
        assert u[i] == t[i - |s| + 1] && u[i + 1] == t[i - |s| + 2];
      }
    }
  }

  lemma Run4(a: int, b: int, c: int, d: int, e: int) returns (u: seq<int>)
    requires SquaresTo(a, b) && SquaresTo(b, c) && SquaresTo(c, d) && SquaresTo(d, e)
    ensures SquareRun(u) && |u| == 5 && u[0] == a && u[4] == e
  {
    u := [a, b, c, d, e];
  }

  /** ts[k] squares e_k = 7^(2^(2^k) - 1); the last run ends in 7^((P-1)/2). */
  ghost predicate SevenChain(ts: seq<seq<int>>) {
    && |ts| == 6
    && (forall k :: 0 <= k < 6 ==> SquareRun(ts[k]))
    && (forall k :: 0 <= k < 5 ==> Linked(ts[k], Pow2(k), ts[k + 1]))
    && ts[0][0] == 7 && |ts[5]| == 32 && ts[5][31] == P - 1
  }

  predicate Linked(t: seq<int>, steps: int, next: seq<int>) {
    t != [] && next != [] && |t| == steps + 1 && next[0] == (t[|t| - 1] * t[0]) % P
  }

  lemma RunA() returns (u: seq<int>)
    ensures SquareRun(u) && |u| == 9 && u[0] == 8125271997680889877 && u[8] == 8929377406043347353
  {
    var s := Run4(8125271997680889877, 10915923311382173605, 8682737361258234340,
        13168992710278412212, 3615243740316660512);
    var t := Run4(3615243740316660512, 9701552052102210316, 12082995573853045936,
        2592469405483382171, 8929377406043347353);
    u := RunJoin(s, t);
  }

  lemma RunB() returns (u: seq<int>)
    ensures SquareRun(u) && |u| == 9 && u[0] == 12134830135347446949 && u[8] == 4380238239217790048
  {
    var s := Run4(12134830135347446949, 618113109518621269, 10057574059836717585,
        11436575600859740313, 2460531272136303351);
    var t := Run4(2460531272136303351, 5287351674330089703, 2729558173611838869,
        5809869834850305452, 4380238239217790048);
    u := RunJoin(s, t);
  }

  lemma RunC() returns (u: seq<int>)
    ensures SquareRun(u) && |u| == 9 && u[0] == 4380238239217790048 && u[8] == 5214785644524920463
  {
    var s := Run4(4380238239217790048, 10313688370767105378, 1116132233887293652,
        8201916556687100419, 9569002298025400893);
    var t := Run4(9569002298025400893, 3860342023949954178, 2518827640559301834,
        4408381949760333744, 5214785644524920463);
    u := RunJoin(s, t);
  }

  lemma RunD() returns (u: seq<int>)
    ensures SquareRun(u) && |u| == 9 && u[0] == 1753635133440165772 && u[8] == 9713644485405565297
  {
    var s := Run4(1753635133440165772, 4614640910117430873, 9123114210336311365,
        16116352524544190054, 6414415596519834757);
    var t := Run4(6414415596519834757, 1213594585890690845, 17096174751763063430,
        5456943929260765144, 9713644485405565297);
    u := RunJoin(s, t);
  }

  lemma RunE() returns (u: seq<int>)
    ensures SquareRun(u) && |u| == 9 && u[0] == 9713644485405565297 && u[8] == 6115771955107415310
  {
    var s := Run4(9713644485405565297, 16905767614792059275, 5416168637041100469,
        17654865857378133588, 3511170319078647661);
    var t := Run4(3511170319078647661, 18146160046829613826, 9306717745644682924,
        12380578893860276750, 6115771955107415310);
    u := RunJoin(s, t);
  }

  lemma RunF() returns (u: seq<int>)
    ensures SquareRun(u) && |u| == 9 && u[0] == 6115771955107415310 && u[8] == 13797081185216407910
  {
    var s := Run4(6115771955107415310, 17776499369601055404, 16207902636198568418,
        1532612707718625687, 17492915097719143606);
    var t := Run4(17492915097719143606, 455906449640507599, 11353340290879379826,
        1803076106186727246, 13797081185216407910);
    u := RunJoin(s, t);
  }

  lemma RunG() returns (u: seq<int>)
    ensures SquareRun(u) && |u| == 8 && u[0] == 13797081185216407910 && u[7] == P - 1
  {
    var s := Run4(13797081185216407910, 17870292113338400769, 549755813888,
        70368744161280, 17293822564807737345);
    var t := [17293822564807737345, 18446744069397807105, 281474976710656, 18446744069414584320];
    assert SquaresTo(t[0], t[1]) && SquaresTo(t[1], t[2]) && SquaresTo(t[2], t[3]);
    u := RunJoin(s, t);
  }

  lemma Run31() returns (u: seq<int>)
    ensures SquareRun(u) && |u| == 32 && u[0] == 1753635133440165772 && u[31] == P - 1
  {
    var a := RunD();
    var b := RunE();
    var c := RunF();
    var d := RunG();
    var ab := RunJoin(a, b);
    var cd := RunJoin(c, d);
    u := RunJoin(ab, cd);
  }

  lemma SevenChainExists() returns (ts: seq<seq<int>>)
    ensures SevenChain(ts)
  {
    var t0, t1 := [7, 49], [343, 117649, 13841287201];
    assert SquaresTo(7, 49) && SquaresTo(343, 117649) && SquaresTo(117649, 13841287201);
    var t2 := Run4(4747561509943, 1582037354089406189, 6704211459967285318,
        12536486945555764682, 8329639379454877396);
    var t3 := RunA();
    var b := RunB();
    var c := RunC();
    var t4 := RunJoin(b, c);
    var t5 := Run31();
    assert Linked(t0, 1, t1) && Linked(t1, 2, t2) && Linked(t2, 4, t3)
        && Linked(t3, 8, t4) && Linked(t4, 16, t5);
    ts := [t0, t1, t2, t3, t4, t5];
  }

  lemma {:induction false} ChainValue(ts: seq<seq<int>>, k: nat)
    requires SevenChain(ts) && k < 6
    ensures ts[k][0] % P == Pow(ts[0][0], Pow2(Pow2(k)) - 1) % P
  {
    hide Pow, Pow2, SquaresTo;
    var g := ts[0][0];
    if k == 0 {
      PowOfTwoBase(g);
    } else {
      var t := ts[k - 1];
      assert SquareRun(t) && Linked(t, Pow2(k - 1), ts[k]);
      ChainValue(ts, k - 1);
      RunIsPow(t);
      ChainStep(g, Pow2(Pow2(k - 1)), t[0], t[|t| - 1]);
      Pow2Unfold(k);
      Pow2Add(Pow2(k - 1), Pow2(k - 1));
    }
  }

  lemma PowOfTwoBase(g: int)
    ensures Pow(g, Pow2(Pow2(0)) - 1) == g
  {
    assert Pow2(Pow2(0)) == 2;
    assert Pow(g, 1) == g * Pow(g, 0);
  }

  /** From e = g^(q-1) and f = e^q to f*e = g^(q*q-1). */
  lemma ChainStep(g: int, q: nat, e: int, f: int)
    requires q >= 1 && e % P == Pow(g, q - 1) % P && f % P == Pow(e, q) % P
    ensures q * q >= 1 && ((f * e) % P) % P == Pow(g, q * q - 1) % P
  {
    var b := Pow(g, q - 1);
    PowMod(e, b, q, P);
    ModMul(f, Pow(b, q), e, b, P);
    ModMod(f * e, P);
    PowMul(g, q - 1, q);
    assert (q - 1) * q + (q - 1) == q * q - 1;
    PowAdd(g, (q - 1) * q, q - 1);
  }

  /** 7^((P-1)/2) = -1, with (P-1)/2 = (2^32 - 1) * 2^31. */
  lemma HalfOrder() returns (g: int, e: nat)
    ensures g == 7 && e == 0xFFFF_FFFF
    ensures Pow(Pow(g, e), Pow2(31)) % P == P - 1
  {
    hide *;
    PIsPositive();
    var ts := SevenChainExists();
    LastRun(ts);
    g := ts[0][0];
    ChainValue(ts, 5);
    Pow2Values();
    e := Pow2(Pow2(5)) - 1;
    RunIsPow(ts[5]);
    PowMod(ts[5][0], Pow(g, e), Pow2(31), P);
  }

  lemma LastRun(ts: seq<seq<int>>)
    requires SevenChain(ts)
    ensures |ts| == 6 && ts[0] != [] && ts[0][0] == 7 && SquareRun(ts[5]) && |ts[5]| == 32 && ts[5][31] == P - 1
  {
    hide SquareRun;
    assert Linked(ts[0], Pow2(0), ts[1]);
  }

  lemma Pow2Small()
    ensures Pow2(4) == 16 && Pow2(5) == 32
  {}

  lemma Pow2Values()
    ensures Pow2(31) == 0x8000_0000 && Pow2(32) == 0x1_0000_0000 && Pow2(Pow2(5)) == Pow2(32)
  {
    hide *;
    Pow2Small();
    Pow2Add(4, 4);
    Pow2Add(8, 8);
    Pow2Add(16, 16);
    Pow2Unfold(32);
  }

  lemma GoldilocksIsPrime()
    ensures IsPrime(P)
  {
    var g, e := HalfOrder();
    Pow2Values();
    Proth(P, Pow(g, e), 31);
  }

  // -------------------------------------------------------------- inverses

  /** pow(a, P - 2, P), as field.inv and protocol.inv compute it. */
  function Inv(a: int): (r: int)
    ensures 0 <= r < P
  {
    Pow(a % P, P - 2) % P
  }

  lemma InvCorrect(a: int)
    ensures a % P != 0 ==> (a * Inv(a)) % P == 1
    ensures a % P == 0 ==> Inv(a) == 0
  {
    var b := a % P;
    ModMod(a, P);
    if b == 0 {
      assert Pow(0, P - 2) == 0 * Pow(0, P - 3);
    } else {
      GoldilocksIsPrime();
      Fermat(b, P);
      ModMod(Pow(b, P - 2), P);
      ModMul(a, b, Inv(a), Pow(b, P - 2), P);
      assert Pow(b, P - 1) == b * Pow(b, P - 2);
    }
  }

  /** An inverse is determined by its product. */
  lemma InvUnique(a: int, b: int)
    requires (a * b) % P == 1
    ensures a % P != 0 && b % P == Inv(a)
  {
    GoldilocksIsPrime();
    if a % P == 0 {
      ZeroTimes(P, a, b);
    }
    InvCorrect(a);
    Cancel(P, a, b, Inv(a));
    ModSmall(Inv(a), P);
  }

  lemma InvProduct(a: int, b: int)
    ensures Inv(a * b) == (Inv(a) * Inv(b)) % P
  {
    InvCorrect(a);
    InvCorrect(b);
    InvCorrect(a * b);
    if a % P == 0 {
      ZeroTimes(P, a, b);
    } else if b % P == 0 {
      ZeroTimes(P, b, a);
    } else {
      OneTimes(P, a * Inv(a), b * Inv(b));
      assert (a * Inv(a)) * (b * Inv(b)) == (a * b) * (Inv(a) * Inv(b));
      InvUnique(a * b, Inv(a) * Inv(b));
    }
  }

  lemma InvMod(a: int)
    ensures Inv(a % P) == Inv(a)
  {
    ModMod(a, P);
  }

  function Invs(xs: seq<int>): (r: seq<int>)
    ensures |r| == |xs| && forall i :: 0 <= i < |xs| ==> r[i] == Inv(xs[i])
  {
    seq(|xs|, i requires 0 <= i < |xs| => Inv(xs[i]))
  }

  /** Some entry is zero: exactly when Montgomery's trick loses the whole batch. */
  predicate HasZero(xs: seq<int>) {
    exists i :: 0 <= i < |xs| && xs[i] % P == 0
  }

  lemma {:induction false} ProductZero(s: seq<int>)
    ensures Product(s) % P == 0 <==> HasZero(s)
  {
    if s != [] {
      GoldilocksIsPrime();
      ProductZero(s[1..]);
      if s[0] % P == 0 {
        ZeroTimes(P, s[0], Product(s[1..]));
      } else if Product(s[1..]) % P == 0 {
        ZeroTimes(P, Product(s[1..]), s[0]);
        assert HasZero(s[1..]);
        var i :| 0 <= i < |s[1..]| && s[1..][i] % P == 0;
        assert s[i + 1] % P == 0;
      } else if Product(s) % P == 0 {
        Euclid(P, s[0], Product(s[1..]));
        assert false;
      } else {
        forall i | 0 <= i < |s| ensures s[i] % P != 0 {
          if i > 0 { assert s[i] == s[1..][i - 1]; }
        }
      }
    } else {
      ModSmall(1, P);
    }
  }

  lemma PrefixProduct(xs: seq<int>, i: nat)
    requires i < |xs|
    ensures Product(xs[..i + 1]) == Product(xs[..i]) * xs[i]
  {
    ProductConcat(xs[..i], [xs[i]]);
    assert xs[..i + 1] == xs[..i] + [xs[i]];
    assert Product([xs[i]]) == xs[i];
  }

  lemma PrefixStep(xs: seq<int>, i: nat, before: int)
    requires i < |xs| && before == Product(xs[..i]) % P
    ensures (before * xs[i]) % P == Product(xs[..i + 1]) % P
  {
    PrefixProduct(xs, i);
    ModMod(Product(xs[..i]), P);
    ModMul(before, Product(xs[..i]), xs[i], xs[i], P);
  }

  /** From 1/(q*x): multiply by q for 1/x, by x for 1/q. */
  lemma PeelInverse(q: int, x: int, q': int)
    requires q' == q % P && q % P != 0 && x % P != 0
    ensures (Inv(q * x) * q') % P == Inv(x)
    ensures (Inv(q * x) * x) % P == Inv(q)
  {
    InvProduct(q, x);
    ModMod(q, P);
    PeelOne(Inv(q), Inv(x), q, q', Inv(q * x));
    PeelOne(Inv(x), Inv(q), x, x, Inv(q * x));
    InvCorrect(q);
    InvCorrect(x);
    ModSmall(Inv(x), P);
    ModSmall(Inv(q), P);
  }

  lemma PeelOne(a: int, b: int, x: int, x': int, ab: int)
    requires ab % P == (a * b) % P && x' % P == x % P
    ensures (x * a) % P == 1 ==> (ab * x') % P == b % P
  {
    ModMul(ab, a * b, x', x, P);
    assert (a * b) * x == (x * a) * b;
    if (x * a) % P == 1 { OneTimes(P, x * a, b); }
  }

  ghost predicate PrefixTable(pref: seq<int>, xs: seq<int>, i: nat) {
    i <= |xs| && |pref| == |xs| + 1 && forall k :: 0 <= k <= i ==> pref[k] == Product(xs[..k]) % P
  }

  lemma PeelLast(xs: seq<int>, i: nat, before: int)
    requires i < |xs| && !HasZero(xs) && before == Product(xs[..i]) % P
    ensures (Inv(Product(xs[..i + 1])) * before) % P == Inv(xs[i])
    ensures (Inv(Product(xs[..i + 1])) * xs[i]) % P == Inv(Product(xs[..i]))
  {
    PrefixProduct(xs, i);
    assert !HasZero(xs[..i]);
    ProductZero(xs[..i]);
    PeelInverse(Product(xs[..i]), xs[i], before);
  }

  /** Montgomery's trick: every inverse is right when no input is zero, and a single
      zero input turns the whole batch to zero. */
  method BatchInv(xs: seq<int>) returns (out: seq<int>)
    ensures |out| == |xs|
    ensures !HasZero(xs) ==> out == Invs(xs)
    ensures HasZero(xs) ==> forall i :: 0 <= i < |xs| ==> out[i] == 0
  {
    var n := |xs|;
    if n == 0 {
      return [];
    }
    var pref := new int[n + 1](_ => 1);
    for i := 0 to n
      invariant PrefixTable(pref[..], xs, i)
    {
      PrefixStep(xs, i, pref[i]);
      pref[i + 1] := pref[i] * xs[i] % P;
    }
    assert xs[..n] == xs;
    var acc := Inv(pref[n]);
    InvMod(Product(xs));
    ProductZero(xs);
    InvCorrect(Product(xs));
    var o := new int[n](_ => 0);
    var i := n;
    while i > 0
      invariant 0 <= i <= n
      invariant PrefixTable(pref[..], xs, n)
      invariant acc == if HasZero(xs) then 0 else Inv(Product(xs[..i]))
      invariant forall k :: i <= k < n ==> o[k] == if HasZero(xs) then 0 else Inv(xs[k])
    {
      i := i - 1;
      assert pref[i] == pref[..][i];
      if !HasZero(xs) {
        PeelLast(xs, i, pref[i]);
      }
      o[i] := acc * pref[i] % P;
      acc := acc * xs[i] % P;
    }
    out := o[..];
  }
}
