/** Weighted reciprocals over the field. */
module Fractions {
  // Sums of w / (alpha - r): they vanish at every alpha, or at fewer than they have terms.

  import opened NumberTheory
  import opened Field
  import opened Polynomial

  /** The weights whose pole is v modulo P, added up. */
  function Weight(rs: seq<int>, ws: seq<int>, v: int): int
    requires |rs| == |ws|
  {
    if rs == [] then 0
    else
      var n := |rs| - 1;
      Weight(rs[..n], ws[..n], v) + if rs[n] % P == v then ws[n] else 0
  }

  /** The sum of ws[i] / (alpha - rs[i]). */
  function PoleSum(rs: seq<int>, ws: seq<int>, alpha: int): int
    requires |rs| == |ws|
  {
    if rs == [] then 0
    else
      var n := |rs| - 1;
      PoleSum(rs[..n], ws[..n], alpha) + ws[n] * Inv((alpha - rs[n]) % P)
  }

  ghost predicate Apart(alpha: int, rs: seq<int>) {
    forall i :: 0 <= i < |rs| ==> (alpha - rs[i]) % P != 0
  }

  // ----------------------------------------------------------------- grouped by pole

  /** The different residues, each once. */
  function Poles(rs: seq<int>): (ds: seq<int>)
    ensures |ds| <= |rs| && InField(ds) && NoDuplicates(ds)
    ensures forall d :: d in ds <==> exists i :: 0 <= i < |rs| && rs[i] % P == d
  {
    if rs == [] then []
    else
      var n := |rs| - 1;
      var ds := Poles(rs[..n]);
      assert forall d :: d in ds ==> exists i :: 0 <= i < n && rs[..n][i] % P == d;
      if rs[n] % P in ds then ds else ds + [rs[n] % P]
  }

  /** The sum with one fraction per pole. */
  function Grouped(ds: seq<int>, rs: seq<int>, ws: seq<int>, alpha: int): int
    requires |rs| == |ws|
  {
    if ds == [] then 0
    else
      var d := ds[|ds| - 1];
      Grouped(ds[..|ds| - 1], rs, ws, alpha) + Weight(rs, ws, d) * Inv((alpha - d) % P)
  }

  lemma {:induction false} GroupedEmpty(ds: seq<int>, alpha: int)
    ensures Grouped(ds, [], [], alpha) == 0
  {
    hide Inv;
    if ds != [] { GroupedEmpty(ds[..|ds| - 1], alpha); }
  }

  /** One more fraction goes to its own pole. */
  lemma {:induction false} GroupedNext(ds: seq<int>, rs: seq<int>, ws: seq<int>, alpha: int)
    requires |rs| == |ws| > 0 && NoDuplicates(ds)
    ensures var n := |rs| - 1;
      Grouped(ds, rs, ws, alpha) == Grouped(ds, rs[..n], ws[..n], alpha)
                                    + if rs[n] % P in ds then ws[n] * Inv((alpha - rs[n] % P) % P) else 0
  {
    hide Inv;
    if ds != [] {
      var n, d := |rs| - 1, ds[|ds| - 1];
      GroupedNext(ds[..|ds| - 1], rs, ws, alpha);
      if rs[n] % P == d {
        assert d !in ds[..|ds| - 1];
        SplitWeight(Weight(rs[..n], ws[..n], d), ws[n], Inv((alpha - d) % P));
      } else {
        assert rs[n] % P in ds <==> rs[n] % P in ds[..|ds| - 1];
      }
    }
  }

  lemma SplitWeight(a: int, w: int, x: int)
    ensures (a + w) * x == a * x + w * x
  {}

  lemma {:induction false} GroupedIs(ds: seq<int>, rs: seq<int>, ws: seq<int>, alpha: int)
    requires |rs| == |ws| && NoDuplicates(ds) && forall i :: 0 <= i < |rs| ==> rs[i] % P in ds
    ensures PoleSum(rs, ws, alpha) == Grouped(ds, rs, ws, alpha)
  {
    hide Inv, Grouped;
    if rs == [] {
      GroupedEmpty(ds, alpha);
    } else {
      var n := |rs| - 1;
      GroupedIs(ds, rs[..n], ws[..n], alpha);
      GroupedNext(ds, rs, ws, alpha);
      SubReduced(alpha, rs[n]);
    }
  }

  lemma SubReduced(a: int, r: int)
    ensures (a - r % P) % P == (a - r) % P
  {
    hide *;
    PIsPositive();
    ModMod(r, P);
    Congruent(a - r % P, a - r, r / P, P);
  }

  // -------------------------------------------------------------- cleared denominators

  /** prod (X - d) */
  function Den(ds: seq<int>): (c: seq<int>)
    ensures |c| == |ds| + 1
  {
    if ds == [] then [1] else TimesLinear(Den(ds[..|ds| - 1]), -ds[|ds| - 1], 1)
  }

  /** The numerator of the grouped sum over that denominator. */
  function Num(ds: seq<int>, rs: seq<int>, ws: seq<int>): (c: seq<int>)
    requires |rs| == |ws|
    ensures |c| == |ds|
  {
    if ds == [] then []
    else
      var e, d := ds[..|ds| - 1], ds[|ds| - 1];
      Add(TimesLinear(Num(e, rs, ws), -d, 1), Scale(Weight(rs, ws, d), Den(e)))
  }

  lemma DenEval(ds: seq<int>, x: int)
    ensures ds == [] ==> Eval(Den(ds), x) == 1
    ensures ds != [] ==> Eval(Den(ds), x) == Eval(Den(ds[..|ds| - 1]), x) * (x - ds[|ds| - 1])
  {
    if ds == [] {
      assert Eval([1], x) == 1 + x * Eval([], x);
      TimesCommute(x, 0);
      TimesZero(x);
    } else {
      EvalTimesLinear(Den(ds[..|ds| - 1]), -ds[|ds| - 1], 1, x);
    }
  }

  lemma NumEval(ds: seq<int>, rs: seq<int>, ws: seq<int>, x: int)
    requires |rs| == |ws|
    ensures ds == [] ==> Eval(Num(ds, rs, ws), x) == 0
    ensures ds != [] ==> var e, d := ds[..|ds| - 1], ds[|ds| - 1];
      Eval(Num(ds, rs, ws), x) == Eval(Num(e, rs, ws), x) * (x - d) + Weight(rs, ws, d) * Eval(Den(e), x)
  {
    if ds != [] {
      var e, d := ds[..|ds| - 1], ds[|ds| - 1];
      hide Weight, Eval, TimesLinear, Add, Scale;
      EvalTimesLinear(Num(e, rs, ws), -d, 1, x);
      EvalScale(Weight(rs, ws, d), Den(e), x);
      EvalAdd(TimesLinear(Num(e, rs, ws), -d, 1), Scale(Weight(rs, ws, d), Den(e)), x);
    }
  }

  lemma {:induction false} DenAtPole(ds: seq<int>, v: int)
    requires v in ds
    ensures Eval(Den(ds), v) == 0
  {
    DenEval(ds, v);
    hide Den, Eval;
    var e, d := ds[..|ds| - 1], ds[|ds| - 1];
    if d != v { DenAtPole(e, v); }
    TimesZero(v - d);
    TimesCommute(Eval(Den(e), v), 0);
    TimesZero(Eval(Den(e), v));
  }

  lemma {:induction false} DenElsewhere(ds: seq<int>, x: int)
    requires Apart(x, ds)
    ensures Eval(Den(ds), x) % P != 0
  {
    DenEval(ds, x);
    hide Den, Eval;
    if ds != [] {
      var e, d := ds[..|ds| - 1], ds[|ds| - 1];
      DenElsewhere(e, x);
      assert (x - d) % P != 0;
      GoldilocksIsPrime();
      if Eval(Den(ds), x) % P == 0 { Euclid(P, Eval(Den(e), x), x - d); }
    }
  }

  /** Away from the poles the numerator is the denominator times the sum. */
  lemma {:induction false} Cleared(ds: seq<int>, rs: seq<int>, ws: seq<int>, x: int)
    requires |rs| == |ws| && Apart(x, ds)
    ensures Eval(Num(ds, rs, ws), x) % P == (Eval(Den(ds), x) * Grouped(ds, rs, ws, x)) % P
  {
    NumEval(ds, rs, ws, x);
    DenEval(ds, x);
    hide Eval, Num, Den, Weight, Inv;
    if ds == [] {
      assert Grouped(ds, rs, ws, x) == 0;
    } else {
      var e, d := ds[..|ds| - 1], ds[|ds| - 1];
      assert (x - d) % P != 0;
      assert Apart(x, e);
      Cleared(e, rs, ws, x);
      ClearedStep(Eval(Num(e, rs, ws), x), Eval(Den(e), x), Grouped(e, rs, ws, x), Weight(rs, ws, d), x - d);
    }
  }

  lemma ClearedStep(num: int, den: int, g: int, w: int, y: int)
    requires num % P == (den * g) % P && y % P != 0
    ensures (num * y + w * den) % P == ((den * y) * (g + w * Inv(y % P))) % P
  {
    var r := Inv(y % P);
    hide *;
    PIsPositive();
    ModMod(y, P);
    InvCorrect(y % P);
    ModMul(y % P, y, r, r, P);
    ModSmall(1, P);
    ModMul(num, den * g, y, y, P);
    ModMul(w * den, w * den, 1, y * r, P);
    ModAdd(num * y, (den * g) * y, (w * den) * 1, (w * den) * (y * r), P);
    ClearedAlgebra(den, g, w, y, r);
  }

  lemma ClearedAlgebra(den: int, g: int, w: int, y: int, r: int)
    ensures (den * g) * y + (w * den) * (y * r) == (den * y) * (g + w * r)
  {
    assert (den * y) * (g + w * r) == (den * y) * g + (den * y) * (w * r);
    assert (den * y) * g == (den * g) * y;
    assert (den * y) * (w * r) == (w * den) * (y * r);
  }

  /** At a pole of nonzero weight the numerator does not vanish. */
  lemma {:induction false} NumAtPole(ds: seq<int>, rs: seq<int>, ws: seq<int>, v: int)
    requires |rs| == |ws| && InField(ds) && NoDuplicates(ds) && v in ds && Weight(rs, ws, v) % P != 0
    ensures Eval(Num(ds, rs, ws), v) % P != 0
  {
    hide Eval, Num, Den, Weight;
    NumEval(ds, rs, ws, v);
    var e, d := ds[..|ds| - 1], ds[|ds| - 1];
    if v == d {
      LastApart(ds);
      DenElsewhere(e, v);
      OnlyWeightLeft(Eval(Num(e, rs, ws), v), Weight(rs, ws, d), Eval(Den(e), v));
    } else {
      NumAtPole(e, rs, ws, v);
      DenAtPole(e, v);
      ModApart(v, d);
      OnlyNumLeft(Eval(Num(e, rs, ws), v), Weight(rs, ws, d), v - d);
    }
  }

  lemma LastApart(ds: seq<int>)
    requires ds != [] && InField(ds) && NoDuplicates(ds)
    ensures Apart(ds[|ds| - 1], ds[..|ds| - 1])
  {
    forall i | 0 <= i < |ds| - 1 ensures (ds[|ds| - 1] - ds[i]) % P != 0 { ModApart(ds[|ds| - 1], ds[i]); }
  }

  lemma OnlyWeightLeft(num: int, w: int, den: int)
    requires w % P != 0 && den % P != 0
    ensures (num * 0 + w * den) % P != 0
  {
    hide *;
    PIsPositive();
    GoldilocksIsPrime();
    TimesCommute(num, 0);
    TimesZero(num);
    if (w * den) % P == 0 { Euclid(P, w, den); }
  }

  lemma OnlyNumLeft(num: int, w: int, y: int)
    requires num % P != 0 && y % P != 0
    ensures (num * y + w * 0) % P != 0
  {
    hide *;
    PIsPositive();
    GoldilocksIsPrime();
    TimesCommute(w, 0);
    TimesZero(w);
    if (num * y) % P == 0 { Euclid(P, num, y); }
  }

  lemma ModApart(v: int, d: int)
    requires 0 <= v < P && 0 <= d < P && v != d
    ensures (v - d) % P != 0
  {
    if (v - d) % P == 0 {
      hide *;
      PIsPositive();
      DiffZero(v, d, P);
      SmallCongruent(v, d);
    }
  }

  // --------------------------------------------------------------------- the results

  lemma {:induction false} WeightNeedsPole(rs: seq<int>, ws: seq<int>, v: int) returns (i: nat)
    requires |rs| == |ws| && Weight(rs, ws, v) != 0
    ensures i < |rs| && rs[i] % P == v
  {
    var n := |rs| - 1;
    if rs[n] % P == v { i := n; } else { i := WeightNeedsPole(rs[..n], ws[..n], v); }
  }

  /** A nonzero weight at any pole: the sum vanishes at fewer points than it has fractions. */
  lemma PolesVanishRarely(rs: seq<int>, ws: seq<int>, v: int, alphas: set<int>)
    requires |rs| == |ws| && Weight(rs, ws, v) % P != 0
    requires forall a :: a in alphas ==> 0 <= a < P && Apart(a, rs) && PoleSum(rs, ws, a) % P == 0
    ensures |alphas| < |rs|
  {
    var ds := Poles(rs);
    ModSmall(0, P);
    var i := WeightNeedsPole(rs, ws, v);
    assert v in ds;
    var c := Num(ds, rs, ws);
    forall a | a in alphas ensures 0 <= a < P && Eval(c, a) % P == 0 {
      ApartFromPoles(a, rs);
      hide *;
      GroupedIs(ds, rs, ws, a);
      Cleared(ds, rs, ws, a);
      PIsPositive();
      ModMul(Eval(Den(ds), a), Eval(Den(ds), a), PoleSum(rs, ws, a), 0, P);
      TimesCommute(Eval(Den(ds), a), 0);
      TimesZero(Eval(Den(ds), a));
      ModSmall(0, P);
    }
    NumAtPole(ds, rs, ws, v);
    if ZeroPoly(c) { ZeroEvaluates(c, v); }
    RootBound(c, alphas);
  }

  lemma ApartFromPoles(a: int, rs: seq<int>)
    requires Apart(a, rs)
    ensures Apart(a, Poles(rs))
  {
    var ds := Poles(rs);
    forall k | 0 <= k < |ds| ensures (a - ds[k]) % P != 0 {
      assert ds[k] in ds;
      var i :| 0 <= i < |rs| && rs[i] % P == ds[k];
      SubReduced(a, rs[i]);
    }
  }

  lemma {:induction false} ZeroEvaluates(c: seq<int>, x: int)
    requires ZeroPoly(c)
    ensures Eval(c, x) % P == 0
  {
    if c != [] {
      ZeroEvaluates(c[1..], x);
      ZeroStep(c[0], x, Eval(c[1..], x));
    } else {
      ModSmall(0, P);
    }
  }

  lemma ZeroStep(c0: int, x: int, e: int)
    requires c0 % P == 0 && e % P == 0
    ensures (c0 + x * e) % P == 0
  {
    hide *;
    PIsPositive();
    ModSmall(0, P);
    ModMul(x, x, e, 0, P);
    TimesCommute(x, 0);
    TimesZero(x);
    ModAdd(c0, 0, x * e, 0, P);
  }

  /** No weight at any pole: the sum vanishes wherever it is defined, and so everywhere. */
  lemma PolesCancel(rs: seq<int>, ws: seq<int>, alpha: int)
    requires |rs| == |ws| && forall v :: 0 <= v < P ==> Weight(rs, ws, v) % P == 0
    ensures PoleSum(rs, ws, alpha) % P == 0
  {
    var ds := Poles(rs);
    forall i | 0 <= i < |rs| ensures rs[i] % P in ds {}
    GroupedIs(ds, rs, ws, alpha);
    NothingLeft(ds, rs, ws, alpha);
  }

  lemma {:induction false} NothingLeft(ds: seq<int>, rs: seq<int>, ws: seq<int>, alpha: int)
    requires |rs| == |ws| && InField(ds) && forall v :: 0 <= v < P ==> Weight(rs, ws, v) % P == 0
    ensures Grouped(ds, rs, ws, alpha) % P == 0
  {
    hide Weight, Inv;
    if ds != [] {
      var e, d := ds[..|ds| - 1], ds[|ds| - 1];
      NothingLeft(e, rs, ws, alpha);
      assert Weight(rs, ws, d) % P == 0;
      var x, g := Inv((alpha - d) % P), Grouped(e, rs, ws, alpha);
      ZeroStep(g, x, Weight(rs, ws, d));
      TimesCommute(x, Weight(rs, ws, d));
    } else {
      ModSmall(0, P);
    }
  }
}
