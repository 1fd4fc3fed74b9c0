/** The contraction identity behind layer.py and full_layer.py: the tau/rho-weighted output of a
    matmul equals the inner product of the two projections. */
module Contraction {
  import opened NumberTheory
  import opened Field
  import opened Polynomial
  import opened Sumcheck
  import opened Rows
  import opened Rs
  import opened Products

  /** The combination of the rows, unreduced. */
  function Blend(rows: Matrix, coeffs: seq<int>, n: nat): (v: seq<int>)
    ensures |v| == n && forall j :: 0 <= j < n ==> v[j] == Mix(rows, coeffs, j)
  {
    seq(n, j requires 0 <= j < n => Mix(rows, coeffs, j))
  }

  lemma {:induction false} InnerAxpy(v: seq<int>, w: seq<int>, k: int, u: seq<int>, y: seq<int>, n: nat)
    requires forall j :: 0 <= j < n ==> At(y, j) == At(w, j) * k + At(u, j)
    ensures Inner(v, y, n) == Inner(v, w, n) * k + Inner(v, u, n)
  {
    if n > 0 {
      InnerAxpy(v, w, k, u, y, n - 1);
      AxpyTerm(At(v, n - 1), At(w, n - 1), k, At(u, n - 1), Inner(v, w, n - 1));
    }
  }

  lemma AxpyTerm(v: int, w: int, k: int, u: int, s: int)
    ensures s * k + v * (w * k + u) == (s + v * w) * k + v * u
  {
    assert v * (w * k + u) == (v * w) * k + v * u;
    assert (s + v * w) * k == s * k + (v * w) * k;
  }

  lemma {:induction false} InnerCommutes(a: seq<int>, b: seq<int>, n: nat)
    ensures Inner(a, b, n) == Inner(b, a, n)
  {
    if n > 0 {
      InnerCommutes(a, b, n - 1);
      TimesCommute(At(a, n - 1), At(b, n - 1));
    }
  }

  /** sum_i <v, W[i]> * rho[i] */
  function Against(v: seq<int>, W: Matrix, rho: seq<int>, n: nat): int {
    if W == [] || rho == [] then 0 else Inner(v, W[0], n) * rho[0] + Against(v, W[1..], rho[1..], n)
  }

  lemma {:induction false} InnerBlend(v: seq<int>, W: Matrix, rho: seq<int>, n: nat)
    ensures Inner(v, Blend(W, rho, n), n) == Against(v, W, rho, n)
  {
    if W == [] || rho == [] {
      ZeroVector(v, Blend(W, rho, n), n);
    } else {
      InnerBlend(v, W[1..], rho[1..], n);
      InnerAxpy(v, W[0], rho[0], Blend(W[1..], rho[1..], n), Blend(W, rho, n), n);
    }
  }

  lemma {:induction false} ZeroVector(v: seq<int>, u: seq<int>, n: nat)
    requires forall j :: 0 <= j < |u| ==> u[j] == 0
    ensures Inner(v, u, n) == 0
  {
    if n > 0 {
      ZeroVector(v, u, n - 1);
      TimesCommute(At(v, n - 1), 0);
      TimesZero(At(v, n - 1));
    }
  }

  /** sum_t tau[t] * sum_i rho[i] * <X[t], W[i]> */
  function Doubled(X: Matrix, tau: seq<int>, W: Matrix, rho: seq<int>, n: nat): int {
    if X == [] || tau == [] then 0 else Against(X[0], W, rho, n) * tau[0] + Doubled(X[1..], tau[1..], W, rho, n)
  }

  lemma {:induction false} BlendedRows(X: Matrix, tau: seq<int>, W: Matrix, rho: seq<int>, n: nat)
    ensures Against(Blend(W, rho, n), X, tau, n) == Doubled(X, tau, W, rho, n)
  {
    if X != [] && tau != [] {
      BlendedRows(X[1..], tau[1..], W, rho, n);
      InnerCommutes(Blend(W, rho, n), X[0], n);
      InnerBlend(X[0], W, rho, n);
    }
  }

  /** The two projections' inner product is the doubly weighted output. */
  lemma ContractionIdentity(X: Matrix, tau: seq<int>, W: Matrix, rho: seq<int>, n: nat)
    ensures Inner(Blend(X, tau, n), Blend(W, rho, n), n) == Doubled(X, tau, W, rho, n)
  {
    InnerCommutes(Blend(X, tau, n), Blend(W, rho, n), n);
    InnerBlend(Blend(W, rho, n), X, tau, n);
    BlendedRows(X, tau, W, rho, n);
  }

  lemma {:induction false} InnerCongruent(a: seq<int>, a': seq<int>, b: seq<int>, b': seq<int>, n: nat)
    requires forall j :: 0 <= j < n ==> At(a, j) % P == At(a', j) % P && At(b, j) % P == At(b', j) % P
    ensures Inner(a, b, n) % P == Inner(a', b', n) % P
  {
    if n > 0 {
      InnerCongruent(a, a', b, b', n - 1);
      ModMul(At(a, n - 1), At(a', n - 1), At(b, n - 1), At(b', n - 1), P);
      ModAdd(Inner(a, b, n - 1), Inner(a', b', n - 1), At(a, n - 1) * At(b, n - 1), At(a', n - 1) * At(b', n - 1), P);
    }
  }

  lemma TwoFactors(a: seq<int>, b: seq<int>, i: nat)
    ensures ProdAt([a, b], i) == At(a, i) * At(b, i)
  {
    assert [a, b][1..] == [b] && [b][1..] == [];
    assert ProdAt([b], i) == At(b, i) * ProdAt([], i);
  }

  /** Padding with zeros adds nothing to the sum. */
  lemma {:induction false} PaddedSum(a: seq<int>, b: seq<int>, n: nat, m: nat)
    requires |a| <= n && |b| <= n
    ensures ProductSum([a, b], m) == Inner(a, b, if m <= n then m else n)
  {
    if m > 0 {
      PaddedSum(a, b, n, m - 1);
      TwoFactors(a, b, m - 1);
      if m > n { TimesZero(At(b, m - 1)); }
    }
  }

  // --------------------------------------------------- the prover's own check

  /** The weighted row: sum_i of tau * rho[i] * y[i]. */
  function WeightedRow(tau: int, rho: seq<int>, y: seq<int>, m: nat): int
    requires m <= |rho| && m <= |y|
  {
    if m == 0 then 0 else WeightedRow(tau, rho, y, m - 1) + tau * rho[m - 1] * y[m - 1]
  }

  /** Y is the reduced product of X and W. */
  ghost predicate IsOutput(Y: Matrix, X: Matrix, W: Matrix, n: nat) {
    && |Y| == |X| && AllWide(Y, |W|)
    && forall t, i :: 0 <= t < |X| && 0 <= i < |W| ==> Y[t][i] % P == Inner(X[t], W[i], n) % P
  }

  lemma {:induction false} RowAgainst(tau: int, rho: seq<int>, y: seq<int>, x: seq<int>, W: Matrix, n: nat, m: nat)
    requires |rho| == |y| == |W| && m <= |W| && forall i :: 0 <= i < |W| ==> y[i] % P == Inner(x, W[i], n) % P
    ensures WeightedRow(tau, rho, y, m) % P == (tau * Against(x, W[..m], rho[..m], n)) % P
  {
    hide *;
    PIsPositive();
    RowStart(tau, rho, y, x, W, n);
    if m > 0 {
      var i := m - 1;
      RowAgainst(tau, rho, y, x, W, n, i);
      AgainstSnoc(x, W, rho, n, i);
      RowTerm(tau, rho[i], y[i], Inner(x, W[i], n), WeightedRow(tau, rho, y, i), Against(x, W[..i], rho[..i], n));
      WeightedRowStep(tau, rho, y, m);
    }
  }

  lemma RowStart(tau: int, rho: seq<int>, y: seq<int>, x: seq<int>, W: Matrix, n: nat)
    ensures WeightedRow(tau, rho, y, 0) % P == (tau * Against(x, W[..0], rho[..0], n)) % P
  {
    TimesCommute(tau, 0);
    TimesZero(tau);
  }

  lemma WeightedRowStep(tau: int, rho: seq<int>, y: seq<int>, m: nat)
    requires 0 < m <= |rho| && m <= |y|
    ensures WeightedRow(tau, rho, y, m) == WeightedRow(tau, rho, y, m - 1) + tau * rho[m - 1] * y[m - 1]
  {}

  lemma RowTerm(tau: int, r: int, y: int, e: int, s: int, a: int)
    requires y % P == e % P && s % P == (tau * a) % P
    ensures (s + tau * r * y) % P == (tau * (a + e * r)) % P
  {
    ModMul(tau * r, tau * r, y, e, P);
    ModAdd(s, tau * a, tau * r * y, tau * r * e, P);
    assert tau * (a + e * r) == tau * a + tau * (e * r);
    assert tau * (e * r) == tau * r * e;
  }

  lemma {:induction false} AgainstSnoc(v: seq<int>, W: Matrix, rho: seq<int>, n: nat, m: nat)
    requires m < |W| && m < |rho|
    ensures Against(v, W[..m + 1], rho[..m + 1], n) == Against(v, W[..m], rho[..m], n) + Inner(v, W[m], n) * rho[m]
  {
    if m > 0 {
      AgainstSnoc(v, W[1..], rho[1..], n, m - 1);
      assert W[..m + 1][1..] == W[1..][..m] && rho[..m + 1][1..] == rho[1..][..m];
      assert W[..m][1..] == W[1..][..m - 1] && rho[..m][1..] == rho[1..][..m - 1];
    }
  }

  lemma {:induction false} DoubledSnoc(X: Matrix, tau: seq<int>, W: Matrix, rho: seq<int>, n: nat, m: nat)
    requires m < |X| && m < |tau|
    ensures Doubled(X[..m + 1], tau[..m + 1], W, rho, n) == Doubled(X[..m], tau[..m], W, rho, n) + Against(X[m], W, rho, n) * tau[m]
  {
    if m > 0 {
      DoubledSnoc(X[1..], tau[1..], W, rho, n, m - 1);
      assert X[..m + 1][1..] == X[1..][..m] && tau[..m + 1][1..] == tau[1..][..m];
      assert X[..m][1..] == X[1..][..m - 1] && tau[..m][1..] == tau[1..][..m - 1];
    }
  }

  /** The inner loop over one row of the output. */
  method OutputRow(before: int, tau: int, rho: seq<int>, y: seq<int>, ghost x: seq<int>, ghost W: Matrix, ghost n: nat, ghost d: int)
    returns (direct: int)
    requires |rho| == |y| == |W| && before == d % P && forall i :: 0 <= i < |W| ==> y[i] % P == Inner(x, W[i], n) % P
    ensures direct == (d + Against(x, W, rho, n) * tau) % P
  {
    hide Against, Inner, WeightedRow;
    direct := before;
    RowBegins(before, d, tau, rho, y);
    for i := 0 to |y|
      invariant direct % P == (before + WeightedRow(tau, rho, y, i)) % P && 0 <= direct < P
    {
      WeightedRowStep(tau, rho, y, i + 1);
      DirectStep(direct, before + WeightedRow(tau, rho, y, i), tau * rho[i] * y[i]);
      direct := (direct + tau * rho[i] * y[i]) % P;
    }
    RowEnds(direct, before, d, tau, rho, y, x, W, n);
  }

  lemma RowBegins(before: int, d: int, tau: int, rho: seq<int>, y: seq<int>)
    requires before == d % P
    ensures before % P == (before + WeightedRow(tau, rho, y, 0)) % P && 0 <= before < P
  {}

  lemma RowEnds(direct: int, before: int, d: int, tau: int, rho: seq<int>, y: seq<int>, x: seq<int>, W: Matrix, n: nat)
    requires |rho| == |y| == |W| && before == d % P && forall i :: 0 <= i < |W| ==> y[i] % P == Inner(x, W[i], n) % P
    requires direct % P == (before + WeightedRow(tau, rho, y, |y|)) % P && 0 <= direct < P
    ensures direct == (d + Against(x, W, rho, n) * tau) % P
  {
    hide *;
    PIsPositive();
    RowAgainst(tau, rho, y, x, W, n, |W|);
    assert W[..|W|] == W && rho[..|rho|] == rho;
    RowDone(direct, before, WeightedRow(tau, rho, y, |W|), tau, Against(x, W, rho, n), d);
  }

  /** The direct double loop over the output. */
  method DirectSum(tau: seq<int>, rho: seq<int>, Y: Matrix, ghost X: Matrix, ghost W: Matrix, ghost n: nat) returns (direct: int)
    requires IsOutput(Y, X, W, n) && |tau| == |X| && |rho| == |W|
    ensures direct == Doubled(X, tau, W, rho, n) % P
  {
    hide Doubled, Against, Inner;
    direct := 0;
    NothingDoubled(W, rho, n);
    assert X[..0] == [] && tau[..0] == [];
    for t := 0 to |Y|
      invariant direct == Doubled(X[..t], tau[..t], W, rho, n) % P
    {
      direct := OutputRow(direct, tau[t], rho, Y[t], X[t], W, n, Doubled(X[..t], tau[..t], W, rho, n));
      DoubledSnoc(X, tau, W, rho, n, t);
    }
    assert X[..|X|] == X && tau[..|tau|] == tau;
  }

  lemma NothingDoubled(W: Matrix, rho: seq<int>, n: nat)
    ensures Doubled([], [], W, rho, n) == 0 && 0 % P == 0
  {}

  lemma DirectStep(direct: int, goal: int, x: int)
    requires direct % P == goal % P
    ensures ((direct + x) % P) % P == (goal + x) % P && 0 <= (direct + x) % P < P
  {
    ModMod(direct + x, P);
    ModAdd(direct, goal, x, x, P);
  }

  lemma RowDone(direct: int, before: int, row: int, tau: int, a: int, d: int)
    requires direct % P == (before + row) % P && 0 <= direct < P && before == d % P && row % P == (tau * a) % P
    ensures direct == (d + a * tau) % P
  {
    ModSmall(direct, P);
    ModMod(d, P);
    ModAdd(before, d, row, tau * a, P);
    TimesCommute(tau, a);
  }
}
