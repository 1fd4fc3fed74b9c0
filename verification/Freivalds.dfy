/** The matmul check of layergkr/sampled_audit.py. */
module Freivalds {
  // Y against X W^T through one random combination of the outputs. It passes exactly when every row's
  // combined error vanishes, so a right block always passes and a wrong entry passes for one value of its
  // coefficient at the most.

  import opened NumberTheory
  import opened Field
  import opened Polynomial
  import opened Rows
  import opened Rs
  import opened Contraction

  /** The combination of each output row. */
  function OutputSums(Y: Matrix, rho: seq<int>): (s: seq<int>)
    ensures |s| == |Y| && forall t :: 0 <= t < |Y| ==> s[t] == Inner(Y[t], rho, |rho|) % P
  {
    seq(|Y|, t requires 0 <= t < |Y| => Inner(Y[t], rho, |rho|) % P)
  }

  /** sum_i rho[i] * (y[i] - <x, W[i]>): the combined error of one row. */
  function Defect(x: seq<int>, y: seq<int>, W: Matrix, rho: seq<int>, n: nat, m: nat): int
    requires m <= |W| && m <= |y| && m <= |rho|
  {
    if m == 0 then 0 else Defect(x, y, W, rho, n, m - 1) + rho[m - 1] * (y[m - 1] - Inner(x, W[m - 1], n))
  }

  lemma {:induction false} DefectIsDifference(x: seq<int>, y: seq<int>, W: Matrix, rho: seq<int>, n: nat, m: nat)
    requires m <= |W| && m <= |y| && m <= |rho|
    ensures Defect(x, y, W, rho, n, m) == Inner(y, rho, m) - Against(x, W[..m], rho[..m], n)
  {
    if m > 0 {
      DefectIsDifference(x, y, W, rho, n, m - 1);
      AgainstSnoc(x, W, rho, n, m - 1);
      DefectTerm(rho[m - 1], y[m - 1], Inner(x, W[m - 1], n));
    }
  }

  lemma DefectTerm(r: int, y: int, e: int)
    ensures r * (y - e) == y * r - e * r
  {}

  lemma SameResidue(a: int, b: int)
    ensures a % P == b % P <==> (b - a) % P == 0
  {
    if a % P == b % P { ModSub(b, a, a, a, P); }
    if (b - a) % P == 0 { ModAdd(b - a, 0, a, a, P); }
  }

  /** One row of the check. */
  lemma RowExact(x: seq<int>, y: seq<int>, W: Matrix, rho: seq<int>, n: nat)
    requires |y| == |rho| == |W|
    ensures Inner(x, Mixed(W, rho, n), n) % P == Inner(y, rho, |rho|) % P <==> Defect(x, y, W, rho, n, |W|) % P == 0
  {
    DefectIsDifference(x, y, W, rho, n, |W|);
    assert W[..|W|] == W && rho[..|rho|] == rho;
    InnerBlend(x, W, rho, n);
    forall j | 0 <= j < n ensures At(Mixed(W, rho, n), j) % P == At(Blend(W, rho, n), j) % P {
      ModMod(Mix(W, rho, j), P);
    }
    InnerCongruent(x, x, Mixed(W, rho, n), Blend(W, rho, n), n);
    SameResidue(Against(x, W, rho, n), Inner(y, rho, |rho|));
  }

  /** The shapes of a matmul block. */
  ghost predicate MatmulShaped(X: Matrix, W: Matrix, Y: Matrix) {
    Rectangular(W) && AllWide(X, |W[0]|) && |Y| == |X| && AllWide(Y, |W|)
  }

  ghost predicate RowsAgree(X: Matrix, wp: seq<int>, yp: seq<int>) {
    |yp| == |X| && forall t :: 0 <= t < |X| ==> Inner(X[t], wp, |wp|) % P == yp[t]
  }

  method CheckRows(X: Matrix, wp: seq<int>, yp: seq<int>) returns (ok: bool)
    requires |yp| == |X|
    ensures ok <==> RowsAgree(X, wp, yp)
  {
    for t := 0 to |X|
      invariant forall k :: 0 <= k < t ==> Inner(X[k], wp, |wp|) % P == yp[k]
    {
      if Inner(X[t], wp, |wp|) % P != yp[t] {
        return false;
      }
    }
    ok := true;
  }

  /** With the recomputed projections the check passes exactly when no row has a combined error. */
  lemma FreivaldsExact(X: Matrix, W: Matrix, Y: Matrix, rho: seq<int>)
    requires MatmulShaped(X, W, Y) && |rho| == |W|
    ensures RowsAgree(X, Mixed(W, rho, |W[0]|), OutputSums(Y, rho))
            <==> forall t :: 0 <= t < |X| ==> Defect(X[t], Y[t], W, rho, |W[0]|, |W|) % P == 0
  {
    hide Defect, Inner, Mix;
    var n := |W[0]|;
    var wp, yp := Mixed(W, rho, n), OutputSums(Y, rho);
    forall t | 0 <= t < |X|
      ensures Inner(X[t], wp, |wp|) % P == yp[t] <==> Defect(X[t], Y[t], W, rho, n, |W|) % P == 0
    {
      RowExact(X[t], Y[t], W, rho, n);
    }
  }

  lemma {:induction false} RightRowHasNone(x: seq<int>, y: seq<int>, W: Matrix, rho: seq<int>, n: nat, m: nat)
    requires m <= |W| && m <= |y| && m <= |rho| && forall i :: 0 <= i < m ==> y[i] % P == Inner(x, W[i], n) % P
    ensures Defect(x, y, W, rho, n, m) % P == 0
  {
    if m > 0 {
      RightRowHasNone(x, y, W, rho, n, m - 1);
      var d := y[m - 1] - Inner(x, W[m - 1], n);
      SameResidue(Inner(x, W[m - 1], n), y[m - 1]);
      ModMul(rho[m - 1], rho[m - 1], d, 0, P);
      ModAdd(Defect(x, y, W, rho, n, m - 1), 0, rho[m - 1] * d, 0, P);
    }
  }

  /** A right block passes for every rho. */
  lemma RightMatmulPasses(X: Matrix, W: Matrix, Y: Matrix, rho: seq<int>)
    requires MatmulShaped(X, W, Y) && |rho| == |W| && IsOutput(Y, X, W, |W[0]|)
    ensures RowsAgree(X, Mixed(W, rho, |W[0]|), OutputSums(Y, rho))
  {
    hide Defect, Inner, RowsAgree;
    FreivaldsExact(X, W, Y, rho);
    forall t | 0 <= t < |X| ensures Defect(X[t], Y[t], W, rho, |W[0]|, |W|) % P == 0 {
      RightRowHasNone(X[t], Y[t], W, rho, |W[0]|, |W|);
    }
  }

  /** Changing rho[i] moves the combined error by the i-th error. */
  lemma {:induction false} DefectMoves(x: seq<int>, y: seq<int>, W: Matrix, rho: seq<int>, n: nat, m: nat, i: nat, r: int)
    requires m <= |W| && m <= |y| && m <= |rho| && i < |rho|
    ensures Defect(x, y, W, rho[i := r], n, m)
            == Defect(x, y, W, rho, n, m) + if i < m then (r - rho[i]) * (y[i] - Inner(x, W[i], n)) else 0
  {
    if m > 0 {
      DefectMoves(x, y, W, rho, n, m - 1, i, r);
      if i == m - 1 { MoveTerm(r, rho[i], y[i] - Inner(x, W[i], n)); }
    }
  }

  lemma MoveTerm(r: int, s: int, d: int)
    ensures r * d == s * d + (r - s) * d
  {}

  /** A wrong Y[t][i] passes, the other coefficients fixed, for one value of rho[i] at the most. */
  lemma OneRhoPasses(X: Matrix, W: Matrix, Y: Matrix, rho: seq<int>, t: nat, i: nat, r: int, s: int)
    requires MatmulShaped(X, W, Y) && |rho| == |W| && t < |X| && i < |W|
    requires Y[t][i] % P != Inner(X[t], W[i], |W[0]|) % P && 0 <= r < P && 0 <= s < P
    requires RowsAgree(X, Mixed(W, rho[i := r], |W[0]|), OutputSums(Y, rho[i := r]))
    requires RowsAgree(X, Mixed(W, rho[i := s], |W[0]|), OutputSums(Y, rho[i := s]))
    ensures r == s
  {
    hide Inner, Mix, RowsAgree;
    var n, x, y := |W[0]|, X[t], Y[t];
    FreivaldsExact(X, W, Y, rho[i := r]);
    FreivaldsExact(X, W, Y, rho[i := s]);
    DefectMoves(x, y, W, rho, n, |W|, i, r);
    DefectMoves(x, y, W, rho, n, |W|, i, s);
    assert Defect(x, y, W, rho[i := r], n, |W|) % P == 0 && Defect(x, y, W, rho[i := s], n, |W|) % P == 0;
    TwoMoves(Defect(x, y, W, rho, n, |W|), r, s, rho[i], y[i] - Inner(x, W[i], n));
    SameResidue(Inner(x, W[i], n), y[i]);
  }

  lemma TwoMoves(d: int, r: int, s: int, c: int, e: int)
    requires 0 <= r < P && 0 <= s < P && (d + (r - c) * e) % P == 0 && (d + (s - c) * e) % P == 0
    ensures r == s || e % P == 0
  {
    ModSub(d + (r - c) * e, 0, d + (s - c) * e, 0, P);
    MoveTerm(r - c, s - c, e);
    if r != s { NoZeroDivisor(r, s, e); }
  }
}
