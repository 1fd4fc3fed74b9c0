/** Finite sums of integer functions: the algebra behind every linear identity here. */
module Sums {
  import opened NumberTheory
  import opened Field

  function SumTo(n: nat, f: int -> int): int {
    if n == 0 then 0 else SumTo(n - 1, f) + f(n - 1)
  }

  lemma {:induction false} SumExt(n: nat, f: int -> int, g: int -> int)
    requires forall i :: 0 <= i < n ==> f(i) == g(i)
    ensures SumTo(n, f) == SumTo(n, g)
  {
    if n > 0 { SumExt(n - 1, f, g); }
  }

  lemma {:induction false} SumCong(n: nat, f: int -> int, g: int -> int)
    requires forall i :: 0 <= i < n ==> f(i) % P == g(i) % P
    ensures SumTo(n, f) % P == SumTo(n, g) % P
  {
    if n > 0 {
      SumCong(n - 1, f, g);
      ModAdd(SumTo(n - 1, f), SumTo(n - 1, g), f(n - 1), g(n - 1), P);
    }
  }

  lemma {:induction false} SumAdd(n: nat, f: int -> int, g: int -> int)
    ensures SumTo(n, i => f(i) + g(i)) == SumTo(n, f) + SumTo(n, g)
  {
    if n > 0 { SumAdd(n - 1, f, g); }
  }

  lemma {:induction false} SumScale(n: nat, k: int, f: int -> int)
    ensures SumTo(n, i => k * f(i)) == k * SumTo(n, f)
  {
    if n > 0 {
      SumScale(n - 1, k, f);
      TimesSum(k, SumTo(n - 1, f), f(n - 1));
    }
  }

  lemma TimesSum(k: int, a: int, b: int)
    ensures k * (a + b) == k * a + k * b
  {}

  lemma {:induction false} SumZero(n: nat, f: int -> int)
    requires forall i :: 0 <= i < n ==> f(i) == 0
    ensures SumTo(n, f) == 0
  {
    if n > 0 { SumZero(n - 1, f); }
  }

  /** All but one term vanish. */
  lemma {:induction false} SumOnly(n: nat, k: int, f: int -> int)
    requires 0 <= k < n && forall i :: 0 <= i < n && i != k ==> f(i) == 0
    ensures SumTo(n, f) == f(k)
  {
    if k == n - 1 {
      SumZero(n - 1, f);
    } else {
      SumOnly(n - 1, k, f);
    }
  }

  /** Exchange of the order of summation. */
  lemma {:induction false} SumSwap(n: nat, m: nat, f: (int, int) -> int)
    ensures SumTo(n, i => SumTo(m, j => f(i, j))) == SumTo(m, j => SumTo(n, i => f(i, j)))
  {
    if n == 0 {
      SumZero(m, j => SumTo(n, i => f(i, j)));
    } else {
      var inner, last := j => SumTo(n - 1, i => f(i, j)), j => f(n - 1, j);
      SumSwap(n - 1, m, f);
      SumAdd(m, inner, last);
      SumExt(m, j => SumTo(n, i => f(i, j)), j => inner(j) + last(j));
      SumExt(m, j => f(n - 1, j), last);
    }
  }

  lemma {:induction false} SumSplit(k: nat, m: nat, f: int -> int)
    ensures SumTo(k + m, f) == SumTo(k, f) + SumTo(m, i => f(k + i))
  {
    if m > 0 {
      SumSplit(k, m - 1, f);
      assert SumTo(k + m, f) == SumTo(k + m - 1, f) + f(k + m - 1);
    }
  }
}
