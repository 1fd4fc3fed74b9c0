/** Powers of two as the code finds them: by doubling until a length fits. */
module PowerOfTwo {
  import opened NumberTheory
  import opened Polynomial

  /** The rounded-up logarithm. */
  function CeilLog(n: nat): nat {
    if n <= 1 then 0 else 1 + CeilLog((n + 1) / 2)
  }

  lemma {:induction false} CeilLogExact(n: nat)
    ensures n <= Pow2(CeilLog(n)) && (n > 1 ==> CeilLog(n) > 0 && Pow2(CeilLog(n) - 1) < n)
  {
    if n > 1 {
      CeilLogExact((n + 1) / 2);
      if (n + 1) / 2 > 1 { Pow2Unfold(CeilLog(n) - 1); }
    }
  }

  /** The smallest power of two that reaches n. */
  method NextPow2(n: nat) returns (p: nat)
    ensures p == Pow2(CeilLog(n))
  {
    CeilLogExact(n);
    p := 1;
    ghost var k := 0;
    while p < n
      invariant p == Pow2(k) && k <= CeilLog(n)
      decreases CeilLog(n) - k
    {
      BelowCeilLog(n, k);
      p := p * 2;
      k := k + 1;
    }
    if k < CeilLog(n) { Pow2Monotone(k, CeilLog(n) - 1); }
  }

  lemma BelowCeilLog(n: nat, k: nat)
    requires k <= CeilLog(n) && Pow2(k) < n
    ensures k < CeilLog(n)
  {
    CeilLogExact(n);
  }

  /** Already a power of two. */
  lemma {:induction false} CeilLogOfPow2(k: nat)
    ensures CeilLog(Pow2(k)) == k
  {
    if k > 0 {
      CeilLogOfPow2(k - 1);
      Pow2Unfold(k);
    }
  }
}
