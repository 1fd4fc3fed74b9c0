/** sumcheck_counts of layergkr/count_model.py. */
module CountModel {
  // The closed form for the multiplications and additions that prove_terms charges, against the charges
  // of its rounds.

  import opened NumberTheory
  import opened Field
  import opened Polynomial
  import opened Sumcheck
  import opened Protocol
  import opened Prover
  import opened Charges

  function SumPlus(counts: seq<nat>, extra: nat): nat {
    if counts == [] then 0 else counts[0] + extra + SumPlus(counts[1..], extra)
  }

  function MaxOf(counts: seq<nat>): nat {
    if counts == [] then 0
    else
      var rest := MaxOf(counts[1..]);
      if counts[0] > rest then counts[0] else rest
  }

  function FactorCounts(terms: seq<Term>): (c: seq<nat>)
    ensures |c| == |terms| && forall k :: 0 <= k < |c| ==> c[k] == |terms[k].factors|
  {
    seq(|terms|, k requires 0 <= k < |terms| => |terms[k].factors|)
  }

  lemma {:induction false} CountsOfTerms(terms: seq<Term>, extra: nat)
    ensures SumPlus(FactorCounts(terms), extra) == FactorCount(terms, extra)
    ensures MaxOf(FactorCounts(terms)) == Degree(terms)
  {
    if terms != [] {
      CountsOfTerms(terms[1..], extra);
      assert FactorCounts(terms)[1..] == FactorCounts(terms[1..]);
    }
  }

  /** The closed form, its halves added up in a loop; nothing for a domain below two. */
  method SumcheckCounts(size: nat, factorCounts: seq<nat>, ghost n: nat) returns (c: Charge)
    requires size == Pow2(n)
    ensures c == Charge((MaxOf(factorCounts) + 1) * (size - 1) * SumPlus(factorCounts, 1),
                        (MaxOf(factorCounts) + 1) * (size - 1) * SumPlus(factorCounts, 0))
  {
    if size < 2 {
      NoCells(MaxOf(factorCounts) + 1, SumPlus(factorCounts, 1));
      NoCells(MaxOf(factorCounts) + 1, SumPlus(factorCounts, 0));
      return Charge(0, 0);
    }
    var deg := MaxOf(factorCounts);
    Log2OfPow2(n);
    var nRounds := Log2(size);
    var totalHalf, half := 0, size / 2;
    hide Pow2;
    Pow2Unfold(n);
    for i := 0 to nRounds
      invariant totalHalf == size - Pow2(n - i) && (i < nRounds ==> half == Pow2(n - i - 1))
    {
      totalHalf := totalHalf + half;
      Pow2Unfold(n - i);
      if i + 1 < nRounds { Pow2Unfold(n - i - 1); }
      half := half / 2;
    }
    Pow2Zero();
    c := Charge((deg + 1) * totalHalf * SumPlus(factorCounts, 1), (deg + 1) * totalHalf * SumPlus(factorCounts, 0));
  }

  lemma Pow2Zero()
    ensures Pow2(0) == 1
  {}

  lemma NoCells(d: int, f: int)
    ensures d * (1 - 1) * f == 0
  {}

  /** prove_terms, charging as it goes, ends with exactly the closed form of its factor counts,
      whatever its terms, coins and tape. */
  method CountsMatch(terms: seq<Term>, coin: Coin, tape: MaskTape?, mu0: int, n: nat)
    returns (out: Proved, spent: Charge, predicted: Charge)
    requires terms != [] && Uniform(terms, Pow2(n)) && terms[0].factors != [] && Ready(coin, [])
    modifies CoinObjects(coin), tape
    ensures out == ProveResult(terms, n, CoinFnOf(coin), old(ViewOf(tape)), mu0)
    ensures out.Proof? ==> spent == predicted
  {
    hide ProveResult, CoinFnOf, Uniform, Degree, FactorCount, MaxOf, SumPlus;
    predicted := SumcheckCounts(Pow2(n), FactorCounts(terms), n);
    out, spent := ProveTerms(terms, coin, tape, mu0, n);
    CountsOfTerms(terms, 0);
    CountsOfTerms(terms, 1);
  }
}
