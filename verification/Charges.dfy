/** What prove_terms charges for its rounds: multiplications and additions, in the source's own
    accounting. */
module Charges {
  import opened NumberTheory
  import opened Field
  import opened Polynomial
  import opened Sumcheck
  import opened Protocol

  datatype Charge = Charge(mul: int, add: int)

  /** sum of the factor counts, each plus `extra` */
  function FactorCount(terms: seq<Term>, extra: nat): nat {
    if terms == [] then 0 else |terms[0].factors| + extra + FactorCount(terms[1..], extra)
  }

  /** One round on top of what was spent: (deg+1) points over half positions. */
  function AfterRound(spent: Charge, cur: seq<Term>, half: nat, deg: nat): Charge {
    Charge(spent.mul + (deg + 1) * half * FactorCount(cur, 1), spent.add + (deg + 1) * half * FactorCount(cur, 0))
  }

  /** The charge for `cells` evaluated positions. */
  function ChargeFor(cells: int, terms: seq<Term>, deg: nat): Charge {
    Charge((deg + 1) * cells * FactorCount(terms, 1), (deg + 1) * cells * FactorCount(terms, 0))
  }

  lemma {:induction false} FoldCount(terms: seq<Term>, r: int, extra: nat)
    ensures FactorCount(FoldTerms(terms, r), extra) == FactorCount(terms, extra)
  {
    if terms != [] {
      FoldCount(terms[1..], r, extra);
      assert FoldTerms(terms, r)[1..] == FoldTerms(terms[1..], r);
    }
  }

  lemma {:induction false} ReduceCount(terms: seq<Term>, extra: nat)
    ensures FactorCount(ReduceCoeffs(terms), extra) == FactorCount(terms, extra)
  {
    if terms != [] {
      ReduceCount(terms[1..], extra);
      assert ReduceCoeffs(terms)[1..] == ReduceCoeffs(terms[1..]);
    }
  }

  ghost predicate SameCounts(a: seq<Term>, b: seq<Term>) {
    FactorCount(a, 0) == FactorCount(b, 0) && FactorCount(a, 1) == FactorCount(b, 1)
  }

  lemma NothingSpent(terms: seq<Term>, deg: nat)
    ensures Charge(0, 0) == ChargeFor(0, terms, deg) && SameCounts(terms, terms)
  {
    hide FactorCount;
  }

  /** A round over half positions and the fold after it. */
  lemma RoundSpent(spent: Charge, cells: int, terms: seq<Term>, cur: seq<Term>, half: nat, deg: nat, r: int)
    requires spent == ChargeFor(cells, terms, deg) && SameCounts(cur, terms)
    ensures AfterRound(spent, cur, half, deg) == ChargeFor(cells + half, terms, deg) && SameCounts(FoldTerms(cur, r), terms)
  {
    FoldCount(cur, r, 0);
    FoldCount(cur, r, 1);
    hide FactorCount, FoldTerms;
    MoreCells(deg + 1, cells, half, FactorCount(terms, 0));
    MoreCells(deg + 1, cells, half, FactorCount(terms, 1));
  }

  lemma MoreCells(d: int, a: int, b: int, f: int)
    ensures d * a * f + d * b * f == d * (a + b) * f
  {
    assert d * (a + b) == d * a + d * b;
    assert (d * a + d * b) * f == d * a * f + d * b * f;
  }

  lemma ReducedCharge(cells: int, terms: seq<Term>, deg: nat)
    ensures ChargeFor(cells, ReduceCoeffs(terms), deg) == ChargeFor(cells, terms, deg)
  {
    ReduceCount(terms, 0);
    ReduceCount(terms, 1);
    hide FactorCount, ReduceCoeffs;
  }
}
