/** verify_terms as it runs, and the theorems of the protocol restated for the two
    programs: what the prover's loop sends is what the verifier's loop accepts. */
module Verifier {
  import opened NumberTheory
  import opened Field
  import opened Polynomial
  import opened Interpolation
  import opened Sumcheck
  import opened Protocol
  import opened Prover

  // ---------------------------------------------------------- the common size

  function FirstSize(terms: seq<Term>): nat {
    if terms == [] then 0
    else if terms[0].factors != [] then |terms[0].factors[0]|
    else FirstSize(terms[1..])
  }

  function Sizes(terms: seq<Term>): set<nat> {
    set k, j | 0 <= k < |terms| && 0 <= j < |terms[k].factors| :: |terms[k].factors[j]|
  }

  lemma SizeIsMember(terms: seq<Term>, k: nat, j: nat)
    requires k < |terms| && j < |terms[k].factors|
    ensures |terms[k].factors[j]| in Sizes(terms)
  {}

  lemma {:induction false} FirstSizeWitness(terms: seq<Term>) returns (k: nat)
    requires HasFactor(terms)
    ensures k < |terms| && terms[k].factors != [] && FirstSize(terms) == |terms[k].factors[0]|
  {
    if terms[0].factors != [] {
      k := 0;
    } else {
      var i :| 0 <= i < |terms| && terms[i].factors != [];
      assert terms[1..][i - 1] == terms[i];
      k := FirstSizeWitness(terms[1..]);
      k := k + 1;
    }
  }

  /** One length among the factors: the test of verify_terms. */
  lemma OneSize(terms: seq<Term>)
    ensures |Sizes(terms)| == 1 <==> Uniform(terms, FirstSize(terms))
    ensures |Sizes(terms)| == 1 ==> Sizes(terms) == {FirstSize(terms)}
  {
    var sizes := Sizes(terms);
    if |sizes| == 1 {
      var s :| s in sizes;
      assert sizes == {s} by { Singleton(sizes, s); }
      assert HasFactor(terms);
      var k0 := FirstSizeWitness(terms);
      SizeIsMember(terms, k0, 0);
      forall k | 0 <= k < |terms| ensures FactorsSized(terms[k].factors, s) {
        forall j | 0 <= j < |terms[k].factors| ensures |terms[k].factors[j]| == s {
          SizeIsMember(terms, k, j);
        }
      }
    }
    if Uniform(terms, FirstSize(terms)) {
      var k0 := FirstSizeWitness(terms);
      SizeIsMember(terms, k0, 0);
      forall s | s in sizes ensures s == FirstSize(terms) {
        var k, j :| 0 <= k < |terms| && 0 <= j < |terms[k].factors| && s == |terms[k].factors[j]|;
        assert FactorsSized(terms[k].factors, FirstSize(terms));
      }
      assert sizes == {FirstSize(terms)};
    }
  }

  lemma Singleton<T>(s: set<T>, x: T)
    requires |s| == 1 && x in s
    ensures s == {x}
  {
    assert |s - {x}| == 0;
  }

  lemma UniformSize(terms: seq<Term>, size: nat)
    requires Uniform(terms, size)
    ensures FirstSize(terms) == size
  {
    var k := FirstSizeWitness(terms);
    assert FactorsSized(terms[k].factors, size);
  }

  // -------------------------------------------------------------- verify_terms

  /** What verify_terms answers, for any proof and any terms. */
  function VerifyResult(proof: SumcheckProof, terms: seq<Term>, coin: CoinFn): Verdict {
    if Uniform(terms, FirstSize(terms)) then VerifySized(proof, terms, FirstSize(terms), coin) else Reject
  }

  method TerminalValue(terms: seq<Term>, point: seq<int>) returns (terminal: int)
    ensures terminal == Terminal(terms, point)
  {
    terminal := 0;
    for k := 0 to |terms|
      invariant (terminal + TerminalSum(terms[k..], point)) % P == TerminalSum(terms, point) % P
      invariant 0 <= terminal < P
    {
      var fs, prod := terms[k].factors, terms[k].coeff % P;
      ModMod(terms[k].coeff, P);
      ModMul(prod, terms[k].coeff, ProdMle(fs, point), ProdMle(fs, point), P);
      for j := 0 to |fs|
        invariant (prod * ProdMle(fs[j..], point)) % P == (terms[k].coeff * ProdMle(fs, point)) % P
      {
        var v := MleEval(fs[j], point);
        assert fs[j..][1..] == fs[j + 1..];
        ProductStep(prod, v, v, ProdMle(fs[j + 1..], point), terms[k].coeff * ProdMle(fs, point));
        prod := prod * v % P;
      }
      TerminalStep(terms, k, point, terminal, prod);
      terminal := (terminal + prod) % P;
    }
    ModSmall(terminal, P);
  }

  lemma TerminalStep(terms: seq<Term>, k: nat, point: seq<int>, terminal: int, prod: int)
    requires k < |terms|
    requires (terminal + TerminalSum(terms[k..], point)) % P == TerminalSum(terms, point) % P
    requires prod % P == (terms[k].coeff * ProdMle(terms[k].factors, point)) % P
    ensures ((terminal + prod) % P + TerminalSum(terms[k + 1..], point)) % P == TerminalSum(terms, point) % P
  {
    var rest := TerminalSum(terms[k + 1..], point);
    assert terms[k..][1..] == terms[k + 1..];
    SumShift(terminal, prod, terms[k].coeff * ProdMle(terms[k].factors, point), rest);
    ModMod(terminal + prod, P);
    ModAdd((terminal + prod) % P, terminal + prod, rest, rest, P);
  }

  lemma VerifyStep(claim: int, polys: seq<seq<Sample>>, challenges: seq<int>, rnd: nat, deg: nat, coin: CoinFn)
    requires |polys| == |challenges| && rnd < |polys|
    ensures VerifyRounds(claim, polys[rnd..], challenges[rnd..], deg, coin, polys[..rnd])
            == var s := polys[rnd];
               var r := coin(polys[..rnd + 1]) % P;
               if |s| == deg + 1 && (Lagrange(s, 0) + Lagrange(s, 1)) % P == claim && r == challenges[rnd]
               then VerifyRounds(Lagrange(s, r), polys[rnd + 1..], challenges[rnd + 1..], deg, coin, polys[..rnd + 1])
               else Broken
  {
    assert polys[rnd..] == [polys[rnd]] + polys[rnd + 1..];
    assert challenges[rnd..] == [challenges[rnd]] + challenges[rnd + 1..];
    assert polys[..rnd] + [polys[rnd]] == polys[..rnd + 1];
    VerifyCons(claim, polys[rnd], challenges[rnd], polys[rnd + 1..], challenges[rnd + 1..], deg, coin, polys[..rnd]);
  }

  /** The round chain. */
  method CheckRounds(claim0: int, polys: seq<seq<Sample>>, challenges: seq<int>, deg: nat, coin: Coin)
    returns (chain: Chain)
    requires |polys| == |challenges| && Ready(coin, [])
    modifies CoinObjects(coin)
    ensures chain == VerifyRounds(claim0, polys, challenges, deg, CoinFnOf(coin), [])
  {
    hide VerifyRounds, CoinFnOf;
    var claim := claim0;
    assert polys[..0] == [] && polys[0..] == polys && challenges[0..] == challenges;
    for rnd := 0 to |polys|
      invariant Ready(coin, polys[..rnd])
      invariant VerifyRounds(claim, polys[rnd..], challenges[rnd..], deg, CoinFnOf(coin), polys[..rnd])
                == VerifyRounds(claim0, polys, challenges, deg, CoinFnOf(coin), [])
    {
      VerifyStep(claim, polys, challenges, rnd, deg, CoinFnOf(coin));
      var samples := polys[rnd];
      if |samples| != deg + 1 {
        return Broken;
      }
      var g0 := LagrangeInterpolate(samples, 0);
      var g1 := LagrangeInterpolate(samples, 1);
      if (g0 + g1) % P != claim {
        return Broken;
      }
      assert polys[..rnd] + [samples] == polys[..rnd + 1];
      var r := DrawCoin(coin, rnd, samples, polys[..rnd]);
      if r != challenges[rnd] {
        return Broken;
      }
      claim := LagrangeInterpolate(samples, r);
    }
    NoRoundsLeft(claim, polys, challenges, deg, CoinFnOf(coin));
    chain := Ends(claim);
  }

  lemma NoRoundsLeft(claim: int, polys: seq<seq<Sample>>, challenges: seq<int>, deg: nat, coin: CoinFn)
    requires |polys| == |challenges|
    ensures VerifyRounds(claim, polys[|polys|..], challenges[|polys|..], deg, coin, polys[..|polys|]) == Ends(claim)
  {}

  method VerifyTerms(proof: SumcheckProof, terms: seq<Term>, coin: Coin) returns (v: Verdict)
    requires Ready(coin, [])
    modifies CoinObjects(coin)
    ensures v == VerifyResult(proof, terms, CoinFnOf(coin))
  {
    hide VerifyRounds, CoinFnOf, Terminal, Sizes, Degree, Uniform, FirstSize, Pow2, Log2;
    var sizes := Sizes(terms);
    OneSize(terms);
    if |sizes| != 1 {
      return Reject;
    }
    var size :| size in sizes;
    var n := Log2(size);
    if size == 0 || size != Pow2(n) {
      return Raise;
    }
    if |proof.roundPolys| != n || |proof.challenges| != n || |proof.finalPoint| != n {
      return Reject;
    }
    var deg := MaxDegree(terms);
    var chain := CheckRounds(proof.claim % P, proof.roundPolys, proof.challenges, deg, coin);
    if chain == Broken {
      return Reject;
    }
    if proof.finalPoint != proof.challenges {
      return Reject;
    }
    var terminal := TerminalValue(terms, proof.finalPoint);
    var expected := if proof.masked then (terminal + proof.finalMask) % P else terminal;
    v := if chain.claim == expected then Accept else Reject;
  }

  // ----------------------------------------------------- the programs together

  /** prove_terms, then verify_terms with a transcript of its own over the same context:
      accepted whenever a tape was used, and without one exactly when no mask was carried
      in. */
  method ProveThenVerify(terms: seq<Term>, oracle: RoundOracle, context: seq<Bytes>, tape: MaskTape?,
                         mu0: int, n: nat) returns (v: Verdict)
    requires Uniform(terms, Pow2(n)) && terms[0].factors != [] && Degree(terms) < P
    requires tape != null ==> tape.pos + n * Degree(terms) <= |tape.values|
    modifies tape
    ensures v == if tape != null || mu0 % P == 0 then Accept else Reject
  {
    assert terms != [];
    hide Uniform, Degree, VerifySized, Prove, CoinFnOf, Pow2, HasRows, TapeRows;
    ghost var view := ViewOf(tape);
    if tape != null {
      HasRowsExactly(tape.values, tape.pos, Degree(terms), n);
    }
    var proverCoins := new RoundTranscript(oracle, context);
    var out, spent := ProveTerms(terms, Transcribed(proverCoins), tape, mu0, n);
    var verifierCoins := new RoundTranscript(oracle, context);
    SameCoins(proverCoins, verifierCoins);
    v := VerifyTerms(out.proof, terms, Transcribed(verifierCoins));
    UniformSize(terms, Pow2(n));
    RowsFitOf(view, Degree(terms), n);
    Completeness(terms, n, CoinFnOf(Transcribed(proverCoins)), tape != null, view.Rows(Degree(terms), n), mu0);
  }

  lemma RowsFitOf(view: TapeView, deg: nat, n: nat)
    requires view.Suffices(deg, n)
    ensures RowsFit(view.View?, view.Rows(deg, n), n, deg)
  {}

  lemma SameCoins(a: RoundTranscript, b: RoundTranscript)
    requires a.oracle == b.oracle && a.start == b.start
    ensures CoinFnOf(Transcribed(a)) == CoinFnOf(Transcribed(b))
  {}
}
