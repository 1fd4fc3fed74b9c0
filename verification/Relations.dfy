/** The batched gate argument of layergkr/relations.py: every gate of a layer, weighted by a random
    lambda and by eq(z, .), in one sumcheck. */
module Relations {
  import opened NumberTheory
  import opened Field
  import opened Polynomial
  import opened Interpolation
  import opened Sumcheck
  import opened Protocol
  import opened Prover
  import opened Verifier
  import opened Soundness
  import opened Rows
  import opened Gates
  import opened EqWeights
  import opened PowerOfTwo
  import T = Transcript

  // ------------------------------------------------------------------ the batch

  function PadAll(fs: seq<seq<int>>, size: nat): (r: seq<seq<int>>)
    ensures |r| == |fs| && forall j :: 0 <= j < |r| ==> r[j] == Padded(fs[j], size)
  {
    seq(|fs|, j requires 0 <= j < |fs| => Padded(fs[j], size))
  }

  /** lam * coeff times eq times the padded factors, term by term. */
  function Weigh(eq: seq<int>, lam: int, ts: seq<Term>, size: nat): (us: seq<Term>)
    ensures |us| == |ts|
    ensures forall k :: 0 <= k < |ts| ==> us[k] == Term((lam * ts[k].coeff) % P, [eq] + PadAll(ts[k].factors, size))
  {
    seq(|ts|, k requires 0 <= k < |ts| => Term((lam * ts[k].coeff) % P, [eq] + PadAll(ts[k].factors, size)))
  }

  /** zip(lambdas, gates) */
  function BatchTerms(eq: seq<int>, lambdas: seq<int>, gates: seq<Gate>, size: nat): seq<Term> {
    if lambdas == [] || gates == [] then []
    else Weigh(eq, lambdas[0], gates[0].terms, size) + BatchTerms(eq, lambdas[1..], gates[1..], size)
  }

  /** The lambda-combination of all gates at index i. */
  function BatchAt(lambdas: seq<int>, gates: seq<Gate>, i: nat): int {
    if lambdas == [] || gates == [] then 0
    else lambdas[0] * AtIndex(gates[0].terms, i) + BatchAt(lambdas[1..], gates[1..], i)
  }

  function Residuals(lambdas: seq<int>, gates: seq<Gate>, size: nat): (r: seq<int>)
    ensures |r| == size && forall i :: 0 <= i < size ==> r[i] == BatchAt(lambdas, gates, i)
  {
    seq(size, i requires 0 <= i < size => BatchAt(lambdas, gates, i))
  }

  lemma {:induction false} PadProduct(fs: seq<seq<int>>, size: nat, i: nat)
    ensures ProdAt(PadAll(fs, size), i) == ProdAt(fs, i)
  {
    if fs != [] {
      PadProduct(fs[1..], size, i);
      assert PadAll(fs, size)[1..] == PadAll(fs[1..], size);
    }
  }

  lemma {:induction false} AtIndexConcat(ts: seq<Term>, us: seq<Term>, i: nat)
    ensures AtIndex(ts + us, i) == AtIndex(ts, i) + AtIndex(us, i)
  {
    if ts == [] {
      assert ts + us == us;
    } else {
      AtIndexConcat(ts[1..], us, i);
      assert (ts + us)[1..] == ts[1..] + us;
    }
  }

  lemma {:induction false} WeighAt(eq: seq<int>, lam: int, ts: seq<Term>, size: nat, i: nat)
    ensures AtIndex(Weigh(eq, lam, ts, size), i) % P == (At(eq, i) * (lam * AtIndex(ts, i))) % P
  {
    if ts == [] {
      assert At(eq, i) * (lam * 0) == 0;
    } else {
      WeighAt(eq, lam, ts[1..], size, i);
      WeighUnfold(eq, lam, ts, size, i);
      WeighStep(At(eq, i), lam, ts[0].coeff, ProdAt(ts[0].factors, i), AtIndex(ts[1..], i),
                AtIndex(Weigh(eq, lam, ts[1..], size), i));
    }
  }

  lemma WeighUnfold(eq: seq<int>, lam: int, ts: seq<Term>, size: nat, i: nat)
    requires ts != []
    ensures AtIndex(Weigh(eq, lam, ts, size), i)
            == (lam * ts[0].coeff) % P * (At(eq, i) * ProdAt(ts[0].factors, i)) + AtIndex(Weigh(eq, lam, ts[1..], size), i)
  {
    hide Padded;
    var fs := PadAll(ts[0].factors, size);
    PadProduct(ts[0].factors, size, i);
    assert Weigh(eq, lam, ts, size)[1..] == Weigh(eq, lam, ts[1..], size);
    assert ([eq] + fs)[1..] == fs;
  }

  lemma WeighStep(e: int, lam: int, c: int, p: int, rest: int, w: int)
    requires w % P == (e * (lam * rest)) % P
    ensures ((lam * c) % P * (e * p) + w) % P == (e * (lam * (c * p + rest))) % P
  {
    hide *;
    PIsPositive();
    ModMod(lam * c, P);
    ModMul((lam * c) % P, lam * c, e * p, e * p, P);
    ModAdd((lam * c) % P * (e * p), (lam * c) * (e * p), w, e * (lam * rest), P);
    WeighAlgebra(e, lam, c, p, rest);
  }

  lemma WeighAlgebra(e: int, lam: int, c: int, p: int, rest: int)
    ensures (lam * c) * (e * p) + e * (lam * rest) == e * (lam * (c * p + rest))
  {
    assert (lam * c) * (e * p) == e * (lam * (c * p)) by {
      assert (lam * c) * (e * p) == lam * (c * (e * p)) == lam * (e * (c * p)) == e * (lam * (c * p)) by {
        MulSwap(c, e, p);
        MulSwap(lam, e, c * p);
      }
    }
    assert lam * (c * p + rest) == lam * (c * p) + lam * rest;
  }

  lemma {:induction false} BatchIndex(eq: seq<int>, lambdas: seq<int>, gates: seq<Gate>, size: nat, i: nat)
    ensures AtIndex(BatchTerms(eq, lambdas, gates, size), i) % P == (At(eq, i) * BatchAt(lambdas, gates, i)) % P
  {
    BatchUnfold(eq, lambdas, gates, size, i);
    hide *;
    PIsPositive();
    if lambdas == [] || gates == [] {
      TimesCommute(At(eq, i), 0);
      TimesZero(At(eq, i));
    } else {
      var ts, us := Weigh(eq, lambdas[0], gates[0].terms, size), BatchTerms(eq, lambdas[1..], gates[1..], size);
      BatchIndex(eq, lambdas[1..], gates[1..], size, i);
      WeighAt(eq, lambdas[0], gates[0].terms, size, i);
      AtIndexConcat(ts, us, i);
      BatchStep(AtIndex(ts, i), AtIndex(us, i), At(eq, i), lambdas[0] * AtIndex(gates[0].terms, i),
                BatchAt(lambdas[1..], gates[1..], i));
    }
  }

  lemma BatchUnfold(eq: seq<int>, lambdas: seq<int>, gates: seq<Gate>, size: nat, i: nat)
    ensures lambdas == [] || gates == [] ==> AtIndex(BatchTerms(eq, lambdas, gates, size), i) == BatchAt(lambdas, gates, i) == 0
    ensures lambdas != [] && gates != [] ==>
      BatchTerms(eq, lambdas, gates, size)
      == Weigh(eq, lambdas[0], gates[0].terms, size) + BatchTerms(eq, lambdas[1..], gates[1..], size)
    ensures lambdas != [] && gates != [] ==>
      BatchAt(lambdas, gates, i) == lambdas[0] * AtIndex(gates[0].terms, i) + BatchAt(lambdas[1..], gates[1..], i)
  {
    hide Weigh;
  }

  lemma BatchStep(x: int, y: int, e: int, a: int, b: int)
    requires x % P == (e * a) % P && y % P == (e * b) % P
    ensures (x + y) % P == (e * (a + b)) % P
  {
    ModAdd(x, e * a, y, e * b, P);
    assert e * (a + b) == e * a + e * b;
  }

  /** The batch's hypercube sum is the weighted sum of the combined residuals. */
  lemma {:induction false} BatchTotal(eq: seq<int>, lambdas: seq<int>, gates: seq<Gate>, size: nat, m: nat)
    requires m <= size
    ensures Total(BatchTerms(eq, lambdas, gates, size), m) % P == Inner(eq, Residuals(lambdas, gates, size), m) % P
  {
    hide BatchTerms, BatchAt, AtIndex;
    var ts, r := BatchTerms(eq, lambdas, gates, size), Residuals(lambdas, gates, size);
    if m > 0 {
      BatchTotal(eq, lambdas, gates, size, m - 1);
      TotalStep(ts, m - 1);
      BatchIndex(eq, lambdas, gates, size, m - 1);
      ModAdd(Total(ts, m - 1), Inner(eq, r, m - 1), AtIndex(ts, m - 1), At(eq, m - 1) * At(r, m - 1), P);
    } else {
      TotalZero(ts);
    }
  }

  ghost predicate AllInZoo(gates: seq<Gate>, size: nat) {
    forall k :: 0 <= k < |gates| ==> InZoo(gates[k]) && Size(gates[k]) <= size
  }

  lemma {:induction false} PastTheEnd(ts: seq<Term>, size: nat, i: nat)
    requires i >= size && forall k :: 0 <= k < |ts| ==> ZooTerm(ts[k], size)
    ensures AtIndex(ts, i) == 0
  {
    if ts != [] {
      PastTheEnd(ts[1..], size, i);
      assert ZooTerm(ts[0], size);
      assert |ts[0].factors[0]| == size;
      assert ProdAt(ts[0].factors, i) == 0 * ProdAt(ts[0].factors[1..], i);
    }
  }

  /** Padding is free: a gate that vanishes on its domain vanishes at every index. */
  lemma GateIsZero(g: Gate, i: nat)
    requires Vanishes(g)
    ensures AtIndex(g.terms, i) % P == 0
  {
    hide AtIndex;
    if i >= Size(g) { PastTheEnd(g.terms, Size(g), i); }
  }

  lemma {:induction false} ZeroBatch(lambdas: seq<int>, gates: seq<Gate>, i: nat)
    requires forall k :: 0 <= k < |gates| ==> Vanishes(gates[k])
    ensures BatchAt(lambdas, gates, i) % P == 0
  {
    if lambdas != [] && gates != [] {
      ZeroBatch(lambdas[1..], gates[1..], i);
      GateIsZero(gates[0], i);
      ModMul(lambdas[0], lambdas[0], AtIndex(gates[0].terms, i), 0, P);
      ModAdd(lambdas[0] * AtIndex(gates[0].terms, i), 0, BatchAt(lambdas[1..], gates[1..], i), 0, P);
    }
  }

  lemma {:induction false} ZeroInner(eq: seq<int>, r: seq<int>, m: nat)
    requires AllZero(r)
    ensures Inner(eq, r, m) % P == 0
  {
    if m > 0 {
      ZeroInner(eq, r, m - 1);
      ModMul(At(eq, m - 1), At(eq, m - 1), At(r, m - 1), 0, P);
      ModAdd(Inner(eq, r, m - 1), 0, At(eq, m - 1) * At(r, m - 1), 0, P);
    }
  }

  /** An honest layer's batched claim is zero, whatever z and the lambdas are. */
  lemma HonestClaim(eq: seq<int>, lambdas: seq<int>, gates: seq<Gate>, size: nat)
    requires forall k :: 0 <= k < |gates| ==> Vanishes(gates[k])
    ensures Total(BatchTerms(eq, lambdas, gates, size), size) % P == 0
  {
    hide BatchTerms, BatchAt;
    var r := Residuals(lambdas, gates, size);
    forall i | 0 <= i < |r| ensures r[i] % P == 0 {
      ZeroBatch(lambdas, gates, i);
    }
    BatchTotal(eq, lambdas, gates, size, size);
    ZeroInner(eq, r, size);
  }

  // --------------------------------------------------------------- soundness

  /** The claim at z is the multilinear extension of the combined residuals at z reversed. */
  lemma ClaimIsExtension(z: seq<int>, lambdas: seq<int>, gates: seq<Gate>)
    ensures Total(BatchTerms(Eq(z), lambdas, gates, Pow2(|z|)), Pow2(|z|)) % P
            == Mle(Residuals(lambdas, gates, Pow2(|z|)), Reverse(z))
  {
    hide BatchTerms, BatchAt, Eq, Mle, Inner;
    BatchTotal(Eq(z), lambdas, gates, Pow2(|z|), Pow2(|z|));
    EqIsMle(z, Residuals(lambdas, gates, Pow2(|z|)));
  }

  /** If the combined residuals are not all zero, at most n in P of the points z give the
      claim zero that the verifier asks for (points counted by their reversal). */
  lemma WrongBatchRarelyZero(n: nat, lambdas: seq<int>, gates: seq<Gate>, zeroAt: seq<int> -> bool)
    requires !AllZero(Residuals(lambdas, gates, Pow2(n)))
    requires forall p :: |p| == n ==>
      zeroAt(p) == (Total(BatchTerms(Eq(Reverse(p)), lambdas, gates, Pow2(n)), Pow2(n)) % P == 0)
    ensures Count(n, zeroAt, []) * P <= n * Pow(P, n)
  {
    hide BatchTerms, Residuals, Eq, Mle, Total, Reverse;
    var r := Residuals(lambdas, gates, Pow2(n));
    forall p | |p| == n && zeroAt([] + p) ensures Mle(r, p) == 0 {
      assert [] + p == p;
      ReverseTwice(p);
      ClaimIsExtension(Reverse(p), lambdas, gates);
    }
    ResidualSize(lambdas, gates, Pow2(n));
    ZeroPointsAreFew(r, n, zeroAt, []);
  }

  lemma ResidualSize(lambdas: seq<int>, gates: seq<Gate>, size: nat)
    ensures |Residuals(lambdas, gates, size)| == size
  {}

  lemma {:induction false} BatchUpdate(lambdas: seq<int>, gates: seq<Gate>, k: nat, x: int, i: nat)
    requires k < |lambdas| && k < |gates|
    ensures BatchAt(lambdas[k := x], gates, i) == BatchAt(lambdas, gates, i) + (x - lambdas[k]) * AtIndex(gates[k].terms, i)
  {
    var g := AtIndex(gates[k].terms, i);
    assert (x - lambdas[k]) * g == x * g - lambdas[k] * g;
    if k == 0 {
      assert lambdas[0 := x][1..] == lambdas[1..];
    } else {
      BatchUpdate(lambdas[1..], gates[1..], k - 1, x, i);
      assert lambdas[k := x][1..] == lambdas[1..][k - 1 := x];
    }
  }

  /** If gate k fails at index i then, the other lambdas fixed, one lambda_k at the most
      makes the combination vanish there. */
  lemma OneLambdaHides(lambdas: seq<int>, gates: seq<Gate>, k: nat, x: int, y: int, i: nat)
    requires k < |lambdas| && k < |gates| && AtIndex(gates[k].terms, i) % P != 0
    requires 0 <= x < P && 0 <= y < P
    requires BatchAt(lambdas[k := x], gates, i) % P == 0 && BatchAt(lambdas[k := y], gates, i) % P == 0
    ensures x == y
  {
    var g, b := AtIndex(gates[k].terms, i), BatchAt(lambdas, gates, i);
    BatchUpdate(lambdas, gates, k, x, i);
    BatchUpdate(lambdas, gates, k, y, i);
    ModSub(b + (x - lambdas[k]) * g, 0, b + (y - lambdas[k]) * g, 0, P);
    assert (b + (x - lambdas[k]) * g) - (b + (y - lambdas[k]) * g) == (x - y) * g by {
      assert (x - lambdas[k]) * g == x * g - lambdas[k] * g && (y - lambdas[k]) * g == y * g - lambdas[k] * g;
    }
    if x != y { NoZeroDivisor(x, y, g); }
  }

  // -------------------------------------------------------------- the programs

  function MaxSize(gates: seq<Gate>): nat {
    if gates == [] then 0
    else
      var rest := MaxSize(gates[1..]);
      var g := gates[0];
      var n := if g.terms != [] && g.terms[0].factors != [] then |g.terms[0].factors[0]| else 0;
      if n > rest then n else rest
  }

  function BatchLog(gates: seq<Gate>): nat { CeilLog(MaxSize(gates)) }

  lemma {:induction false} MaxSizeBounds(gates: seq<Gate>, k: nat)
    requires k < |gates| && HasSize(gates[k])
    ensures Size(gates[k]) <= MaxSize(gates)
  {
    if k > 0 {
      assert gates[1..][k - 1] == gates[k];
      MaxSizeBounds(gates[1..], k - 1);
    }
  }

  method BatchDomain(gates: seq<Gate>) returns (p: nat)
    ensures p == Pow2(BatchLog(gates))
  {
    var n := MaxSize(gates);
    p := NextPow2(n);
  }

  /** Where the gates all fit, the batch has one common size. */
  lemma BatchIsUniform(eq: seq<int>, lambdas: seq<int>, gates: seq<Gate>, size: nat)
    requires |eq| == size && AllInZoo(gates, size) && |lambdas| == |gates| > 0
    ensures Uniform(BatchTerms(eq, lambdas, gates, size), size)
    ensures BatchTerms(eq, lambdas, gates, size) != [] && BatchTerms(eq, lambdas, gates, size)[0].factors != []
    ensures Degree(BatchTerms(eq, lambdas, gates, size)) <= 3
  {
    hide Padded;
    var ts := BatchTerms(eq, lambdas, gates, size);
    BatchSized(eq, lambdas, gates, size);
    assert InZoo(gates[0]);
    assert ts[0] == Weigh(eq, lambdas[0], gates[0].terms, size)[0];
    assert ts[0].factors != [];
  }

  lemma {:induction false} BatchSized(eq: seq<int>, lambdas: seq<int>, gates: seq<Gate>, size: nat)
    requires |eq| == size && AllInZoo(gates, size)
    ensures Sized(BatchTerms(eq, lambdas, gates, size), size) && Degree(BatchTerms(eq, lambdas, gates, size)) <= 3
  {
    if lambdas != [] && gates != [] {
      BatchSized(eq, lambdas[1..], gates[1..], size);
      var us := Weigh(eq, lambdas[0], gates[0].terms, size);
      assert InZoo(gates[0]);
      forall k | 0 <= k < |us| ensures FactorsSized(us[k].factors, size) && |us[k].factors| <= 3 {
        assert ZooTerm(gates[0].terms[k], Size(gates[0]));
        PaddedFactors(eq, gates[0].terms[k].factors, Size(gates[0]), size);
      }
      DegreeConcat(us, BatchTerms(eq, lambdas[1..], gates[1..], size), 3);
    }
  }

  lemma PaddedFactors(eq: seq<int>, fs: seq<seq<int>>, small: nat, size: nat)
    requires |eq| == size && small <= size && FactorsSized(fs, small)
    ensures FactorsSized([eq] + PadAll(fs, size), size)
  {}

  lemma {:induction false} DegreeConcat(ts: seq<Term>, us: seq<Term>, d: nat)
    requires (forall k :: 0 <= k < |ts| ==> |ts[k].factors| <= d) && Degree(us) <= d
    ensures Degree(ts + us) <= d
  {
    if ts == [] {
      assert ts + us == us;
    } else {
      DegreeConcat(ts[1..], us, d);
      assert (ts + us)[1..] == ts[1..] + us;
    }
  }

  /** z and the lambdas as the round transcript absorbs them. */
  function Ints(v: seq<int>): Bytes {
    if v == [] then [] else T.Little(Reduce(v[0]), 8) + Ints(v[1..])
  }

  function Reduce(x: int): nat { x % P }

  function BatchContext(name: string, z: seq<int>, lambdas: seq<int>): seq<Bytes> {
    ["layergkr/relations/batch/v1", name, Ints(z), Ints(lambdas)]
  }

  datatype Batch = NoBatch | Batched(proof: SumcheckProof, z: seq<int>, lambdas: seq<int>)

  /** Refused when a coin is out of schedule order or there is no gate; a one-point domain
      gets a two-entry eq, which does not fit its factors. */
  method ProveBatch(gates: seq<Gate>, tr: T.Transcript, name: string, tape: MaskTape?, oracle: RoundOracle)
    returns (b: Batch)
    requires tr.Valid() && |name| + 6 < 65536 && AllInZoo(gates, Pow2(BatchLog(gates)))
    modifies tr, tr.schedule, tape
    ensures tr.Valid()
    ensures gates == [] || BatchLog(gates) == 0 ==> b == NoBatch
    ensures b.Batched? ==> |b.z| == BatchLog(gates) && |b.lambdas| == |gates|
    ensures b.Batched? ==> IsBatchProof(b.proof, gates, b.z, b.lambdas, oracle, name, old(ViewOf(tape)))
    ensures tape != null ==> tape.values == old(tape.values)
    ensures b.Batched? ==> BatchDrawn(tr.oracle, tr.domain, old(tr.log), name, b.z, b.lambdas)
    ensures b.Batched? ==> tr.log == old(tr.log) + BatchLogged(name, |b.lambdas|, |b.z|)
    ensures gates == [] || BatchLog(gates) == 0 || tr.schedule != null || b.Batched?
            || (tape != null && old(tape.pos) + BatchLog(gates) * 3 > |tape.values|)
  {
    if gates == [] {
      return NoBatch;
    }
    hide *;
    var size := BatchDomain(gates);
    Log2OfPow2(BatchLog(gates));
    var nVars := if Log2(size) >= 1 then Log2(size) else 1;
    var lambdas := tr.DrawCoin(name + "_batch", |gates|);
    if lambdas.Refused? {
      Unscheduled(tr, "coin", name + "_batch");
      return NoBatch;
    }
    var z := tr.DrawCoin(name + "_z", nVars);
    if z.Refused? {
      Unscheduled(tr, "coin", name + "_z");
      return NoBatch;
    }
    PowerIsOne(BatchLog(gates));
    if size == 1 {
      return NoBatch;
    }
    b := BatchSumcheck(gates, z.values, lambdas.values, name, tape, oracle);
    BatchDrawnIs(tr.oracle, tr.domain, old(tr.log), name, z.values, lambdas.values);
  }

  /** The lambdas, then the point. */
  function BatchLogged(name: string, gates: nat, n: nat): (es: seq<T.Entry>)
    ensures |es| == 2
  {
    [T.Coin(name + "_batch", gates), T.Coin(name + "_z", n)]
  }

  ghost predicate BatchDrawn(oracle: T.Oracle, domain: T.Bytes, log: seq<T.Entry>, name: string, z: seq<int>, lambdas: seq<int>) {
    && lambdas == T.CoinsAfter(oracle, domain, log, name + "_batch", |lambdas|)
    && z == T.CoinsAfter(oracle, domain, log + BatchLogged(name, |lambdas|, |z|)[..1], name + "_z", |z|)
  }

  lemma BatchDrawnIs(oracle: T.Oracle, domain: T.Bytes, log: seq<T.Entry>, name: string, z: seq<int>, lambdas: seq<int>)
    ensures var a := log + [T.Coin(name + "_batch", |lambdas|)];
      && log + BatchLogged(name, |lambdas|, |z|) == a + [T.Coin(name + "_z", |z|)]
      && (BatchDrawn(oracle, domain, log, name, z, lambdas)
          <==> lambdas == T.CoinsAfter(oracle, domain, log, name + "_batch", |lambdas|)
               && z == T.CoinsAfter(oracle, domain, a, name + "_z", |z|))
  {
    hide T.CoinsAfter;
    var es := BatchLogged(name, |lambdas|, |z|);
    assert es[..1] == [T.Coin(name + "_batch", |lambdas|)];
  }

  lemma Unscheduled(tr: T.Transcript, kind: string, name: string)
    ensures tr.schedule == null ==> tr.Allows(kind, name)
  {}

  /** The sumcheck over the batch, on round coins of its own. */
  method BatchSumcheck(gates: seq<Gate>, z: seq<int>, lambdas: seq<int>, name: string, tape: MaskTape?, oracle: RoundOracle)
    returns (b: Batch)
    requires gates != [] && AllInZoo(gates, Pow2(BatchLog(gates))) && |z| == BatchLog(gates) && |lambdas| == |gates|
    modifies tape
    ensures b.Batched? ==> b.z == z && b.lambdas == lambdas
    ensures b.Batched? ==> IsBatchProof(b.proof, gates, z, lambdas, oracle, name, old(ViewOf(tape)))
    ensures b.Batched? || (tape != null && old(tape.pos) + BatchLog(gates) * 3 > |old(tape.values)|)
    ensures tape != null ==> tape.values == old(tape.values)
  {
    ghost var n, view := BatchLog(gates), ViewOf(tape);
    assert view.View? == (tape != null) && (tape != null ==> view.values == tape.values && view.pos == tape.pos);
    hide *;
    var size := BatchDomain(gates);
    var eqZ := EqVector(z);
    var terms := BatchTerms(eqZ, lambdas, gates, size);
    EqLength(z);
    BatchIsUniform(eqZ, lambdas, gates, size);
    var coins := new RoundTranscript(oracle, BatchContext(name, z, lambdas));
    CoinsAre(coins);
    ReadyToStart(coins);
    var out, spent := ProveTerms(terms, Transcribed(coins), tape, 0, n);
    EnoughTape(tape, view, terms, n, CoinFnOf(Transcribed(coins)));
    BatchProofIs(out, gates, z, lambdas, oracle, name, view);
    match out
    case Raised => b := NoBatch;
    case Proof(p) => b := Batched(p, z, lambdas);
  }

  lemma ReadyToStart(tr: RoundTranscript)
    requires tr.Valid() && tr.sent == []
    ensures Ready(Transcribed(tr), []) && CoinObjects(Transcribed(tr)) == {tr}
  {}

  lemma BatchProofIs(out: Proved, gates: seq<Gate>, z: seq<int>, lambdas: seq<int>, oracle: RoundOracle, name: string,
                     view: TapeView)
    requires out == ProveResult(BatchTerms(Eq(z), lambdas, gates, Pow2(BatchLog(gates))), BatchLog(gates),
      StateCoins(oracle, oracle.start([DOMAIN] + BatchContext(name, z, lambdas))), view, 0)
    ensures out.Proof? ==> IsBatchProof(out.proof, gates, z, lambdas, oracle, name, view)
  {
    hide ProveResult, BatchTerms, StateCoins, BatchLog;
  }

  lemma PowerIsOne(n: nat)
    ensures Pow2(n) == 1 <==> n == 0
  {}

  lemma EqLength(z: seq<int>)
    ensures |Eq(z)| == Pow2(|z|)
  {}

  lemma CoinsAre(tr: RoundTranscript)
    ensures CoinFnOf(Transcribed(tr)) == StateCoins(tr.oracle, tr.start)
  {}

  /** Three tape values a round are enough for terms of degree three. */
  lemma EnoughTape(tape: MaskTape?, view: TapeView, terms: seq<Term>, n: nat, coin: CoinFn)
    requires Degree(terms) <= 3 && terms != [] && view.View? == (tape != null)
    ensures tape == null || view.pos + n * 3 <= |view.values| ==> ProveResult(terms, n, coin, view, 0).Proof?
  {
    hide Prove, HasRows, Degree;
    if view.View? && view.pos + n * 3 <= |view.values| {
      MulMonotone(n, n, Degree(terms), 3);
      NonnegativeTimes(n, Degree(terms));
      HasRowsExactly(view.values, view.pos, Degree(terms), n);
    }
  }

  lemma NonnegativeTimes(a: nat, b: nat)
    ensures a * b >= 0
  {}

  function BatchCoins(oracle: RoundOracle, name: string, z: seq<int>, lambdas: seq<int>): CoinFn {
    StateCoins(oracle, oracle.start([DOMAIN] + BatchContext(name, z, lambdas)))
  }

  /** The proof of the protocol for the batch's terms, coins and tape. */
  ghost predicate IsBatchProof(proof: SumcheckProof, gates: seq<Gate>, z: seq<int>, lambdas: seq<int>,
                               oracle: RoundOracle, name: string, view: TapeView) {
    var n := BatchLog(gates);
    var terms := BatchTerms(Eq(z), lambdas, gates, Pow2(n));
    ProveResult(terms, n, BatchCoins(oracle, name, z, lambdas), view, 0) == Proof(proof)
  }

  /** What verify_batch answers. */
  function BatchVerdict(proof: SumcheckProof, gates: seq<Gate>, z: seq<int>, lambdas: seq<int>, mu0: int,
                        oracle: RoundOracle, name: string): Verdict {
    if gates == [] then Raise
    else if proof.claim % P != mu0 % P then Reject
    else VerifyResult(proof, BatchTerms(Eq(z), lambdas, gates, Pow2(BatchLog(gates))), BatchCoins(oracle, name, z, lambdas))
  }

  method VerifyBatch(proof: SumcheckProof, gates: seq<Gate>, z: seq<int>, lambdas: seq<int>, mu0: int,
                     oracle: RoundOracle, name: string) returns (v: Verdict)
    ensures v == BatchVerdict(proof, gates, z, lambdas, mu0, oracle, name)
  {
    hide BatchTerms, VerifyResult, CoinFnOf, Eq;
    if gates == [] {
      return Raise;
    }
    var size := BatchDomain(gates);
    var eqZ := EqVector(z);
    var terms := BatchTerms(eqZ, lambdas, gates, size);
    if proof.claim % P != mu0 % P {
      return Reject;
    }
    var coins := new RoundTranscript(oracle, BatchContext(name, z, lambdas));
    CoinsAre(coins);
    v := VerifyTerms(proof, terms, Transcribed(coins));
  }

  /** Completeness of the batch: gates that vanish are accepted for every z, lambdas, coins and
      tape, masked or not. */
  lemma HonestBatchAccepted(proof: SumcheckProof, gates: seq<Gate>, z: seq<int>, lambdas: seq<int>,
                            oracle: RoundOracle, name: string, view: TapeView)
    requires gates != [] && AllInZoo(gates, Pow2(BatchLog(gates))) && |z| == BatchLog(gates) && |lambdas| == |gates|
    requires forall k :: 0 <= k < |gates| ==> Vanishes(gates[k])
    requires IsBatchProof(proof, gates, z, lambdas, oracle, name, view)
    ensures BatchVerdict(proof, gates, z, lambdas, 0, oracle, name) == Accept
  {
    var n, coin := BatchLog(gates), BatchCoins(oracle, name, z, lambdas);
    var terms := BatchTerms(Eq(z), lambdas, gates, Pow2(n));
    HonestClaim(Eq(z), lambdas, gates, Pow2(n));
    hide *;
    PIsPositive();
    EqLength(z);
    BatchIsUniform(Eq(z), lambdas, gates, Pow2(n));
    ProveResultIs(proof, terms, n, coin, view, 0);
    SmallDegree();
    RowsFitOf(view, Degree(terms), n);
    Completeness(terms, n, coin, view.View?, view.Rows(Degree(terms), n), 0);
    UniformSize(terms, Pow2(n));
    VerifyResultIs(proof, terms, coin, Pow2(n));
    ZeroClaim(terms, n, coin, view);
    BatchVerdictIs(proof, gates, z, lambdas, 0, oracle, name);
  }

  lemma SmallDegree()
    ensures 3 < P && 0 % P == 0
  {}

  lemma ProveResultIs(proof: SumcheckProof, terms: seq<Term>, n: nat, coin: CoinFn, view: TapeView, mu0: int)
    requires ProveResult(terms, n, coin, view, mu0) == Proof(proof)
    ensures view.Suffices(Degree(terms), n)
    ensures view.View? ==> |view.Rows(Degree(terms), n)| == n
    ensures proof == Prove(terms, n, coin, view.View?, view.Rows(Degree(terms), n), mu0)
  {
    hide Prove, Degree;
  }

  lemma VerifyResultIs(proof: SumcheckProof, terms: seq<Term>, coin: CoinFn, size: nat)
    requires Uniform(terms, size) && FirstSize(terms) == size
    ensures VerifyResult(proof, terms, coin) == VerifySized(proof, terms, size, coin)
  {}

  lemma ZeroClaim(terms: seq<Term>, n: nat, coin: CoinFn, view: TapeView)
    requires Total(terms, Pow2(n)) % P == 0 && view.Suffices(Degree(terms), n)
    requires view.View? ==> |view.Rows(Degree(terms), n)| == n
    ensures Prove(terms, n, coin, view.View?, view.Rows(Degree(terms), n), 0).claim % P == 0
  {
    hide ProveRounds, Total, Degree, ReduceCoeffs;
    ReduceCoeffsFacts(terms, Pow2(n), []);
    ModSmall(0, P);
  }

  lemma BatchVerdictIs(proof: SumcheckProof, gates: seq<Gate>, z: seq<int>, lambdas: seq<int>, mu0: int,
                       oracle: RoundOracle, name: string)
    ensures BatchVerdict(proof, gates, z, lambdas, mu0, oracle, name)
            == if gates == [] then Raise
               else if proof.claim % P != mu0 % P then Reject
               else VerifyResult(proof, BatchTerms(Eq(z), lambdas, gates, Pow2(BatchLog(gates))),
                                 BatchCoins(oracle, name, z, lambdas))
  {}
}
