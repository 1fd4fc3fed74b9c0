/** sumcheck.py as it runs: the mask tape, the round transcript, and the loops of
    prove_terms and verify_terms, each proved against the protocol on values. */
module Prover {
  import opened NumberTheory
  import opened Field
  import opened Polynomial
  import opened Interpolation
  import opened Sumcheck
  import opened Protocol
  import opened Charges

  // ------------------------------------------------------------- the mask tape

  datatype Taken = Exhausted | Took(values: seq<int>)

  class MaskTape {
    var values: seq<int>
    var pos: nat

    constructor (values: seq<int>)
      ensures this.values == values && pos == 0
    {
      this.values, pos := values, 0;
    }

    method Take(n: nat) returns (out: Taken)
      modifies this
      ensures values == old(values)
      ensures old(pos) + n > |values| ==> out == Exhausted && pos == old(pos)
      ensures old(pos) + n <= |values| ==> out == Took(values[old(pos)..old(pos) + n]) && pos == old(pos) + n
    {
      if pos + n > |values| {
        return Exhausted;
      }
      out := Took(values[pos..pos + n]);
      pos := pos + n;
    }
  }

  /** The tape from `pos` cut into n rows of deg values. */
  predicate HasRows(values: seq<int>, pos: nat, deg: nat, n: nat)
    decreases n
  {
    n == 0 || (pos + deg <= |values| && HasRows(values, pos + deg, deg, n - 1))
  }

  function TapeRows(values: seq<int>, pos: nat, deg: nat, n: nat): (rows: seq<seq<int>>)
    requires HasRows(values, pos, deg, n)
    ensures RowsFit(true, rows, n, deg)
    decreases n
  {
    if n == 0 then [] else [values[pos..pos + deg]] + TapeRows(values, pos + deg, deg, n - 1)
  }

  lemma {:induction false} HasRowsExactly(values: seq<int>, pos: nat, deg: nat, n: nat)
    requires pos <= |values|
    ensures HasRows(values, pos, deg, n) <==> pos + n * deg <= |values|
    decreases n
  {
    if n > 0 {
      assert n * deg == deg + (n - 1) * deg;
      if pos + deg <= |values| {
        HasRowsExactly(values, pos + deg, deg, n - 1);
      } else {
        assert (n - 1) * deg >= 0;
      }
    }
  }

  // -------------------------------------------------------- the round transcript

  /** Byte strings; a digest is one. */
  type Bytes = string

  /** BLAKE3 where the round transcript uses it: over the framed context, over a state
      and one round's samples, and over a state and the coin tag. */
  datatype RoundOracle = RoundOracle(
    start: seq<Bytes> -> Bytes, step: (Bytes, nat, seq<Sample>) -> Bytes, coin: Bytes -> int)

  const DOMAIN := "verinf/sumcheck-rounds/v1"

  function ReduceSamples(s: seq<Sample>): (r: seq<Sample>)
    ensures |r| == |s| && forall i :: 0 <= i < |s| ==> r[i] == (s[i].0 % P, s[i].1 % P)
  {
    seq(|s|, i requires 0 <= i < |s| => (s[i].0 % P, s[i].1 % P))
  }

  /** The running digest after the polynomials in `sent`. */
  function Absorbed(oracle: RoundOracle, start: Bytes, sent: seq<seq<Sample>>): Bytes {
    if sent == [] then start
    else
      var k := |sent| - 1;
      oracle.step(Absorbed(oracle, start, sent[..k]), k, ReduceSamples(sent[k]))
  }

  datatype Drawn = OutOfOrder | Drew(coin: int)

  class RoundTranscript {
    const oracle: RoundOracle
    const start: Bytes
    var state: Bytes
    var absorbed: nat
    ghost var sent: seq<seq<Sample>>

    ghost predicate Valid()
      reads this
    {
      absorbed == |sent| && state == Absorbed(oracle, start, sent)
    }

    constructor (oracle: RoundOracle, context: seq<Bytes>)
      ensures Valid() && sent == [] && this.oracle == oracle && start == oracle.start([DOMAIN] + context)
    {
      this.oracle := oracle;
      start := oracle.start([DOMAIN] + context);
      state := oracle.start([DOMAIN] + context);
      absorbed, sent := 0, [];
    }

    /** Refused, changing nothing, unless the round is the next one. */
    method Absorb(rnd: int, samples: seq<Sample>) returns (ok: bool)
      requires Valid()
      modifies this
      ensures Valid() && ok == (rnd == old(|sent|))
      ensures sent == if ok then old(sent) + [samples] else old(sent)
      ensures ok ==> exists xs :: (state == oracle.step(old(state), rnd, xs) && |xs| == |samples|
                && forall i :: 0 <= i < |xs| ==> xs[i] == (samples[i].0 % P, samples[i].1 % P))
      ensures !ok ==> state == old(state)
    {
      if rnd != absorbed {
        return false;
      }
      ghost var xs := ReduceSamples(samples);
      state := oracle.step(state, absorbed, ReduceSamples(samples));
      assert state == oracle.step(old(state), rnd, xs);
      absorbed := absorbed + 1;
      sent := sent + [samples];
      assert sent[..|sent| - 1] == old(sent);
      ok := true;
    }

    /** A round's coin exists only once its polynomial is absorbed. */
    method Draw(rnd: int) returns (d: Drawn)
      requires Valid()
      ensures d == if rnd == |sent| - 1 then Drew(oracle.coin(state) % P) else OutOfOrder
      ensures d == if rnd == |sent| - 1 then Drew(oracle.coin(Absorbed(oracle, start, sent)) % P) else OutOfOrder
    {
      if rnd != absorbed - 1 {
        return OutOfOrder;
      }
      d := Drew(oracle.coin(state) % P);
    }
  }

  // ------------------------------------------------------- what a round's coin binds

  /** Different contexts start differently; a step's digest tells its state, its round and its samples. */
  ghost predicate StepsCollisionless(oracle: RoundOracle) {
    && (forall c, d :: oracle.start(c) == oracle.start(d) ==> c == d)
    && forall s, j, xs, t, k, ys :: oracle.step(s, j, xs) == oracle.step(t, k, ys) ==> s == t && j == k && xs == ys
  }

  /** One polynomial after the other agrees modulo P, in arguments and values. */
  ghost predicate SameSent(a: seq<seq<Sample>>, b: seq<seq<Sample>>) {
    && |a| == |b|
    && forall k :: 0 <= k < |a| ==> SameSamples(a[k], b[k])
  }

  ghost predicate SameSamples(s: seq<Sample>, t: seq<Sample>) {
    |s| == |t| && forall i :: 0 <= i < |s| ==> s[i].0 % P == t[i].0 % P && s[i].1 % P == t[i].1 % P
  }

  /** Equal digests after at least one round: one context, equally many rounds, the same samples. */
  lemma {:induction false} RoundsBind(oracle: RoundOracle, c: seq<Bytes>, d: seq<Bytes>, a: seq<seq<Sample>>, b: seq<seq<Sample>>)
    requires StepsCollisionless(oracle) && (a == [] <==> b == [])
    requires Absorbed(oracle, oracle.start(c), a) == Absorbed(oracle, oracle.start(d), b)
    ensures c == d && SameSent(a, b)
    decreases |a|
  {
    hide SameSamples;
    if a != [] {
      var j, k := |a| - 1, |b| - 1;
      LastStep(oracle, oracle.start(c), a);
      LastStep(oracle, oracle.start(d), b);
      hide Absorbed;
      assert j == k;
      SameReduced(a[j], b[k]);
      RoundsBind(oracle, c, d, a[..j], b[..k]);
    }
  }

  lemma LastStep(oracle: RoundOracle, start: Bytes, a: seq<seq<Sample>>)
    requires a != []
    ensures Absorbed(oracle, start, a) == oracle.step(Absorbed(oracle, start, a[..|a| - 1]), |a| - 1, ReduceSamples(a[|a| - 1]))
  {}

  lemma SameReduced(s: seq<Sample>, t: seq<Sample>)
    requires ReduceSamples(s) == ReduceSamples(t)
    ensures SameSamples(s, t)
  {
    forall i | 0 <= i < |s| ensures s[i].0 % P == t[i].0 % P && s[i].1 % P == t[i].1 % P {
      assert ReduceSamples(s)[i] == ReduceSamples(t)[i];
    }
  }

  /** A prover that sends something else, in argument or value, or speaks in another context, is told
      apart by some coin: its challenge cannot be known before the polynomial is chosen. */
  lemma RoundCoinsBind(oracle: RoundOracle, c: seq<Bytes>, d: seq<Bytes>, a: seq<seq<Sample>>, b: seq<seq<Sample>>)
    returns (coin: Bytes -> int)
    requires StepsCollisionless(oracle) && a != [] && b != [] && (c != d || !SameSent(a, b))
    ensures StateCoins(oracle.(coin := coin), oracle.start(c))(a) % P != StateCoins(oracle.(coin := coin), oracle.start(d))(b) % P
  {
    var s, t := Absorbed(oracle, oracle.start(c), a), Absorbed(oracle, oracle.start(d), b);
    if s == t { RoundsBind(oracle, c, d, a, b); }
    coin := x => if x == s then 1 else 0;
    SameWithoutCoin(oracle, coin, oracle.start(c), a);
    SameWithoutCoin(oracle, coin, oracle.start(d), b);
    ModSmall(0, P);
    ModSmall(1, P);
  }

  lemma {:induction false} SameWithoutCoin(oracle: RoundOracle, coin: Bytes -> int, start: Bytes, a: seq<seq<Sample>>)
    ensures Absorbed(oracle.(coin := coin), start, a) == Absorbed(oracle, start, a)
  {
    if a != [] { SameWithoutCoin(oracle, coin, start, a[..|a| - 1]); }
  }

  /** A pre-drawn coin function of the round index, or a round transcript. */
  datatype Coin = Plain(f: int -> int) | Transcribed(tr: RoundTranscript)

  function CoinFnOf(coin: Coin): CoinFn {
    match coin
    case Plain(f) => (sent: seq<seq<Sample>>) => f(|sent| - 1)
    case Transcribed(tr) => StateCoins(tr.oracle, tr.start)
  }

  /** The coins a round transcript gives from its starting digest. */
  function StateCoins(oracle: RoundOracle, start: Bytes): CoinFn {
    (sent: seq<seq<Sample>>) => oracle.coin(Absorbed(oracle, start, sent))
  }

  function CoinObjects(coin: Coin): set<object> {
    match coin case Plain(_) => {} case Transcribed(tr) => {tr}
  }

  /** The coin has seen exactly the polynomials in `sent`. */
  ghost predicate Ready(coin: Coin, sent: seq<seq<Sample>>)
    reads CoinObjects(coin)
  {
    coin.Transcribed? ==> coin.tr.Valid() && coin.tr.sent == sent
  }

  /** draw_coin: the polynomial goes in before the coin comes out. */
  method DrawCoin(coin: Coin, rnd: nat, samples: seq<Sample>, ghost before: seq<seq<Sample>>) returns (r: int)
    requires Ready(coin, before) && rnd == |before|
    modifies CoinObjects(coin)
    ensures Ready(coin, before + [samples])
    ensures r == CoinFnOf(coin)(before + [samples]) % P
  {
    match coin {
      case Plain(f) =>
        r := f(rnd) % P;
      case Transcribed(tr) =>
        var ok := tr.Absorb(rnd, samples);
        var d := tr.Draw(rnd);
        ModMod(tr.oracle.coin(Absorbed(tr.oracle, tr.start, tr.sent)), P);
        r := d.coin % P;
    }
  }

  // ---------------------------------------------------------- hypercube loops

  /** One factor multiplied into a running, reduced product. */
  lemma ProductStep(prod: int, f: int, f': int, rest: int, goal: int)
    requires (prod * (f * rest)) % P == goal % P && f' % P == f % P
    ensures ((prod * f' % P) * rest) % P == goal % P
  {
    ModMul(prod, prod, f', f, P);
    ModMod(prod * f', P);
    ModMul(prod * f' % P, prod * f, rest, rest, P);
    Assoc(prod, f, rest);
  }

  lemma Assoc(a: int, b: int, c: int)
    ensures (a * b) * c == a * (b * c)
  {}

  lemma AddStep(acc: int, sum: int, prod: int, goal: int)
    requires acc % P == sum % P && prod % P == goal % P
    ensures (acc + prod) % P == (sum + goal) % P
    ensures (acc + prod) % P % P == (sum + goal) % P
  {
    ModAdd(acc, sum, prod, goal, P);
    ModMod(acc + prod, P);
  }

  method PointProduct(c: int, fs: seq<seq<int>>, idx: nat) returns (prod: int)
    requires forall j :: 0 <= j < |fs| ==> idx < |fs[j]|
    ensures prod % P == (c * ProdAt(fs, idx)) % P
  {
    prod := c;
    for j := 0 to |fs|
      invariant (prod * ProdAt(fs[j..], idx)) % P == (c * ProdAt(fs, idx)) % P
    {
      assert fs[j..][1..] == fs[j + 1..];
      ProductStep(prod, fs[j][idx], fs[j][idx], ProdAt(fs[j + 1..], idx), c * ProdAt(fs, idx));
      prod := prod * fs[j][idx] % P;
    }
  }

  method TrueClaim(cur: seq<Term>, size: nat) returns (claim: int)
    requires Sized(cur, size)
    ensures claim == Total(cur, size) % P
  {
    claim := 0;
    TotalZero(cur);
    for idx := 0 to size
      invariant claim == Total(cur, idx) % P
    {
      var acc := 0;
      for k := 0 to |cur|
        invariant (acc + AtIndex(cur[k..], idx)) % P == AtIndex(cur, idx) % P
      {
        assert FactorsSized(cur[k].factors, size);
        var prod := PointProduct(cur[k].coeff, cur[k].factors, idx);
        assert cur[k..][1..] == cur[k + 1..];
        SumShift(acc, prod, cur[k].coeff * ProdAt(cur[k].factors, idx), AtIndex(cur[k + 1..], idx));
        acc := acc + prod;
      }
      TotalStep(cur, idx);
      ModMod(Total(cur, idx), P);
      AddStep(claim, Total(cur, idx), acc, AtIndex(cur, idx));
      claim := (claim + acc) % P;
    }
  }

  lemma SumShift(acc: int, prod: int, term: int, rest: int)
    requires prod % P == term % P
    ensures (acc + prod + rest) % P == (acc + (term + rest)) % P
  {
    ModAdd(acc + rest, acc + rest, prod, term, P);
  }

  method LineProduct(c: int, fs: seq<seq<int>>, half: nat, i: nat, x: int) returns (prod: int)
    requires i < half && FactorsSized(fs, half + half)
    ensures prod % P == (c * ProdLine(fs, half, i, x)) % P
  {
    prod := c;
    for j := 0 to |fs|
      invariant (prod * ProdLine(fs[j..], half, i, x)) % P == (c * ProdLine(fs, half, i, x)) % P
    {
      var f := fs[j];
      var v := (f[i] + x * (f[half + i] - f[i])) % P;
      LineStep(prod, fs, j, half, i, x, v, c * ProdLine(fs, half, i, x));
      prod := prod * v % P;
    }
  }

  lemma LineStep(prod: int, fs: seq<seq<int>>, j: nat, half: nat, i: nat, x: int, v: int, goal: int)
    requires j < |fs| && v == Line(fs[j], half, i, x) % P
    requires (prod * ProdLine(fs[j..], half, i, x)) % P == goal % P
    ensures ((prod * v % P) * ProdLine(fs[j + 1..], half, i, x)) % P == goal % P
  {
    assert fs[j..][1..] == fs[j + 1..];
    var l, rest := Line(fs[j], half, i, x), ProdLine(fs[j + 1..], half, i, x);
    assert ProdLine(fs[j..], half, i, x) == l * rest;
    hide *;
    PIsPositive();
    ModMod(l, P);
    ProductStep(prod, l, v, rest, goal);
  }

  /** One round's bare samples. */
  method RoundSamples(cur: seq<Term>, half: nat, deg: nat) returns (samples: seq<Sample>)
    requires Sized(cur, half + half)
    ensures |samples| == deg + 1
    ensures forall x :: 0 <= x <= deg ==> samples[x] == (x, RoundSum(cur, half, x) % P)
  {
    samples := [];
    for x := 0 to deg + 1
      invariant |samples| == x
      invariant forall y :: 0 <= y < x ==> samples[y] == (y, RoundSum(cur, half, y) % P)
    {
      var acc := 0;
      for k := 0 to |cur|
        invariant (acc + RoundSum(cur[k..], half, x)) % P == RoundSum(cur, half, x) % P
      {
        var t, before := cur[k], acc;
        assert FactorsSized(t.factors, half + half);
        for i := 0 to half
          invariant acc % P == (before + LineSum(t, half, i, x)) % P
        {
          var prod := LineProduct(t.coeff, t.factors, half, i, x);
          AddStep(acc, before + LineSum(t, half, i, x), prod, t.coeff * ProdLine(t.factors, half, i, x));
          acc := acc + prod;
        }
        assert cur[k..][1..] == cur[k + 1..];
        ModAdd(acc, before + LineSum(t, half, half, x), RoundSum(cur[k + 1..], half, x), RoundSum(cur[k + 1..], half, x), P);
      }
      samples := samples + [(x, acc % P)];
    }
  }

  method MleEval(values: seq<int>, point: seq<int>) returns (v: int)
    ensures v == Mle(values, point)
  {
    var cur := values;
    for k := 0 to |point|
      invariant Mle(cur, point[k..]) == Mle(values, point)
    {
      assert point[k..][1..] == point[k + 1..];
      cur := Fold(cur, point[k]);
    }
    v := At(cur, 0) % P;
  }

  method MaxDegree(terms: seq<Term>) returns (deg: nat)
    ensures deg == Degree(terms)
  {
    deg := 0;
    var k := |terms|;
    while k > 0
      invariant 0 <= k <= |terms| && deg == Degree(terms[k..])
    {
      k := k - 1;
      assert terms[k..][1..] == terms[k + 1..];
      if |terms[k].factors| > deg {
        deg := |terms[k].factors|;
      }
    }
    assert terms[0..] == terms;
  }

  // ------------------------------------------------------------------ prove_terms

  method AddMask(samples: seq<Sample>, h: seq<int>) returns (out: seq<Sample>)
    ensures |out| == |samples|
    ensures forall k :: 0 <= k < |out| ==>
      out[k] == (samples[k].0, (samples[k].1 + Eval(h, samples[k].0) % P) % P)
  {
    out := [];
    for k := 0 to |samples|
      invariant |out| == k
      invariant forall i :: 0 <= i < k ==> out[i] == (samples[i].0, (samples[i].1 + Eval(h, samples[i].0) % P) % P)
    {
      var (x, y) := samples[k];
      var m := PolyEvalCoeffs(h, x);
      out := out + [(x, (y + m) % P)];
    }
  }

  datatype Proved = Raised | Proof(proof: SumcheckProof)

  lemma BareMessage(cur: seq<Term>, half: nat, deg: nat, samples: seq<Sample>)
    requires |samples| == deg + 1
    requires forall x :: 0 <= x <= deg ==> samples[x] == (x, RoundSum(cur, half, x) % P)
    ensures samples == SentPoly(cur, half, deg, [])
  {
    forall x | 0 <= x <= deg ensures samples[x] == SentPoly(cur, half, deg, [])[x] {
      ModMod(RoundSum(cur, half, x), P);
    }
  }

  /** What remains to be sent, given what has been. */
  ghost predicate OnTrack(full: Rounds, cur: seq<Term>, n: nat, deg: nat, coin: CoinFn, masked: bool,
      rows: seq<seq<int>>, mu: int, polys: seq<seq<Sample>>, challenges: seq<int>)
  {
    && (masked ==> |rows| == n)
    && var rest := ProveRounds(cur, n, deg, coin, polys, masked, rows, mu);
       full == Rounds(polys + rest.polys, challenges + rest.challenges, rest.mask)
  }

  lemma TrackStep(full: Rounds, cur: seq<Term>, n: nat, deg: nat, coin: CoinFn, masked: bool,
      rows: seq<seq<int>>, mu: int, polys: seq<seq<Sample>>, challenges: seq<int>)
    requires n > 0 && OnTrack(full, cur, n, deg, coin, masked, rows, mu, polys, challenges)
    ensures var h := RoundMask(masked, rows, mu);
            var poly := SentPoly(cur, Pow2(n - 1), deg, h);
            var r := coin(polys + [poly]) % P;
            OnTrack(full, FoldTerms(cur, r), n - 1, deg, coin, masked, if masked then rows[1..] else rows,
                    if masked then Eval(h, r) % P else mu, polys + [poly], challenges + [r])
  {
    hide ProveRounds, SentPoly, MaskPoly, Eval, Pow2, FoldTerms;
    var h, poly, r, rest := ProveUnfold(cur, n, deg, coin, polys, masked, rows, mu);
    assert polys + ([poly] + rest.polys) == polys + [poly] + rest.polys;
    assert challenges + ([r] + rest.challenges) == challenges + [r] + rest.challenges;
  }

  lemma TrackEnds(full: Rounds, cur: seq<Term>, deg: nat, coin: CoinFn, masked: bool,
      rows: seq<seq<int>>, mu: int, polys: seq<seq<Sample>>, challenges: seq<int>)
    requires OnTrack(full, cur, 0, deg, coin, masked, rows, mu, polys, challenges)
    ensures full == Rounds(polys, challenges, mu)
  {}

  lemma TrackStarts(cur: seq<Term>, n: nat, deg: nat, coin: CoinFn, masked: bool, rows: seq<seq<int>>, mu: int)
    requires masked ==> |rows| == n
    ensures OnTrack(ProveRounds(cur, n, deg, coin, [], masked, rows, mu), cur, n, deg, coin, masked, rows, mu, [], [])
  {
    hide ProveRounds;
  }

  /** A tape as a value: its contents and how much of it is used. */
  datatype TapeView = NoTape | View(values: seq<int>, pos: nat) {
    /** The tape lasts n more rounds of deg values. */
    predicate Suffices(deg: nat, n: nat) {
      NoTape? || HasRows(values, pos, deg, n)
    }

    /** The rows those rounds take. */
    function Rows(deg: nat, n: nat): (rows: seq<seq<int>>)
      requires Suffices(deg, n)
      ensures View? ==> |rows| == n
    {
      if NoTape? then [] else TapeRows(values, pos, deg, n)
    }

    function Advance(deg: nat): TapeView {
      if NoTape? then NoTape else View(values, pos + deg)
    }
  }

  function ViewOf(tape: MaskTape?): TapeView
    reads tape
  {
    if tape == null then NoTape else View(tape.values, tape.pos)
  }

  lemma ViewStep(view: TapeView, deg: nat, n: nat)
    requires view.Suffices(deg, n + 1)
    ensures view.Advance(deg).Suffices(deg, n)
    ensures view.View? ==>
      && view.pos + deg <= |view.values|
      && view.Rows(deg, n + 1) == [view.values[view.pos..view.pos + deg]] + view.Advance(deg).Rows(deg, n)
  {}

  /** One round's message: bare samples, masked with the next row of the tape. */
  method Message(cur: seq<Term>, half: nat, deg: nat, tape: MaskTape?, mu: int)
    returns (ok: bool, h: seq<int>, poly: seq<Sample>)
    requires Sized(cur, half + half)
    modifies tape
    ensures ok == (tape == null || old(tape.pos) + deg <= |old(tape.values)|)
    ensures ViewOf(tape) == if ok then old(ViewOf(tape)).Advance(deg) else old(ViewOf(tape))
    ensures ok ==> h == (if tape == null then []
                         else MaskPoly(mu, old(tape.values)[old(tape.pos)..old(tape.pos) + deg]))
    ensures ok ==> poly == SentPoly(cur, half, deg, h)
  {
    poly := RoundSamples(cur, half, deg);
    h, ok := [], true;
    if tape == null {
      BareMessage(cur, half, deg, poly);
    } else {
      var u := tape.Take(deg);
      if u == Exhausted {
        return false, [], [];
      }
      h := MaskPoly(mu, u.values);
      poly := AddMask(poly, h);
      assert forall x :: 0 <= x <= deg ==> poly[x] == SentPoly(cur, half, deg, h)[x];
    }
  }

  function ProveResult(terms: seq<Term>, n: nat, coin: CoinFn, tape: TapeView, mu0: int): Proved {
    if terms == [] || !tape.Suffices(Degree(terms), n) then Raised
    else Proof(Prove(terms, n, coin, tape.View?, tape.Rows(Degree(terms), n), mu0))
  }

  /** prove_terms: refused without terms or when the tape runs out, and otherwise the
      proof of the protocol. */
  method ProveTerms(terms: seq<Term>, coin: Coin, tape: MaskTape?, mu0: int, ghost n: nat) returns (out: Proved, spent: Charge)
    requires terms != [] ==> Uniform(terms, Pow2(n)) && terms[0].factors != []
    requires Ready(coin, [])
    modifies CoinObjects(coin), tape
    ensures out == ProveResult(terms, n, CoinFnOf(coin), old(ViewOf(tape)), mu0)
    ensures out.Proof? ==> spent == ChargeFor(Pow2(n) - 1, terms, Degree(terms))
    ensures tape != null ==> tape.values == old(tape.values)
  {
    hide ProveRounds, Degree, Total, Pow2, Log2, CoinFnOf, HasRows, TapeRows, Uniform, Sized;
    if terms == [] {
      return Raised, Charge(0, 0);
    }
    var size := |terms[0].factors[0]|;
    SizeOfFirst(terms, n);
    var deg := MaxDegree(terms);
    var cur := ReduceCoeffs(terms);
    ReduceSized(terms, size);
    var claim := TrueClaim(cur, size);
    var mu := mu0 % P;
    var run;
    run, spent := RunRounds(cur, Log2(size), deg, coin, tape, mu);
    ReducedCharge(Pow2(n) - 1, terms, deg);
    out := match run case NoRun => Raised
                     case Ran(r) => Proof(SumcheckProof((claim + mu) % P, r.polys, r.challenges, r.challenges,
                                                        tape != null, r.mask));
  }

  lemma SizeOfFirst(terms: seq<Term>, n: nat)
    requires Uniform(terms, Pow2(n)) && terms != [] && terms[0].factors != []
    ensures |terms[0].factors[0]| == Pow2(n) && Log2(Pow2(n)) == n && Sized(terms, Pow2(n))
  {
    assert FactorsSized(terms[0].factors, Pow2(n));
    Log2OfPow2(n);
  }

  lemma HalfOfFirst(cur: seq<Term>, n: nat)
    requires n > 0 && cur != [] && cur[0].factors != [] && Sized(cur, Pow2(n))
    ensures |cur[0].factors[0]| / 2 == Pow2(n - 1) && Pow2(n) == Pow2(n - 1) + Pow2(n - 1)
  {
    assert FactorsSized(cur[0].factors, Pow2(n));
  }

  datatype RunResult = NoRun | Ran(rounds: Rounds)

  function RunRoundsResult(cur: seq<Term>, n: nat, deg: nat, coin: CoinFn, tape: TapeView, mu: int): RunResult {
    if !tape.Suffices(deg, n) then NoRun
    else Ran(ProveRounds(cur, n, deg, coin, [], tape.View?, tape.Rows(deg, n), mu))
  }

  /** Where the loop stands after |polys| rounds: whatever remains, appended to what was
      sent, is the whole run. */
  ghost predicate Standing(goal: RunResult, cur: seq<Term>, n: nat, deg: nat, coin: CoinFn, tape: TapeView,
      mu: int, polys: seq<seq<Sample>>, challenges: seq<int>)
  {
    if !tape.Suffices(deg, n) then goal == NoRun
    else goal.Ran? && OnTrack(goal.rounds, cur, n, deg, coin, tape.View?, tape.Rows(deg, n), mu, polys, challenges)
  }

  lemma StandingStep(goal: RunResult, cur: seq<Term>, n: nat, deg: nat, coin: CoinFn, tape: TapeView,
      mu: int, polys: seq<seq<Sample>>, challenges: seq<int>)
    requires n > 0 && Standing(goal, cur, n, deg, coin, tape, mu, polys, challenges)
    ensures tape.View? && tape.pos + deg > |tape.values| ==> goal == NoRun
    ensures tape.View? ==> tape.pos + deg <= |tape.values| ==>
      var h := MaskPoly(mu, tape.values[tape.pos..tape.pos + deg]);
      StepHolds(goal, cur, n, deg, coin, tape, mu, polys, challenges, h)
    ensures tape.NoTape? ==> StepHolds(goal, cur, n, deg, coin, tape, mu, polys, challenges, [])
  {
    hide OnTrack, MaskPoly, SentPoly, Eval, Pow2, FoldTerms;
    if tape.Suffices(deg, n) {
      ViewStep(tape, deg, n - 1);
      TrackStep(goal.rounds, cur, n, deg, coin, tape.View?, tape.Rows(deg, n), mu, polys, challenges);
    }
  }

  ghost predicate StepHolds(goal: RunResult, cur: seq<Term>, n: nat, deg: nat, coin: CoinFn, tape: TapeView,
      mu: int, polys: seq<seq<Sample>>, challenges: seq<int>, h: seq<int>)
    requires n > 0
  {
    var poly := SentPoly(cur, Pow2(n - 1), deg, h);
    var r := coin(polys + [poly]) % P;
    Standing(goal, FoldTerms(cur, r), n - 1, deg, coin, tape.Advance(deg),
             if tape.View? then Eval(h, r) % P else mu, polys + [poly], challenges + [r])
  }

  lemma StandingEnds(goal: RunResult, cur: seq<Term>, deg: nat, coin: CoinFn, tape: TapeView,
      mu: int, polys: seq<seq<Sample>>, challenges: seq<int>)
    requires Standing(goal, cur, 0, deg, coin, tape, mu, polys, challenges)
    ensures goal == Ran(Rounds(polys, challenges, mu))
  {
    TrackEnds(goal.rounds, cur, deg, coin, tape.View?, tape.Rows(deg, 0), mu, polys, challenges);
  }

  lemma StandingStarts(cur: seq<Term>, n: nat, deg: nat, coin: CoinFn, tape: TapeView, mu: int)
    ensures Standing(RunRoundsResult(cur, n, deg, coin, tape, mu), cur, n, deg, coin, tape, mu, [], [])
  {
    if tape.Suffices(deg, n) {
      TrackStarts(cur, n, deg, coin, tape.View?, tape.Rows(deg, n), mu);
    }
  }

  /** The round loop. */
  method RunRounds(cur0: seq<Term>, n: nat, deg: nat, coin: Coin, tape: MaskTape?, mu0: int) returns (out: RunResult, spent: Charge)
    requires cur0 != [] && cur0[0].factors != [] && Sized(cur0, Pow2(n)) && Ready(coin, [])
    modifies CoinObjects(coin), tape
    ensures out == RunRoundsResult(cur0, n, deg, CoinFnOf(coin), old(ViewOf(tape)), mu0)
    ensures out.Ran? ==> spent == ChargeFor(Pow2(n) - 1, cur0, deg)
    ensures tape != null ==> tape.values == old(tape.values)
  {
    hide ProveRounds, SentPoly, MaskPoly, Standing, StepHolds, RunRoundsResult, Eval, Sized, CoinFnOf, Pow2, FoldTerms;
    hide ChargeFor, SameCounts, AfterRound;
    var cur, mu := cur0, mu0;
    spent := Charge(0, 0);
    NothingSpent(cur, deg);
    var polys: seq<seq<Sample>>, challenges: seq<int> := [], [];
    ghost var view, coins := ViewOf(tape), CoinFnOf(coin);
    ghost var goal := RunRoundsResult(cur, n, deg, coins, view, mu);
    StandingStarts(cur, n, deg, coins, view, mu);
    for rnd := 0 to n
      invariant spent == ChargeFor(Pow2(n) - Pow2(n - rnd), cur0, deg) && SameCounts(cur, cur0)
      invariant |polys| == rnd && Ready(coin, polys) && Sized(cur, Pow2(n - rnd))
      invariant |cur| == |cur0| && |cur[0].factors| == |cur0[0].factors|
      invariant ViewOf(tape) == view && (tape != null ==> tape.values == old(tape.values))
      invariant Standing(goal, cur, n - rnd, deg, coins, view, mu, polys, challenges)
    {
      HalfOfFirst(cur, n - rnd);
      var half := |cur[0].factors[0]| / 2;
      ghost var before := spent;
      spent := AfterRound(spent, cur, half, deg);
      StandingStep(goal, cur, n - rnd, deg, coins, view, mu, polys, challenges);
      var ok, h, poly := Message(cur, half, deg, tape, mu);
      if !ok {
        return NoRun, spent;
      }
      var r := DrawCoin(coin, rnd, poly, polys);
      StepUnfold(goal, cur, n - rnd, deg, coins, view, mu, polys, challenges, h);
      polys := polys + [poly];
      challenges := challenges + [r];
      if tape != null {
        mu := PolyEvalCoeffs(h, r);
      }
      FoldSized(cur, n - rnd - 1, r);
      RoundSpent(before, Pow2(n) - Pow2(n - rnd), cur0, cur, half, deg, r);
      FoldShape(cur, r);
      cur := FoldTerms(cur, r);
      view := view.Advance(deg);
    }
    StandingEnds(goal, cur, deg, coins, view, mu, polys, challenges);
    PowZero();
    out := Ran(Rounds(polys, challenges, mu));
  }

  lemma FoldShape(cur: seq<Term>, r: int)
    requires cur != []
    ensures |FoldTerms(cur, r)| == |cur| && |FoldTerms(cur, r)[0].factors| == |cur[0].factors|
  {}

  lemma PowZero()
    ensures Pow2(0) == 1
  {}

  lemma StepUnfold(goal: RunResult, cur: seq<Term>, n: nat, deg: nat, coin: CoinFn, tape: TapeView,
      mu: int, polys: seq<seq<Sample>>, challenges: seq<int>, h: seq<int>)
    requires n > 0 && StepHolds(goal, cur, n, deg, coin, tape, mu, polys, challenges, h)
    ensures var poly := SentPoly(cur, Pow2(n - 1), deg, h);
            var r := coin(polys + [poly]) % P;
            Standing(goal, FoldTerms(cur, r), n - 1, deg, coin, tape.Advance(deg),
                     if tape.View? then Eval(h, r) % P else mu, polys + [poly], challenges + [r])
  {}
}
