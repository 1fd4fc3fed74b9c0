/** What each step of a layer leaves in its trace: a gate over its own columns, and a range query for
    every remainder and word. */
module Demands {
  import opened NumberTheory
  import opened Field
  import opened Polynomial
  import opened Sumcheck
  import opened Lifting
  import opened Gates
  import opened Rows

  /** The gates and the range queries recorded so far. */
  datatype Log = Log(gates: seq<Gate>, ranged: seq<(int, int)>)

  ghost predicate Extends(a: Log, b: Log) {
    && |a.gates| <= |b.gates| && (forall k :: 0 <= k < |a.gates| ==> b.gates[k] == a.gates[k])
    && |a.ranged| <= |b.ranged| && (forall k :: 0 <= k < |a.ranged| ==> b.ranged[k] == a.ranged[k])
  }

  /** A gate over these columns is recorded, under whatever id. */
  ghost predicate Kept(log: Log, terms: seq<Term>) {
    exists k :: 0 <= k < |log.gates| && log.gates[k].terms == terms
  }

  ghost predicate RangedIn(log: Log, vals: seq<int>) {
    forall i :: 0 <= i < |vals| ==> (vals[i], 0) in log.ranged
  }

  datatype Demand =
    | Mul(a: seq<int>, b: seq<int>)
    | Sum(a: seq<int>, b: seq<int>)
    | Div(bits: nat, raws: seq<int>)
    | Binary(b: seq<int>)

  ghost predicate Met(log: Log, wb: nat, step: Demand) {
    match step
    case Mul(a, b) => exists c :: MulBy(log, a, b, c)
    case Sum(a, b) => exists c :: SumBy(log, a, b, c)
    case Div(bits, raws) => exists qs, rs :: DivBy(log, wb, bits, raws, qs, rs)
    case Binary(b) => Kept(log, [Term(1, [b, b]), Term(P - 1, [b])])
  }

  ghost predicate MulBy(log: Log, a: seq<int>, b: seq<int>, c: seq<int>) {
    && |a| == |b| == |c| && (forall i :: 0 <= i < |c| ==> c[i] == a[i] * b[i] % P)
    && Kept(log, [Term(1, [a, b]), Term(P - 1, [c])])
  }

  ghost predicate SumBy(log: Log, a: seq<int>, b: seq<int>, c: seq<int>) {
    && |a| == |b| == |c| && (forall i :: 0 <= i < |c| ==> c[i] == (a[i] + b[i]) % P)
    && Kept(log, [Term(1, [a]), Term(1, [b]), Term(P - 1, [c])])
  }

  /** The division by 2^bits: its gate over quotients and remainders, the remainders ranged, the quotients in words. */
  ghost predicate DivBy(log: Log, wb: nat, bits: nat, raws: seq<int>, qs: seq<int>, rs: seq<int>) {
    && |qs| == |rs| == |raws|
    && (forall i :: 0 <= i < |raws| ==> qs[i] == raws[i] / Pow2(bits) && rs[i] == raws[i] % Pow2(bits))
    && Kept(log, [Term(1, [raws]), Term((0 - Pow2(bits)) % P, [qs]), Term(P - 1, [rs])])
    && RangedIn(log, rs) && exists words :: WordsBy(log, wb, bits, qs, words)
  }

  /** Columns of words of wb bits that sum to the quotients below 2^63: their gate, and every word ranged. */
  ghost predicate WordsBy(log: Log, wb: nat, bits: nat, qs: seq<int>, words: Matrix) {
    && |words| > 0 && bits + wb * |words| <= 63 && AllWide(words, |qs|)
    && (forall i :: 0 <= i < |qs| ==> qs[i] == Value(EntryWords(words, i), Pow2(wb)))
    && Kept(log, Zipped(WordPowers(wb, |words|), words) + [Term(P - 1, [qs])])
    && forall j :: 0 <= j < |words| ==> RangedIn(log, words[j])
  }

  // -------------------------------------------------------- what is met stays met

  lemma ExtendsThrough(a: Log, b: Log, c: Log)
    requires Extends(a, b) && Extends(b, c)
    ensures Extends(a, c)
  {}

  lemma ExtendsSelf(a: Log)
    ensures Extends(a, a)
  {}

  lemma KeptStays(a: Log, b: Log, terms: seq<Term>)
    requires Extends(a, b) && Kept(a, terms)
    ensures Kept(b, terms)
  {
    var k :| 0 <= k < |a.gates| && a.gates[k].terms == terms;
    assert b.gates[k].terms == terms;
  }

  lemma RangedStays(a: Log, b: Log, vals: seq<int>)
    requires Extends(a, b) && RangedIn(a, vals)
    ensures RangedIn(b, vals)
  {
    forall i | 0 <= i < |vals| ensures (vals[i], 0) in b.ranged {
      var k :| 0 <= k < |a.ranged| && a.ranged[k] == (vals[i], 0);
      assert b.ranged[k] == (vals[i], 0);
    }
  }

  lemma WordsStay(a: Log, b: Log, wb: nat, bits: nat, qs: seq<int>, words: Matrix)
    requires Extends(a, b) && WordsBy(a, wb, bits, qs, words)
    ensures WordsBy(b, wb, bits, qs, words)
  {
    hide Kept, RangedIn, Extends, Value, Pow2;
    KeptStays(a, b, Zipped(WordPowers(wb, |words|), words) + [Term(P - 1, [qs])]);
    forall j | 0 <= j < |words| ensures RangedIn(b, words[j]) { RangedStays(a, b, words[j]); }
  }

  lemma DivStays(a: Log, b: Log, wb: nat, bits: nat, raws: seq<int>, qs: seq<int>, rs: seq<int>)
    requires Extends(a, b) && DivBy(a, wb, bits, raws, qs, rs)
    ensures DivBy(b, wb, bits, raws, qs, rs)
  {
    hide Kept, RangedIn, Extends, Pow2, WordsBy;
    KeptStays(a, b, [Term(1, [raws]), Term((0 - Pow2(bits)) % P, [qs]), Term(P - 1, [rs])]);
    RangedStays(a, b, rs);
    var words :| WordsBy(a, wb, bits, qs, words);
    WordsStay(a, b, wb, bits, qs, words);
  }

  lemma MetStays(a: Log, b: Log, wb: nat, step: Demand)
    requires Extends(a, b) && Met(a, wb, step)
    ensures Met(b, wb, step)
  {
    hide Kept, Extends, DivBy;
    match step
    case Mul(x, y) =>
      var c :| MulBy(a, x, y, c);
      KeptStays(a, b, [Term(1, [x, y]), Term(P - 1, [c])]);
      assert MulBy(b, x, y, c);
    case Sum(x, y) =>
      var c :| SumBy(a, x, y, c);
      KeptStays(a, b, [Term(1, [x]), Term(1, [y]), Term(P - 1, [c])]);
      assert SumBy(b, x, y, c);
    case Div(bits, raws) =>
      var qs, rs :| DivBy(a, wb, bits, raws, qs, rs);
      DivStays(a, b, wb, bits, raws, qs, rs);
    case Binary(x) =>
      KeptStays(a, b, [Term(1, [x, x]), Term(P - 1, [x])]);
  }

  lemma AllStay(a: Log, b: Log, wb: nat)
    requires Extends(a, b)
    ensures forall step :: Met(a, wb, step) ==> Met(b, wb, step)
  {
    forall step | Met(a, wb, step) ensures Met(b, wb, step) { MetStays(a, b, wb, step); }
  }

  /** The first j columns were ranged on the way from a to b. */
  ghost predicate AllRanged(a: Log, b: Log, words: Matrix, j: nat)
    requires j <= |words|
  {
    Extends(a, b) && forall i :: 0 <= i < j ==> RangedIn(b, words[i])
  }

  lemma NoneRanged(a: Log, words: Matrix)
    ensures AllRanged(a, a, words, 0)
  {}

  lemma OneMoreRanged(a: Log, b: Log, c: Log, words: Matrix, j: nat)
    requires j < |words| && AllRanged(a, b, words, j) && Extends(b, c) && RangedIn(c, words[j])
    ensures AllRanged(a, c, words, j + 1)
  {
    hide Extends, RangedIn;
    ExtendsThrough(a, b, c);
    forall i | 0 <= i < j ensures RangedIn(c, words[i]) { RangedStays(b, c, words[i]); }
  }

  lemma RangedAfter(a: Log, b: Log, c: Log, terms: seq<Term>, words: Matrix)
    requires Extends(a, b) && Kept(b, terms) && AllRanged(b, c, words, |words|)
    ensures Extends(a, c) && Kept(c, terms) && forall j :: 0 <= j < |words| ==> RangedIn(c, words[j])
  {
    hide Extends, RangedIn, Kept;
    ExtendsThrough(a, b, c);
    KeptStays(b, c, terms);
  }
}
