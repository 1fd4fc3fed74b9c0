/** The relation zoo of layergkr/relations.py: gates as sums of products that must vanish at
    every index, and what vanishing means for each kind. */
module Gates {
  import opened NumberTheory
  import opened Field
  import opened Polynomial
  import opened Sumcheck
  import opened Lifting

  datatype NodeId = Numbered(kind: string, n: nat) | Named(name: string) | Indexed(name: string, t: nat)

  datatype Gate = Gate(kind: string, nodeId: NodeId, terms: seq<Term>)

  ghost predicate HasSize(g: Gate) {
    g.terms != [] && g.terms[0].factors != []
  }

  function Size(g: Gate): nat
    requires HasSize(g)
  {
    |g.terms[0].factors[0]|
  }

  ghost predicate ZooTerm(t: Term, size: nat) {
    1 <= |t.factors| <= 2 && FactorsSized(t.factors, size)
  }

  /** One or two factors to a term, all of the gate's size. */
  ghost predicate InZoo(g: Gate) {
    HasSize(g) && forall k :: 0 <= k < |g.terms| ==> ZooTerm(g.terms[k], Size(g))
  }

  /** A zero relation: the gate vanishes at every index of its domain. */
  ghost predicate Vanishes(g: Gate) {
    InZoo(g) && forall i :: 0 <= i < Size(g) ==> AtIndex(g.terms, i) % P == 0
  }

  function Hadamard(nodeId: NodeId, a: seq<int>, b: seq<int>, c: seq<int>): Gate {
    Gate("hadamard", nodeId, [Term(1, [a, b]), Term(P - 1, [c])])
  }

  function Booleanity(nodeId: NodeId, b: seq<int>): Gate {
    Gate("boolean", nodeId, [Term(1, [b, b]), Term(P - 1, [b])])
  }

  /** zip(coeffs, xs): the shorter list decides. */
  function Affine(nodeId: NodeId, coeffs: seq<int>, xs: seq<seq<int>>, y: seq<int>): Gate {
    Gate("affine", nodeId, Zipped(coeffs, xs) + [Term(P - 1, [y])])
  }

  function Zipped(coeffs: seq<int>, xs: seq<seq<int>>): (ts: seq<Term>)
    ensures |ts| == if |coeffs| <= |xs| then |coeffs| else |xs|
    ensures forall k :: 0 <= k < |ts| ==> ts[k] == Term(coeffs[k] % P, [xs[k]])
  {
    var n := if |coeffs| <= |xs| then |coeffs| else |xs|;
    seq(n, k requires 0 <= k < n => Term(coeffs[k] % P, [xs[k]]))
  }

  function Rescale(nodeId: NodeId, raw: seq<int>, q: seq<int>, r: seq<int>, scale: int): Gate {
    Gate("rescale", nodeId, [Term(1, [raw]), Term((-scale) % P, [q]), Term(P - 1, [r])])
  }

  // ---------------------------------------------------------- what they compute

  lemma OneFactor(c: int, f: seq<int>, i: nat)
    ensures c * ProdAt([f], i) == c * At(f, i)
  {
    assert ProdAt([f][1..], i) == 1;
  }

  lemma MinusOne(x: int)
    ensures ((P - 1) * x) % P == (-x) % P
  {
    Congruent((P - 1) * x, -x, x, P);
  }

  lemma {:induction false} AtIndexSnoc(ts: seq<Term>, t: Term, i: nat)
    ensures AtIndex(ts + [t], i) == AtIndex(ts, i) + t.coeff * ProdAt(t.factors, i)
  {
    if ts == [] {
      assert ts + [t] == [t] && [t][1..] == [];
    } else {
      AtIndexSnoc(ts[1..], t, i);
      assert (ts + [t])[1..] == ts[1..] + [t];
    }
  }

  lemma TwoTerms(a: Term, f: seq<int>, i: nat)
    ensures AtIndex([a, Term(P - 1, [f])], i) % P == (a.coeff * ProdAt(a.factors, i) - At(f, i)) % P
  {
    assert [a] + [Term(P - 1, [f])] == [a, Term(P - 1, [f])];
    MinusFactor([a], f, i);
    AtIndexSnoc([], a, i);
    assert [] + [a] == [a];
    LastTerm(AtIndex([a], i), AtIndex([a], i), At(f, i));
  }

  lemma HadamardValue(nodeId: NodeId, a: seq<int>, b: seq<int>, c: seq<int>, i: nat)
    ensures AtIndex(Hadamard(nodeId, a, b, c).terms, i) % P == (At(a, i) * At(b, i) - At(c, i)) % P
  {
    TwoTerms(Term(1, [a, b]), c, i);
    assert [a, b][1..] == [b];
    OneFactor(1, b, i);
  }

  lemma BooleanityValue(nodeId: NodeId, b: seq<int>, i: nat)
    ensures AtIndex(Booleanity(nodeId, b).terms, i) % P == (At(b, i) * At(b, i) - At(b, i)) % P
  {
    HadamardValue(nodeId, b, b, b, i);
  }

  /** sum over k < m of coeffs[k] * xs[k][i] */
  function Weighted(coeffs: seq<int>, xs: seq<seq<int>>, i: nat, m: nat): int
    requires m <= |coeffs| && m <= |xs|
  {
    if m == 0 then 0 else Weighted(coeffs, xs, i, m - 1) + coeffs[m - 1] * At(xs[m - 1], i)
  }

  lemma {:induction false} ZippedValue(coeffs: seq<int>, xs: seq<seq<int>>, i: nat, m: nat)
    requires m <= |coeffs| && m <= |xs|
    ensures AtIndex(Zipped(coeffs, xs)[..m], i) % P == Weighted(coeffs, xs, i, m) % P
  {
    if m > 0 {
      var ts, c, x := Zipped(coeffs, xs), coeffs[m - 1], xs[m - 1];
      ZippedValue(coeffs, xs, i, m - 1);
      assert ts[..m] == ts[..m - 1] + [ts[m - 1]];
      AtIndexSnoc(ts[..m - 1], ts[m - 1], i);
      OneFactor(c % P, x, i);
      ModMod(c, P);
      ModMul(c % P, c, At(x, i), At(x, i), P);
      ModAdd(AtIndex(ts[..m - 1], i), Weighted(coeffs, xs, i, m - 1), (c % P) * At(x, i), c * At(x, i), P);
    }
  }

  lemma AffineValue(nodeId: NodeId, coeffs: seq<int>, xs: seq<seq<int>>, y: seq<int>, i: nat)
    requires |coeffs| == |xs|
    ensures AtIndex(Affine(nodeId, coeffs, xs, y).terms, i) % P == (Weighted(coeffs, xs, i, |xs|) - At(y, i)) % P
  {
    hide *;
    PIsPositive();
    AffineTerms(nodeId, coeffs, xs, y);
    ZippedAll(coeffs, xs, i);
    MinusFactor(Zipped(coeffs, xs), y, i);
    LastTerm(AtIndex(Zipped(coeffs, xs), i), Weighted(coeffs, xs, i, |xs|), At(y, i));
  }

  lemma ZippedAll(coeffs: seq<int>, xs: seq<seq<int>>, i: nat)
    requires |coeffs| == |xs|
    ensures AtIndex(Zipped(coeffs, xs), i) % P == Weighted(coeffs, xs, i, |xs|) % P
  {
    ZippedValue(coeffs, xs, i, |xs|);
    assert Zipped(coeffs, xs)[..|xs|] == Zipped(coeffs, xs);
  }

  lemma AffineTerms(nodeId: NodeId, coeffs: seq<int>, xs: seq<seq<int>>, y: seq<int>)
    ensures Affine(nodeId, coeffs, xs, y).terms == Zipped(coeffs, xs) + [Term(P - 1, [y])]
  {}

  lemma MinusFactor(ts: seq<Term>, y: seq<int>, i: nat)
    ensures AtIndex(ts + [Term(P - 1, [y])], i) == AtIndex(ts, i) + (P - 1) * At(y, i)
  {
    AtIndexSnoc(ts, Term(P - 1, [y]), i);
    OneFactor(P - 1, y, i);
  }

  lemma LastTerm(sum: int, goal: int, y: int)
    requires sum % P == goal % P
    ensures (sum + (P - 1) * y) % P == (goal - y) % P
  {
    MinusOne(y);
    ModAdd(sum, goal, (P - 1) * y, -y, P);
  }

  lemma RescaleValue(nodeId: NodeId, raw: seq<int>, q: seq<int>, r: seq<int>, scale: int, i: nat)
    ensures AtIndex(Rescale(nodeId, raw, q, r, scale).terms, i) % P == (At(raw, i) - scale * At(q, i) - At(r, i)) % P
  {
    var coeffs, xs := [1, -scale], [raw, q];
    var g := Affine(nodeId, coeffs, xs, r);
    ModSmall(1, P);
    assert g.terms == Rescale(nodeId, raw, q, r, scale).terms;
    AffineValue(nodeId, coeffs, xs, r, i);
    assert Weighted(coeffs, xs, i, 1) == coeffs[0] * At(xs[0], i) == At(raw, i);
    assert Weighted(coeffs, xs, i, 2) == At(raw, i) + (-scale) * At(q, i);
    assert (-scale) * At(q, i) == -(scale * At(q, i));
  }

  // ------------------------------------------------------- the quotient-bound gate

  function WordPowers(wb: nat, k: nat): (c: seq<int>)
    ensures |c| == k
  {
    seq(k, j requires 0 <= j < k => Pow2(wb * j))
  }

  /** Column j holds word j of every quotient. */
  function WordColumns(qs: seq<nat>, wb: nat, k: nat): (w: seq<seq<int>>)
    ensures |w| == k && forall j :: 0 <= j < k ==> |w[j]| == |qs|
  {
    seq(k, j requires 0 <= j < k => WordColumn(qs, wb, j))
  }

  function WordColumn(qs: seq<nat>, wb: nat, j: nat): (w: seq<int>)
    ensures |w| == |qs|
  {
    seq(|qs|, i requires 0 <= i < |qs| => DigitAt(qs[i], wb, j))
  }

  /** The words of entry i, one from each column. */
  function EntryWords(words: seq<seq<int>>, i: nat): (w: seq<int>)
    ensures |w| == |words| && forall j :: 0 <= j < |w| ==> w[j] == At(words[j], i)
  {
    seq(|words|, j requires 0 <= j < |words| => At(words[j], i))
  }

  lemma {:induction false} WeightedIsValue(wb: nat, words: seq<seq<int>>, i: nat, k: nat)
    requires k <= |words|
    ensures Weighted(WordPowers(wb, |words|), words, i, k) == Value(EntryWords(words, i)[..k], Pow2(wb))
  {
    if k > 0 {
      WeightedIsValue(wb, words, i, k - 1);
      var w := EntryWords(words, i);
      assert w[..k] == w[..k - 1] + [w[k - 1]];
      ValueSnoc(w[..k - 1], w[k - 1], wb);
    }
  }

  lemma {:induction false} ValueSnoc(w: seq<int>, x: int, wb: nat)
    ensures Value(w + [x], Pow2(wb)) == Value(w, Pow2(wb)) + Pow2(wb * |w|) * x
  {
    hide Pow2;
    var b := Pow2(wb);
    if w == [] {
      assert wb * 0 == 0;
      Pow2Zero();
      assert [x][1..] == [];
      assert w + [x] == [x];
    } else {
      ValueSnoc(w[1..], x, wb);
      assert (w + [x])[1..] == w[1..] + [x];
      assert wb * |w| == wb + wb * (|w| - 1);
      Pow2Add(wb, wb * (|w| - 1));
      SnocAlgebra(b, Value(w[1..], b), Pow2(wb * (|w| - 1)), x);
    }
  }

  lemma SnocAlgebra(b: int, v: int, p: int, x: int)
    ensures b * (v + p * x) == b * v + (b * p) * x
  {}

  /** The honest word gate vanishes at every quotient that fits. */
  lemma WordGateVanishes(nodeId: NodeId, qs: seq<nat>, wb: nat, k: nat, i: nat)
    requires i < |qs| && qs[i] < Pow2(wb * k)
    ensures AtIndex(Affine(nodeId, WordPowers(wb, k), WordColumns(qs, wb, k), qs).terms, i) % P == 0
    ensures forall j :: 0 <= j < k ==> 0 <= WordColumns(qs, wb, k)[j][i] < Pow2(wb)
  {
    hide Pow2, DigitAt, AtIndex;
    var words, q := WordColumns(qs, wb, k), qs[i];
    AffineValue(nodeId, WordPowers(wb, k), words, qs, i);
    WeightedIsValue(wb, words, i, k);
    assert EntryWords(words, i)[..k] == Digits(q, wb, k);
    DigitsValue(q, wb, k);
    forall j | 0 <= j < k ensures 0 <= words[j][i] < Pow2(wb) {
      assert words[j][i] == Digits(q, wb, k)[j];
    }
  }

  /** The repair as the verifier sees it: a rescale gate and a word gate that vanish at i, with
      the remainder and every word in range, say that q and r are the integer quotient and
      remainder of the canonical raw value; one of 2^(nb + wb*k) or more cannot pass. */
  lemma RangedGatesDivide(a: NodeId, b: NodeId, raw: seq<int>, q: seq<int>, r: seq<int>, nb: nat,
                          words: seq<seq<int>>, wb: nat, i: nat)
    requires i < |raw| && i < |q| && i < |r| && nb + wb * |words| <= LIFT_BITS
    requires 0 <= raw[i] < P && 0 <= q[i] < P && 0 <= r[i] < Pow2(nb) && WordsBelow(EntryWords(words, i), Pow2(wb))
    ensures AtIndex(Rescale(a, raw, q, r, Pow2(nb)).terms, i) % P == 0
            && AtIndex(Affine(b, WordPowers(wb, |words|), words, q).terms, i) % P == 0
            <==> raw[i] < Pow2(nb + wb * |words|) && q[i] == raw[i] / Pow2(nb) && r[i] == raw[i] % Pow2(nb)
                 && EntryWords(words, i) == Digits(q[i], wb, |words|)
  {
    hide *;
    PIsPositive();
    RescaleValue(a, raw, q, r, Pow2(nb), i);
    AffineValue(b, WordPowers(wb, |words|), words, q, i);
    WeightedIsValue(wb, words, i, |words|);
    assert EntryWords(words, i)[..|words|] == EntryWords(words, i);
    AtEntry(raw, i);
    AtEntry(q, i);
    AtEntry(r, i);
    DivisionUnfold(raw[i], nb, q[i], r[i], EntryWords(words, i), wb);
    LiftingExact(raw[i], nb, q[i], r[i], EntryWords(words, i), wb);
  }

  lemma AtEntry(f: seq<int>, i: nat)
    requires i < |f|
    ensures At(f, i) == f[i]
  {}
}
