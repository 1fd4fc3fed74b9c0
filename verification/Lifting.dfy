/** The quotient range of layergkr/semantics.py. */
module Lifting {
  // Why ranging the remainder alone leaves a field division free, and why ranging the quotient by words
  // makes it integer division.

  import opened NumberTheory
  import opened Field

  const LIFT_BITS := 63

  datatype WordCount = NoRoom | Words(k: nat)

  /** Words of wordBits bits that range a quotient of division by 2^divisorBits below 2^63. */
  function QuotientWords(divisorBits: nat, wordBits: nat): WordCount
    requires wordBits > 0
  {
    var k := (LIFT_BITS - divisorBits) / wordBits;
    if k < 1 then NoRoom else Words(k)
  }

  /** The count fits in 63 bits, and one more word would not. */
  lemma QuotientWordsExact(divisorBits: nat, wordBits: nat)
    requires wordBits > 0
    ensures match QuotientWords(divisorBits, wordBits)
      case NoRoom => divisorBits + wordBits > LIFT_BITS
      case Words(k) => k >= 1 && divisorBits + wordBits * k <= LIFT_BITS < divisorBits + wordBits * (k + 1)
  {
    var room := LIFT_BITS - divisorBits;
    var k := room / wordBits;
    assert room == wordBits * k + room % wordBits;
    assert wordBits * (k + 1) == wordBits * k + wordBits;
    if k < 1 { NonpositiveTimes(wordBits, k); }
  }

  lemma NonpositiveTimes(a: int, k: int)
    requires a >= 0 && k <= 0
    ensures a * k <= 0
  {}

  // ------------------------------------------------------------------- digits

  /** Little-endian value of the words in base b. */
  function Value(w: seq<int>, b: int): int {
    if w == [] then 0 else w[0] + b * Value(w[1..], b)
  }

  ghost predicate WordsBelow(w: seq<int>, b: int) {
    forall j :: 0 <= j < |w| ==> 0 <= w[j] < b
  }

  /** k words of wb bits: word j is (q >> wb*j) & (2^wb - 1). */
  function Digits(q: nat, wb: nat, k: nat): (w: seq<int>)
    ensures |w| == k
  {
    seq(k, j requires 0 <= j < k => DigitAt(q, wb, j))
  }

  function DigitAt(q: nat, wb: nat, j: nat): int {
    (q / Pow2(wb * j)) % Pow2(wb)
  }

  lemma DigitShift(q: nat, wb: nat, j: nat)
    ensures DigitAt(q, wb, 0) == q % Pow2(wb)
    ensures q / Pow2(wb) >= 0 && DigitAt(q, wb, j + 1) == DigitAt(q / Pow2(wb), wb, j)
  {
    hide Pow2;
    assert wb * 0 == 0 && wb * (j + 1) == wb * j + wb;
    Pow2Zero();
    assert q / 1 == q;
    Pow2Add(wb * j, wb);
    DivTwice(q, Pow2(wb), Pow2(wb * j));
  }

  lemma Pow2Zero()
    ensures Pow2(0) == 1
  {}

  lemma DivTwice(q: nat, a: nat, b: nat)
    requires a > 0 && b > 0
    ensures b * a > 0 && q / a >= 0 && q / (b * a) == (q / a) / b
  {
    var q1, q2 := q / a, (q / a) / b;
    assert q == a * q1 + q % a && q1 == b * q2 + q1 % b;
    var r := a * (q1 % b) + q % a;
    assert q == q2 * (b * a) + r by {
      assert a * q1 == a * (b * q2) + a * (q1 % b);
      assert a * (b * q2) == q2 * (b * a);
    }
    MulMonotone(q1 % b, b - 1, a, a);
    assert a * (b - 1) == b * a - a;
    QuotientUnique(q, b * a, q2, r);
  }

  /** The digits of a number that fits sum back to it. */
  lemma {:induction false} DigitsValue(q: nat, wb: nat, k: nat)
    requires q < Pow2(wb * k)
    ensures Value(Digits(q, wb, k), Pow2(wb)) == q && WordsBelow(Digits(q, wb, k), Pow2(wb))
    decreases k
  {
    hide Pow2, DigitAt;
    if k == 0 {
      assert wb * 0 == 0;
      Pow2Zero();
    } else {
      var b, w := Pow2(wb), Digits(q, wb, k);
      assert wb * k == wb + wb * (k - 1);
      Pow2Add(wb, wb * (k - 1));
      QuotientBelow(q, b, Pow2(wb * (k - 1)));
      DigitsValue(q / b, wb, k - 1);
      DigitShift(q, wb, 0);
      forall j | 0 <= j < k - 1 ensures w[1..][j] == Digits(q / b, wb, k - 1)[j] {
        DigitShift(q, wb, j);
      }
      assert w[1..] == Digits(q / b, wb, k - 1);
      assert q == b * (q / b) + q % b;
      forall j | 0 <= j < |w| ensures 0 <= w[j] < b {
        if j > 0 { assert w[j] == w[1..][j - 1]; }
      }
    }
  }

  lemma QuotientBelow(q: nat, b: nat, m: nat)
    requires b > 0 && q < b * m
    ensures 0 <= q / b < m
  {
    assert q == b * (q / b) + q % b;
    if q / b >= m { MulMonotone(m, q / b, b, b); }
  }

  /** Words in range are the digits of their value, which fits in all of them. */
  lemma {:induction false} WordsAreDigits(w: seq<int>, wb: nat)
    requires WordsBelow(w, Pow2(wb))
    ensures 0 <= Value(w, Pow2(wb)) < Pow2(wb * |w|) && Digits(Value(w, Pow2(wb)), wb, |w|) == w
  {
    hide Pow2, DigitAt;
    var b, k := Pow2(wb), |w|;
    if k == 0 {
      assert wb * 0 == 0;
      Pow2Zero();
    } else {
      WordsAreDigits(w[1..], wb);
      var v, q := Value(w[1..], b), Value(w, b);
      assert wb * k == wb + wb * (k - 1);
      Pow2Add(wb, wb * (k - 1));
      ValueFits(w[0], b, v, Pow2(wb * (k - 1)));
      QuotientUnique(q, b, v, w[0]);
      DigitShift(q, wb, 0);
      forall j | 0 <= j < k ensures Digits(q, wb, k)[j] == w[j] {
        if j > 0 {
          DigitShift(q, wb, j - 1);
          assert w[1..][j - 1] == Digits(v, wb, k - 1)[j - 1];
        }
      }
    }
  }

  lemma ValueFits(w0: int, b: int, v: int, m: int)
    requires 0 <= w0 < b && 0 <= v < m
    ensures 0 <= w0 + b * v < b * m && w0 + b * v == v * b + w0
  {
    MulMonotone(v, m - 1, b, b);
    assert b * (m - 1) == b * m - b;
    TimesCommute(v, b);
    assert b * v >= 0;
  }

  // ------------------------------------------------------------------ the lift

  /** The two gate equations of a ranged division, in the field. */
  predicate FieldDivision(raw: int, nb: nat, q: int, r: int, w: seq<int>, wb: nat) {
    (raw - Pow2(nb) * q - r) % P == 0 && (Value(w, Pow2(wb)) - q) % P == 0
  }

  /** With remainder and words ranged, the field equations are integer division: they hold
      exactly when q and r are the quotient and remainder of the canonical raw value and the
      words are q's digits, and a raw value of 2^(nb + wb*k) or more has no solution. */
  lemma LiftingExact(raw: int, nb: nat, q: int, r: int, w: seq<int>, wb: nat)
    requires 0 <= raw < P && 0 <= q < P && nb + wb * |w| <= LIFT_BITS
    requires 0 <= r < Pow2(nb) && WordsBelow(w, Pow2(wb))
    ensures FieldDivision(raw, nb, q, r, w, wb)
            <==> raw < Pow2(nb + wb * |w|) && q == raw / Pow2(nb) && r == raw % Pow2(nb) && w == Digits(q, wb, |w|)
  {
    var n, top, v := Pow2(nb), Pow2(wb * |w|), Value(w, Pow2(wb));
    WordsAreDigits(w, wb);
    LiftRoom(nb, wb * |w|);
    DivisionUnfold(raw, nb, q, r, w, wb);
    hide *;
    PIsPositive();
    if FieldDivision(raw, nb, q, r, w, wb) {
      LiftForward(raw, n, top, q, r, v);
    } else if raw < n * top && q == raw / n && r == raw % n && w == Digits(q, wb, |w|) {
      QuotientBelow(raw, n, top);
      DigitsValue(q, wb, |w|);
      LiftBack(raw, n);
      assert false;
    }
  }

  lemma DivisionUnfold(raw: int, nb: nat, q: int, r: int, w: seq<int>, wb: nat)
    ensures FieldDivision(raw, nb, q, r, w, wb)
            <==> (raw - Pow2(nb) * q - r) % P == 0 && (Value(w, Pow2(wb)) - q) % P == 0
  {}

  lemma LiftForward(raw: int, n: int, top: int, q: int, r: int, v: int)
    requires 0 <= raw < P && 0 <= q < P && 0 <= r < n && 0 <= v < top && n * top < P && top < P
    requires (raw - n * q - r) % P == 0 && (v - q) % P == 0
    ensures q == v && raw < n * top && q == raw / n && r == raw % n
  {
    hide *;
    PIsPositive();
    DiffZero(v, q, P);
    SmallCongruent(v, q);
    ValueFits(r, n, q, top);
    assert raw - n * q - r == raw - (r + n * q);
    DiffZero(raw, r + n * q, P);
    SmallCongruent(raw, r + n * q);
    QuotientUnique(raw, n, q, r);
  }

  lemma LiftBack(raw: int, n: int)
    requires n > 0
    ensures (raw - n * (raw / n) - raw % n) % P == 0
  {
    assert raw == n * (raw / n) + raw % n;
  }

  lemma LiftRoom(nb: nat, m: nat)
    requires nb + m <= LIFT_BITS
    ensures Pow2(nb + m) == Pow2(nb) * Pow2(m) < P && Pow2(m) < P
  {
    Pow2Add(nb, m);
    Pow2Monotone(nb + m, 63);
    Pow2Monotone(m, nb + m);
    Pow2Values();
    Pow2Add(31, 32);
  }

  /** Without the quotient range every remainder is met: the equation alone fixes nothing. */
  lemma UnrangedQuotientIsFree(raw: int, nb: nat, r: int) returns (q: int)
    requires nb <= LIFT_BITS
    ensures 0 <= q < P && (raw - Pow2(nb) * q - r) % P == 0
  {
    var n := Pow2(nb);
    LiftRoom(nb, 0);
    Pow2Zero();
    hide *;
    PIsPositive();
    ModSmall(n, P);
    InvCorrect(n);
    q := (Inv(n) * (raw - r)) % P;
    FreeQuotient(raw - r, n, Inv(n), q);
    DiffZero(raw - r, n * q, P);
    assert raw - n * q - r == (raw - r) - n * q;
  }

  lemma FreeQuotient(d: int, n: int, i: int, q: int)
    requires (n * i) % P == 1 && q == (i * d) % P
    ensures (n * q) % P == d % P
  {
    ModMod(i * d, P);
    ModMul(n, n, q, i * d, P);
    assert n * (i * d) == (n * i) * d;
    OneTimes(P, n * i, d);
  }
}
