/** The guards of prover/topk_params.py. */
module TopK {
  // When a range check on residues settles an order or a division over the integers, and when it does not.

  import opened NumberTheory
  import opened Field

  predicate Top1GuardOk(width: nat, rangeBits: nat) {
    Pow2(rangeBits) <= P - Pow2(width)
  }

  predicate ThresholdGuardOk(width: nat, rangeBits: nat) {
    Pow2(rangeBits + 1) - 1 <= P - Pow2(width)
  }

  predicate Ranged(x: int, bits: nat) {
    x % P < Pow2(bits)
  }

  predicate Close(x: int, width: nat) {
    x < Pow2(width) && -x < Pow2(width)
  }

  /** Scores closer than 2^width with a threshold that both ranges accept between them. */
  predicate Split(width: nat, rangeBits: nat, qs: int, qu: int, tau: int) {
    Close(qs - qu, width) && Ranged(qs - tau, rangeBits) && Ranged(tau - qu, rangeBits)
  }

  /** One pinned gap whose residue is ranged is not negative. */
  ghost predicate Top1Sound(width: nat, rangeBits: nat) {
    forall gap :: Close(gap, width) && Ranged(gap, rangeBits) ==> gap >= 0
  }

  /** A free threshold between a selected and an unselected score cannot reverse them. */
  ghost predicate ThresholdSound(width: nat, rangeBits: nat) {
    forall qs, qu, tau :: Split(width, rangeBits, qs, qu, tau) ==> qs >= qu
  }

  lemma NegativeResidue(x: int)
    requires -P <= x < 0
    ensures x % P == x + P || (x == -P && x % P == 0)
  {}

  lemma {:induction false} Pow2Even(k: nat)
    requires k > 0
    ensures Pow2(k) % 2 == 0
  {}

  /** The guard is enough, and one step short of being necessary. */
  lemma Top1Exact(width: nat, rangeBits: nat)
    requires 1 <= width && Pow2(width) <= P
    ensures Top1Sound(width, rangeBits) <==> Pow2(rangeBits) <= P - Pow2(width) + 1
    ensures Top1GuardOk(width, rangeBits) ==> Top1Sound(width, rangeBits)
  {
    Pow2Even(width);
    if Pow2(rangeBits) <= P - Pow2(width) + 1 {
      forall gap | Close(gap, width) && Ranged(gap, rangeBits) ensures gap >= 0 {
        if gap < 0 { NegativeResidue(gap); }
      }
    } else {
      var gap := 1 - Pow2(width);
      NegativeResidue(gap);
      assert Close(gap, width) && Ranged(gap, rangeBits);
    }
  }

  lemma ThresholdGuardSuffices(width: nat, rangeBits: nat, qs: int, qu: int, tau: int)
    requires ThresholdGuardOk(width, rangeBits) && Split(width, rangeBits, qs, qu, tau)
    ensures qs >= qu
  {
    var a, c := (qs - tau) % P, (tau - qu) % P;
    ModMod(qs - tau, P);
    ModMod(tau - qu, P);
    ModAdd(a, qs - tau, c, tau - qu, P);
    assert a + c <= Pow2(rangeBits + 1) - 2;
    ModSmall(a + c, P);
    if qs < qu {
      NegativeResidue(qs - qu);
    }
  }

  /** Tightness: P - 2^width is odd and 2^(R+1) - 2 is even, so a guard that fails at all
      fails by enough for a wrapped threshold to reverse an order. */
  lemma ThresholdGuardNeeded(width: nat, rangeBits: nat) returns (qs: int, qu: int, tau: int)
    requires 1 <= width && Pow2(width) <= P && !ThresholdGuardOk(width, rangeBits)
    ensures Split(width, rangeBits, qs, qu, tau) && qs < qu
  {
    Pow2Even(width);
    Pow2Even(rangeBits + 1);
    var delta := Pow2(width) - 1;
    var s, top := P - delta, Pow2(rangeBits) - 1;
    var a := if s <= top then s else top;
    qs, qu, tau := 0, delta, -a;
    ModSmall(a, P);
    Congruent(tau - qu, s - a, -1, P);
    ModSmall(s - a, P);
  }

  lemma ThresholdExact(width: nat, rangeBits: nat)
    requires 1 <= width && Pow2(width) <= P
    ensures ThresholdGuardOk(width, rangeBits) <==> ThresholdSound(width, rangeBits)
  {
    if ThresholdGuardOk(width, rangeBits) {
      forall qs, qu, tau | Split(width, rangeBits, qs, qu, tau) ensures qs >= qu {
        ThresholdGuardSuffices(width, rangeBits, qs, qu, tau);
      }
    } else {
      var qs, qu, tau := ThresholdGuardNeeded(width, rangeBits);
    }
  }

  // ------------------------------------------------------------ choosing words

  datatype Words = TooNarrow | Unsound | Words(n: nat, bits: nat)

  function CeilDiv(a: nat, b: nat): nat
    requires b > 0
  {
    (a + b - 1) / b
  }

  /** threshold_words; nWords = 0 asks for the fewest words that cover the width. */
  function ThresholdWords(width: nat, wordBits: nat, nWords: nat): (r: Words)
    requires wordBits > 0
  {
    var fewest := CeilDiv(width, wordBits);
    var n := if nWords != 0 then nWords else if fewest > 1 then fewest else 1;
    var bits := n * wordBits;
    if bits < width then TooNarrow
    else if !ThresholdGuardOk(width, bits) then Unsound
    else Words(n, bits)
  }

  /** Whatever it returns covers the width and is sound; the default never falls short of
      the width, and no smaller number of words would cover it. */
  lemma ThresholdWordsSound(width: nat, wordBits: nat, nWords: nat)
    requires wordBits > 0
    ensures var r := ThresholdWords(width, wordBits, nWords);
            && (r.Words? ==> r.bits == r.n * wordBits >= width && r.n > 0 && ThresholdSound(width, r.bits))
            && (nWords == 0 ==> r != TooNarrow)
            && (nWords == 0 && r.Words? && r.n > 1 ==> (r.n - 1) * wordBits < width)
  {
    var r := ThresholdWords(width, wordBits, nWords);
    CeilDivCovers(width, wordBits);
    if r.Words? {
      forall qs, qu, tau | Split(width, r.bits, qs, qu, tau) ensures qs >= qu {
        ThresholdGuardSuffices(width, r.bits, qs, qu, tau);
      }
    }
  }

  lemma CeilDivCovers(a: nat, b: nat)
    requires b > 0
    ensures CeilDiv(a, b) * b >= a && (CeilDiv(a, b) - 1) * b < a + (if a == 0 then 1 else 0)
  {
    var q := (a + b - 1) / b;
    var r := (a + b - 1) % b;
    assert a + b - 1 == b * q + r;
    assert (q - 1) * b == q * b - b;
    if a == 0 { assert q == 0 by { ModSmall(b - 1, b); } }
  }

  // ----------------------------------------------------------- the gate bracket

  predicate BracketGuardOk(zBits: nat, remBits: nat, wBits: nat, csBits: nat) {
    && Pow2(wBits + zBits) + Pow2(remBits) < P
    && Pow2(csBits) < P
    && Pow2(remBits) <= P - Pow2(if remBits >= zBits then remBits else zBits) - 1
  }

  /** Under the guard the field equation w*Z + rem = C*s, with its ranges on residues, is
      integer division with remainder. */
  lemma BracketIsDivision(zBits: nat, remBits: nat, wBits: nat, csBits: nat,
                          z: int, w: int, rem: int, cs: int)
    requires BracketGuardOk(zBits, remBits, wBits, csBits)
    requires 1 <= z < Pow2(zBits) && 0 <= cs < Pow2(csBits)
    requires 0 <= rem < Pow2(remBits) && 0 <= w < Pow2(wBits) && Ranged(z - 1 - rem, remBits)
    requires (w * z + rem) % P == cs % P
    ensures w == cs / z && rem == cs % z
  {
    hide *;
    GuardMeans(zBits, remBits, wBits, csBits);
    RemainderBelow(zBits, remBits, z, rem);
    ProductBelow(zBits, wBits, z, w);
    IntegerEquation(w * z, rem, cs, Pow2(wBits + zBits), Pow2(remBits));
    QuotientUnique(cs, z, w, rem);
  }

  lemma GuardMeans(zBits: nat, remBits: nat, wBits: nat, csBits: nat)
    requires BracketGuardOk(zBits, remBits, wBits, csBits)
    ensures P > 0 && Pow2(wBits + zBits) + Pow2(remBits) < P && Pow2(csBits) < P
    ensures Pow2(remBits) <= P - Pow2(if remBits >= zBits then remBits else zBits) - 1
  {}

  lemma ProductBelow(zBits: nat, wBits: nat, z: int, w: int)
    requires 1 <= z < Pow2(zBits) && 0 <= w < Pow2(wBits)
    ensures 0 <= w * z <= Pow2(wBits + zBits)
  {
    hide *;
    Pow2Add(wBits, zBits);
    MulMonotone(w, Pow2(wBits), z, Pow2(zBits));
    NonnegativeProduct(w, z);
  }

  lemma IntegerEquation(p: int, rem: int, cs: int, top: int, remTop: int)
    requires 0 <= p <= top && 0 <= rem < remTop && top + remTop < P && 0 <= cs < P
    requires (p + rem) % P == cs % P
    ensures p + rem == cs
  {
    SmallCongruent(p + rem, cs);
  }

  lemma NonnegativeProduct(w: int, z: int)
    requires w >= 0 && z >= 0
    ensures w * z >= 0
  {}

  lemma RemainderBelow(zBits: nat, remBits: nat, z: int, rem: int)
    requires Pow2(remBits) <= P - Pow2(if remBits >= zBits then remBits else zBits) - 1
    requires 1 <= z < Pow2(zBits) && 0 <= rem < Pow2(remBits) && Ranged(z - 1 - rem, remBits)
    ensures rem < z
  {
    Pow2Monotone(remBits, if remBits >= zBits then remBits else zBits);
    if rem >= z { NegativeResidue(z - 1 - rem); }
  }
}
