/** The permutation argument over both of its coins. */
module Forgeries {
  // How many pairs (beta, z) let two record lists pass that are not rearrangements of each other.

  import opened NumberTheory
  import opened Field
  import opened Polynomial
  import opened Permutation
  import opened Confusion

  ghost predicate ReducedRecords(rs: seq<Record>) {
    forall i :: 0 <= i < |rs| ==> ReducedRecord(rs[i])
  }

  predicate ReducedRecord(r: Record) {
    0 <= r.layer < P && 0 <= r.kind < P && 0 <= r.t < P && 0 <= r.e < P && 0 <= r.j < P && 0 <= r.x < P
  }

  // ------------------------------------------------------------- records as tuples

  function AllFields(rs: seq<Record>): (ts: seq<seq<int>>)
    ensures |ts| == |rs| && forall i :: 0 <= i < |rs| ==> ts[i] == Fields(rs[i])
  {
    seq(|rs|, i requires 0 <= i < |rs| => Fields(rs[i]))
  }

  lemma FieldsArePrints(rs: seq<Record>, beta: int)
    ensures Fingerprints(rs, beta) == PrintsOf(AllFields(rs), beta)
  {
    hide Compress;
  }

  lemma ReducedFields(r: Record)
    requires ReducedRecord(r)
    ensures Residue(Fields(r)) == Fields(r) && |Fields(r)| == 6
  {
    forall i | 0 <= i < 6 ensures Residue(Fields(r))[i] == Fields(r)[i] { ModSmall(Fields(r)[i], P); }
  }

  lemma {:induction false} FieldsCount(rs: seq<Record>, u: Record)
    requires ReducedRecords(rs) && ReducedRecord(u)
    ensures multiset(AllResidues(AllFields(rs)))[Fields(u)] == multiset(rs)[u]
  {
    hide ReducedRecord;
    if rs != [] {
      var n := |rs| - 1;
      FieldsCount(rs[..n], u);
      ReducedFields(rs[n]);
      FieldsDecide(rs[n], u);
      FieldsSnoc(rs);
      assert rs == rs[..n] + [rs[n]];
      hide *;
      SnocCount(AllResidues(AllFields(rs[..n])), Fields(rs[n]), Fields(u));
      SnocCount(rs[..n], rs[n], u);
    }
  }

  lemma FieldsSnoc(rs: seq<Record>)
    requires rs != [] && Residue(Fields(rs[|rs| - 1])) == Fields(rs[|rs| - 1])
    ensures AllResidues(AllFields(rs)) == AllResidues(AllFields(rs[..|rs| - 1])) + [Fields(rs[|rs| - 1])]
  {
    hide Residue, Fields;
  }

  lemma FieldsDecide(r: Record, q: Record)
    ensures Fields(r) == Fields(q) <==> r == q
  {
    if Fields(r) == Fields(q) {
      assert Fields(r)[0] == Fields(q)[0] && Fields(r)[1] == Fields(q)[1] && Fields(r)[2] == Fields(q)[2];
      assert Fields(r)[3] == Fields(q)[3] && Fields(r)[4] == Fields(q)[4] && Fields(r)[5] == Fields(q)[5];
    }
  }

  lemma DifferentFields(src: seq<Record>, dst: seq<Record>)
    requires |src| == |dst| && ReducedRecords(src) && ReducedRecords(dst) && multiset(src) != multiset(dst)
    ensures multiset(AllResidues(AllFields(src))) != multiset(AllResidues(AllFields(dst)))
  {
    hide ReducedRecord, AllResidues, AllFields;
    var u := Heavier(src, dst);
    FieldsCount(src, u);
    FieldsCount(dst, u);
  }

  // ------------------------------------------------------------------- the results

  /** For at most 5n betas do two different lists of n reduced records have one multiset of
      fingerprints. */
  lemma BetasThatConfuse(src: seq<Record>, dst: seq<Record>, betas: set<int>)
    requires |src| == |dst| && ReducedRecords(src) && ReducedRecords(dst) && multiset(src) != multiset(dst)
    requires forall b :: b in betas ==> 0 <= b < P && multiset(Fingerprints(src, b)) == multiset(Fingerprints(dst, b))
    ensures |betas| <= 5 * |src|
  {
    hide Compress, Fingerprints, PrintsOf, ReducedRecord, AllResidues;
    DifferentFields(src, dst);
    forall b | b in betas
      ensures 0 <= b < P && multiset(PrintsOf(AllFields(src), b)) == multiset(PrintsOf(AllFields(dst), b))
    {
      FieldsArePrints(src, b);
      FieldsArePrints(dst, b);
    }
    ListsConfusedRarely(AllFields(src), AllFields(dst), 6, betas);
  }

  /** The coins under which a source and a stream of n reduced records pass the permutation check
      although one is no rearrangement of the other: at most 6n - 1 in P of all pairs (beta, z). */
  lemma ForgedPairs(src: seq<Record>, dst: seq<Record>, pairs: set<(int, int)>)
    requires |src| == |dst| && ReducedRecords(src) && ReducedRecords(dst) && multiset(src) != multiset(dst)
    requires forall p :: p in pairs ==> 0 <= p.0 < P && 0 <= p.1 < P && CharProduct(src, p.0, p.1) == CharProduct(dst, p.0, p.1)
    ensures |pairs| <= (6 * |src| - 1) * P
  {
    hide CharProduct, Fingerprints, ReducedRecord;
    var n := |src|;
    var u := Heavier(src, dst);
    var all := Permutation.Residues();
    var bad := set b | b in all && multiset(Fingerprints(src, b)) == multiset(Fingerprints(dst, b));
    BetasThatConfuse(src, dst, bad);
    forall b | 0 <= b < P && b !in bad ensures |Over(pairs, b)| <= n - 1 {
      ForgeriesPassRarely(src, dst, b, Over(pairs, b));
    }
    TwoCoins(pairs, bad, 5 * n, n - 1);
  }
}
