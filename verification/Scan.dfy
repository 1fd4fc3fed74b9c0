/** The segmented scan of moe.py. */
module Scan {
  // Local row constraints that force the per-expert sums, and the construction that always meets them.

  import opened NumberTheory
  import opened Field
  import opened Permutation
  import opened Rows

  datatype ScanRow = ScanRow(
    isDelim: bool, lab: int, e: int, t: int, x: int, d: int, a: int,
    cIn: int, hIn: int, hOut: int, emitted: int)

  const DELIMITER := -1

  // ------------------------------------------------------------------- indexing

  /** A list index as Python takes it: negative indices count from the end. */
  predicate ValidIndex(s: seq<int>, i: int) {
    -|s| <= i < |s|
  }

  function Index(s: seq<int>, i: int): int {
    if 0 <= i < |s| then s[i] else if -|s| <= i < 0 then s[|s| + i] else 0
  }

  function Weigh(tau: seq<int>, t: int, x: int): int {
    Index(tau, t) * x
  }

  // ---------------------------------------------------------------- constraints

  /** Everything scan_constraints_ok asks of a row, given the counter and accumulator it
      expects there. */
  predicate RowFits(row: ScanRow, c: int, h: int, tau: seq<int>) {
    && (row.d == 0 || row.d == 1) && (row.a == 0 || row.a == 1) && row.d + row.a == 1
    && row.cIn == c && row.hIn == h
    && (row.d == 1 ==> (row.lab - row.cIn) % P == 0)
    && (row.a == 1 ==> (row.e - (row.cIn - 1)) % P == 0 && ValidIndex(tau, row.t))
    && row.hOut == (if row.d == 1 then 0 else (row.hIn + Weigh(tau, row.t, row.x) % P) % P)
    && (row.d == 1 ==> row.emitted == row.hIn)
  }

  /** The linear part of what a fitting row says. */
  lemma RowFacts(row: ScanRow, c: int, h: int, tau: seq<int>)
    requires RowFits(row, c, h, tau)
    ensures (row.d == 1 && row.a == 0) || (row.d == 0 && row.a == 1)
    ensures row.cIn == c && row.hIn == h
    ensures row.d == 1 ==> row.hOut == 0 && row.emitted == h && (row.lab - c) % P == 0
    ensures row.a == 1 ==> ValidIndex(tau, row.t) && (row.e - (c - 1)) % P == 0
                           && row.hOut == (h + Weigh(tau, row.t, row.x) % P) % P
  {}

  /** Delimiters among the first q rows. */
  function Delims(trace: seq<ScanRow>, q: nat): int
    requires q <= |trace|
  {
    if q == 0 then 0 else Delims(trace, q - 1) + trace[q - 1].d
  }

  /** The accumulator on entering row q. */
  function Carried(trace: seq<ScanRow>, q: nat): int
    requires q <= |trace|
  {
    if q == 0 then 0 else trace[q - 1].hOut
  }

  ghost predicate FitsUpTo(trace: seq<ScanRow>, tau: seq<int>, n: nat)
    requires n <= |trace|
  {
    forall q :: 0 <= q < n ==> RowFits(trace[q], Delims(trace, q), Carried(trace, q), tau)
  }

  ghost predicate Accepted(trace: seq<ScanRow>, E: int, tau: seq<int>) {
    FitsUpTo(trace, tau, |trace|) && Delims(trace, |trace|) == E + 1
  }

  lemma FitsAt(trace: seq<ScanRow>, tau: seq<int>, n: nat, q: nat)
    requires q < n <= |trace| && FitsUpTo(trace, tau, n)
    ensures RowFits(trace[q], Delims(trace, q), Carried(trace, q), tau)
    ensures Delims(trace, q + 1) == Delims(trace, q) + trace[q].d && Carried(trace, q + 1) == trace[q].hOut
    ensures (trace[q].d == 1 && trace[q].a == 0) || (trace[q].d == 0 && trace[q].a == 1)
  {
    RowFacts(trace[q], Delims(trace, q), Carried(trace, q), tau);
  }

  lemma FitsStep(trace: seq<ScanRow>, tau: seq<int>, q: nat)
    requires q < |trace| && FitsUpTo(trace, tau, q)
    ensures FitsUpTo(trace, tau, q + 1) <==> RowFits(trace[q], Delims(trace, q), Carried(trace, q), tau)
    ensures Delims(trace, q + 1) == Delims(trace, q) + trace[q].d && Carried(trace, q + 1) == trace[q].hOut
  {
    hide RowFits;
  }

  lemma {:induction false} FitsShorter(trace: seq<ScanRow>, tau: seq<int>, q: nat, n: nat)
    requires q <= n <= |trace| && FitsUpTo(trace, tau, n)
    ensures FitsUpTo(trace, tau, q)
  {
    hide RowFits;
  }

  datatype ScanVerdict = Holds | Violated | BadIndex

  /** The checks on one row, in the program's order. */
  method CheckRow(row: ScanRow, c: int, h: int, tau: seq<int>) returns (v: ScanVerdict)
    ensures v == Holds <==> RowFits(row, c, h, tau)
    ensures v == BadIndex ==> row.a == 1 && !ValidIndex(tau, row.t)
  {
    if !((row.d == 0 || row.d == 1) && (row.a == 0 || row.a == 1)) {
      return Violated;
    }
    if row.d + row.a != 1 {
      return Violated;
    }
    if row.cIn != c {
      return Violated;
    }
    if row.hIn != h {
      return Violated;
    }
    if row.d != 0 && (row.lab - row.cIn) % P != 0 {
      return Violated;
    }
    if row.a != 0 && (row.e - (row.cIn - 1)) % P != 0 {
      return Violated;
    }
    var delta := 0;
    if row.a != 0 {
      if !ValidIndex(tau, row.t) {
        return BadIndex;
      }
      delta := (row.a * Index(tau, row.t) * row.x) % P;
      assert row.a * Index(tau, row.t) == Index(tau, row.t);
    }
    var want := if row.d != 0 then 0 else (row.hIn + delta) % P;
    if row.hOut != want {
      return Violated;
    }
    if row.d != 0 && row.emitted != row.hIn {
      return Violated;
    }
    v := Holds;
  }

  method ScanConstraintsOk(trace: seq<ScanRow>, E: int, tau: seq<int>) returns (v: ScanVerdict)
    ensures v == Holds <==> Accepted(trace, E, tau)
    ensures v == BadIndex ==> exists q :: 0 <= q < |trace| && trace[q].a == 1 && !ValidIndex(tau, trace[q].t)
  {
    hide RowFits, FitsUpTo;
    var c, h := 0, 0;
    FitsNone(trace, tau);
    for q := 0 to |trace|
      invariant c == Delims(trace, q) && h == Carried(trace, q) && FitsUpTo(trace, tau, q)
    {
      var row := trace[q];
      FitsStep(trace, tau, q);
      var ok := CheckRow(row, c, h, tau);
      if ok != Holds {
        if FitsUpTo(trace, tau, |trace|) { FitsShorter(trace, tau, q + 1, |trace|); }
        return ok;
      }
      c := c + row.d;
      h := row.hOut;
    }
    v := if c != E + 1 then Violated else Holds;
  }

  lemma FitsNone(trace: seq<ScanRow>, tau: seq<int>)
    ensures FitsUpTo(trace, tau, 0)
  {}

  // ------------------------------------------------------------------ soundness

  /** tau[t] * x over the token rows of expert e among the first m rows. */
  function TokenSum(trace: seq<ScanRow>, e: int, tau: seq<int>, m: nat): int
    requires m <= |trace|
  {
    if m == 0 then 0
    else TokenSum(trace, e, tau, m - 1)
         + if trace[m - 1].a == 1 && trace[m - 1].e == e then Weigh(tau, trace[m - 1].t, trace[m - 1].x) else 0
  }

  /** Token rows name real experts, and there are fewer experts than field elements. */
  ghost predicate RealExperts(trace: seq<ScanRow>, E: int) {
    0 <= E && E + 1 < P && forall q :: 0 <= q < |trace| && trace[q].a == 1 ==> 0 <= trace[q].e < E
  }

  lemma {:induction false} DelimsMonotone(trace: seq<ScanRow>, tau: seq<int>, i: nat, k: nat)
    requires i <= k <= |trace| && FitsUpTo(trace, tau, |trace|)
    ensures 0 <= Delims(trace, i) <= Delims(trace, k)
    decreases k
  {
    hide RowFits, FitsUpTo;
    if k > 0 {
      if i < k { DelimsMonotone(trace, tau, i, k - 1); } else { DelimsMonotone(trace, tau, i - 1, k - 1); }
      FitsAt(trace, tau, |trace|, k - 1);
    }
  }

  /** A token sits in its own expert's segment: with E + 1 < P the field equation is an
      equation of integers. */
  lemma TokenInSegment(trace: seq<ScanRow>, E: int, tau: seq<int>, q: nat)
    requires Accepted(trace, E, tau) && RealExperts(trace, E)
    requires q < |trace| && trace[q].a == 1
    ensures trace[q].e == Delims(trace, q) - 1
  {
    hide RowFits, FitsUpTo;
    FitsAt(trace, tau, |trace|, q);
    RowFacts(trace[q], Delims(trace, q), Carried(trace, q), tau);
    DelimsMonotone(trace, tau, q, |trace|);
    SmallMultiple(trace[q].e - (Delims(trace, q) - 1));
  }

  lemma SmallMultiple(d: int)
    requires -P < d < P && d % P == 0
    ensures d == 0
  {}

  /** The accumulator holds the sum of the open segment's expert. */
  lemma {:induction false} AccumulatorIs(trace: seq<ScanRow>, E: int, tau: seq<int>, q: nat)
    requires Accepted(trace, E, tau) && RealExperts(trace, E) && q <= |trace|
    ensures Carried(trace, q) == TokenSum(trace, Delims(trace, q) - 1, tau, q) % P
  {
    hide RowFits, FitsUpTo, RealExperts, Weigh;
    if q > 0 {
      var row, c := trace[q - 1], Delims(trace, q - 1);
      AccumulatorIs(trace, E, tau, q - 1);
      FitsAt(trace, tau, |trace|, q - 1);
      RowFacts(row, c, Carried(trace, q - 1), tau);
      if row.d == 1 {
        NoTokensYet(trace, E, tau, q, c);
      } else {
        TokenInSegment(trace, E, tau, q - 1);
        ReducedSum(row.hIn, TokenSum(trace, c - 1, tau, q - 1), Weigh(tau, row.t, row.x) % P, Weigh(tau, row.t, row.x));
      }
    }
  }

  lemma ReducedSum(h: int, s: int, d: int, v: int)
    requires h == s % P && d == v % P
    ensures (h + d) % P == (s + v) % P
  {
    ModMod(s, P);
    ModMod(v, P);
    ModAdd(h, s, d, v, P);
  }

  /** Before a segment opens, its expert has no tokens. */
  lemma {:induction false} NoTokensYet(trace: seq<ScanRow>, E: int, tau: seq<int>, q: nat, e: int)
    requires Accepted(trace, E, tau) && RealExperts(trace, E)
    requires q <= |trace| && (q > 0 ==> Delims(trace, q - 1) <= e)
    ensures TokenSum(trace, e, tau, q) == 0
  {
    hide RowFits, FitsUpTo, RealExperts, Weigh;
    if q > 0 {
      if q > 1 { DelimsMonotone(trace, tau, q - 2, q - 1); }
      NoTokensYet(trace, E, tau, q - 1, e);
      if trace[q - 1].a == 1 { TokenInSegment(trace, E, tau, q - 1); }
    }
  }

  /** After a segment closes, its expert has no more. */
  lemma {:induction false} NoTokensLater(trace: seq<ScanRow>, E: int, tau: seq<int>, q: nat, m: nat, e: int)
    requires Accepted(trace, E, tau) && RealExperts(trace, E)
    requires q < m <= |trace| && trace[q].d == 1 && e == Delims(trace, q) - 1
    ensures TokenSum(trace, e, tau, m) == TokenSum(trace, e, tau, q)
    decreases m
  {
    hide RowFits, FitsUpTo, RealExperts, Weigh;
    FitsAt(trace, tau, |trace|, q);
    if m > q + 1 {
      NoTokensLater(trace, E, tau, q, m - 1, e);
      DelimsMonotone(trace, tau, q + 1, m - 1);
      if trace[m - 1].a == 1 { TokenInSegment(trace, E, tau, m - 1); }
    }
  }

  /** Scan soundness: whatever rows are accepted, the value emitted at the delimiter
      labelled e + 1 is the sum over exactly expert e's token rows. */
  lemma ScanSound(trace: seq<ScanRow>, E: int, tau: seq<int>, q: nat, e: int)
    requires Accepted(trace, E, tau) && RealExperts(trace, E) && 0 <= e < E
    requires q < |trace| && trace[q].d == 1 && trace[q].lab % P == e + 1
    ensures trace[q].emitted == TokenSum(trace, e, tau, |trace|) % P
  {
    hide RowFits, FitsUpTo, Weigh, TokenSum;
    FitsAt(trace, tau, |trace|, q);
    RowFacts(trace[q], Delims(trace, q), Carried(trace, q), tau);
    DelimsMonotone(trace, tau, q, |trace|);
    LabelIsCounter(trace[q].lab, Delims(trace, q), e + 1);
    AccumulatorIs(trace, E, tau, q);
    NoTokensLater(trace, E, tau, q, |trace|, e);
  }

  lemma LabelIsCounter(lab: int, c: int, n: int)
    requires (lab - c) % P == 0 && 0 <= c < P && lab % P == n
    ensures c == n
  {
    DiffZero(lab, c, P);
    ModSmall(c, P);
  }

  /** There is such a delimiter for every expert, and only one. */
  lemma {:induction false} DelimiterExists(trace: seq<ScanRow>, tau: seq<int>, c: int, n: nat) returns (q: nat)
    requires FitsUpTo(trace, tau, |trace|) && n <= |trace| && 0 <= c < Delims(trace, n)
    ensures q < n && trace[q].d == 1 && Delims(trace, q) == c
    ensures forall k :: 0 <= k < n && trace[k].d == 1 && Delims(trace, k) == c ==> k == q
  {
    hide RowFits, FitsUpTo;
    FitsAt(trace, tau, |trace|, n - 1);
    if c < Delims(trace, n - 1) {
      q := DelimiterExists(trace, tau, c, n - 1);
    } else {
      q := n - 1;
      forall k | 0 <= k < n && trace[k].d == 1 && Delims(trace, k) == c ensures k == q {
        FitsAt(trace, tau, |trace|, k);
        if k < q { DelimsMonotone(trace, tau, k + 1, n - 1); }
      }
    }
  }

  /** The delimiter labelled e + 1. */
  lemma DelimiterFor(trace: seq<ScanRow>, E: int, tau: seq<int>, e: int) returns (q: nat)
    requires Accepted(trace, E, tau) && 0 <= e < E && E + 1 < P
    ensures q < |trace| && trace[q].d == 1 && trace[q].lab % P == e + 1
    ensures forall k :: 0 <= k < |trace| && trace[k].d == 1 && trace[k].lab % P == e + 1 ==> k == q
  {
    hide RowFits, FitsUpTo, Delims, Carried;
    q := DelimiterExists(trace, tau, e + 1, |trace|);
    FitsAt(trace, tau, |trace|, q);
    RowFacts(trace[q], e + 1, Carried(trace, q), tau);
    DiffZero(trace[q].lab, e + 1, P);
    forall k | 0 <= k < |trace| && trace[k].d == 1 && trace[k].lab % P == e + 1 ensures k == q {
      FitsAt(trace, tau, |trace|, k);
      RowFacts(trace[k], Delims(trace, k), Carried(trace, k), tau);
      DelimsMonotone(trace, tau, k, |trace|);
      LabelIsCounter(trace[k].lab, Delims(trace, k), e + 1);
    }
  }

  // --------------------------------------------------------------- construction

  /** tau[t] * x over the first m records, those of expert e only. */
  function RecordSum(lane: seq<Record>, e: int, tau: seq<int>, m: nat): int
    requires m <= |lane|
  {
    if m == 0 then 0
    else RecordSum(lane, e, tau, m - 1)
         + if lane[m - 1].e == e then Weigh(tau, lane[m - 1].t, lane[m - 1].x) else 0
  }

  /** The records of expert e, in lane order. */
  function OfExpert(lane: seq<Record>, e: int, m: nat): (rs: seq<Record>)
    requires m <= |lane|
    ensures forall r :: r in rs ==> r in lane && r.e == e
  {
    if m == 0 then []
    else if lane[m - 1].e == e then OfExpert(lane, e, m - 1) + [lane[m - 1]]
    else OfExpert(lane, e, m - 1)
  }

  lemma {:induction false} ExpertSum(lane: seq<Record>, e: int, tau: seq<int>, m: nat)
    requires m <= |lane|
    ensures RecordSum(OfExpert(lane, e, m), e, tau, |OfExpert(lane, e, m)|) == RecordSum(lane, e, tau, m)
  {
    hide Weigh;
    if m > 0 {
      ExpertSum(lane, e, tau, m - 1);
      if lane[m - 1].e == e {
        RecordSumSnoc(OfExpert(lane, e, m - 1), lane[m - 1], e, tau);
      }
    }
  }

  lemma RecordSumSnoc(a: seq<Record>, r: Record, e: int, tau: seq<int>)
    ensures RecordSum(a + [r], e, tau, |a| + 1)
            == RecordSum(a, e, tau, |a|) + if r.e == e then Weigh(tau, r.t, r.x) else 0
  {
    RecordSumPrefix(a, [r], e, tau, |a|);
  }

  lemma {:induction false} RecordSumPrefix(a: seq<Record>, b: seq<Record>, e: int, tau: seq<int>, m: nat)
    requires m <= |a|
    ensures RecordSum(a + b, e, tau, m) == RecordSum(a, e, tau, m)
  {
    if m > 0 { RecordSumPrefix(a, b, e, tau, m - 1); }
  }

  /** What a dictionary with an empty default holds. */
  function Get(m: map<int, seq<Record>>, e: int): seq<Record> {
    if e in m then m[e] else []
  }

  method GroupByExpert(lane: seq<Record>) returns (byExpert: map<int, seq<Record>>)
    ensures Grouped(byExpert, lane, |lane|)
  {
    hide Grouped;
    byExpert := map[];
    GroupStart(lane);
    for i := 0 to |lane|
      invariant Grouped(byExpert, lane, i)
    {
      GroupStep(byExpert, lane, i);
      var r := lane[i];
      byExpert := byExpert[r.e := Get(byExpert, r.e) + [r]];
    }
  }

  ghost predicate Grouped(m: map<int, seq<Record>>, lane: seq<Record>, n: nat)
    requires n <= |lane|
  {
    forall e :: Get(m, e) == OfExpert(lane, e, n)
  }

  lemma GroupStart(lane: seq<Record>)
    ensures Grouped(map[], lane, 0)
  {}

  lemma GroupStep(m: map<int, seq<Record>>, lane: seq<Record>, i: nat)
    requires i < |lane| && Grouped(m, lane, i)
    ensures Grouped(m[lane[i].e := Get(m, lane[i].e) + [lane[i]]], lane, i + 1)
  {
    var r := lane[i];
    var grown := m[r.e := Get(m, r.e) + [r]];
    forall e ensures Get(grown, e) == OfExpert(lane, e, i + 1) {
      assert Get(m, e) == OfExpert(lane, e, i);
      if e != r.e { assert Get(grown, e) == Get(m, e); }
    }
  }

  lemma {:induction false} DelimsPrefix(trace: seq<ScanRow>, row: ScanRow, q: nat)
    requires q <= |trace|
    ensures Delims(trace + [row], q) == Delims(trace, q) && Carried(trace + [row], q) == Carried(trace, q)
  {
    if q > 0 { DelimsPrefix(trace, row, q - 1); }
  }

  /** A trace under construction: it fits so far, with this counter and accumulator. */
  ghost predicate Building(trace: seq<ScanRow>, tau: seq<int>, c: int, h: int) {
    FitsUpTo(trace, tau, |trace|) && Delims(trace, |trace|) == c && Carried(trace, |trace|) == h
  }

  /** Appending a row that fits keeps the trace fitting. */
  lemma AppendFits(trace: seq<ScanRow>, row: ScanRow, tau: seq<int>, c: int, h: int)
    requires Building(trace, tau, c, h) && RowFits(row, c, h, tau)
    ensures Building(trace + [row], tau, c + row.d, row.hOut)
  {
    hide RowFits;
    var longer := trace + [row];
    DelimsPrefix(trace, row, |trace|);
    forall q | 0 <= q < |longer| ensures RowFits(longer[q], Delims(longer, q), Carried(longer, q), tau) {
      DelimsPrefix(trace, row, q);
      if q < |trace| {
        assert RowFits(trace[q], Delims(trace, q), Carried(trace, q), tau);
      }
    }
  }

  lemma TokenRowFits(r: Record, tau: seq<int>, c: int, h: int)
    requires r.e == c - 1 && ValidIndex(tau, r.t)
    ensures RowFits(ScanRow(false, -1, r.e, r.t, r.x, 0, 1, c, h, (h + Weigh(tau, r.t, r.x) % P) % P, 0), c, h, tau)
  {
    MultipleIsZero(0, P);
  }

  lemma DelimiterRowFits(lab: int, tau: seq<int>, h: int)
    ensures RowFits(ScanRow(true, lab, DELIMITER, -1, 0, 1, 0, lab, h, 0, h), lab, h, tau)
  {
    MultipleIsZero(0, P);
  }

  /** The (t, x) of the token rows labelled e, in trace order. */
  function RowsOf(trace: seq<ScanRow>, e: int): seq<(int, int)> {
    if trace == [] then []
    else
      var row := trace[|trace| - 1];
      RowsOf(trace[..|trace| - 1], e) + if row.a == 1 && row.e == e then [(row.t, row.x)] else []
  }

  function PairsOf(rs: seq<Record>): (ps: seq<(int, int)>)
    ensures |ps| == |rs| && forall i :: 0 <= i < |rs| ==> ps[i] == (rs[i].t, rs[i].x)
  {
    seq(|rs|, i requires 0 <= i < |rs| => (rs[i].t, rs[i].x))
  }

  /** Expert by expert, the trace's token rows: the lane's below `done`, none elsewhere. */
  ghost predicate Sorts(trace: seq<ScanRow>, lane: seq<Record>, done: int) {
    forall e :: RowsOf(trace, e) == if 0 <= e < done then PairsOf(OfExpert(lane, e, |lane|)) else []
  }

  /** The delimiters so far are labelled below n and each emits its expert's sum. */
  ghost predicate Emits(trace: seq<ScanRow>, A: seq<int>, n: int) {
    forall q :: 0 <= q < |trace| && trace[q].d == 1 ==>
      0 <= trace[q].lab < n && (0 < trace[q].lab <= |A| ==> trace[q].emitted == A[trace[q].lab - 1])
  }

  lemma RowsSnoc(trace: seq<ScanRow>, row: ScanRow, e: int)
    ensures RowsOf(trace + [row], e) == RowsOf(trace, e) + if row.a == 1 && row.e == e then [(row.t, row.x)] else []
  {
    assert (trace + [row])[..|trace|] == trace;
  }

  lemma DelimiterSorts(trace: seq<ScanRow>, row: ScanRow, lane: seq<Record>, done: int)
    requires row.a == 0 && Sorts(trace, lane, done)
    ensures Sorts(trace + [row], lane, done)
  {
    hide RowsOf, OfExpert, PairsOf;
    forall e ensures RowsOf(trace + [row], e) == if 0 <= e < done then PairsOf(OfExpert(lane, e, |lane|)) else [] {
      RowsSnoc(trace, row, e);
    }
  }

  /** A whole segment appended: only expert e gained rows, and exactly these. */
  ghost predicate Gained(before: seq<ScanRow>, after: seq<ScanRow>, e: int, rs: seq<(int, int)>) {
    && (forall k :: k != e ==> RowsOf(after, k) == RowsOf(before, k)) && RowsOf(after, e) == RowsOf(before, e) + rs
    && |before| <= |after| && before == after[..|before|]
    && forall q :: |before| <= q < |after| ==> after[q].d == 0
  }

  lemma GainNothing(trace: seq<ScanRow>, e: int)
    ensures Gained(trace, trace, e, [])
  {
    hide RowsOf;
  }

  lemma GainOne(before: seq<ScanRow>, after: seq<ScanRow>, row: ScanRow, e: int, rs: seq<(int, int)>)
    requires Gained(before, after, e, rs) && row.a == 1 && row.d == 0 && row.e == e
    ensures Gained(before, after + [row], e, rs + [(row.t, row.x)])
  {
    hide RowsOf;
    forall k ensures k != e ==> RowsOf(after + [row], k) == RowsOf(before, k) { RowsSnoc(after, row, k); }
    RowsSnoc(after, row, e);
  }

  lemma SegmentSorts(before: seq<ScanRow>, after: seq<ScanRow>, lane: seq<Record>, e: int)
    requires Sorts(before, lane, e) && e >= 0 && Gained(before, after, e, PairsOf(OfExpert(lane, e, |lane|)))
    ensures Sorts(after, lane, e + 1)
  {
    hide RowsOf, OfExpert, PairsOf;
    forall k ensures RowsOf(after, k) == if 0 <= k < e + 1 then PairsOf(OfExpert(lane, k, |lane|)) else [] {}
  }

  lemma SegmentEmits(before: seq<ScanRow>, after: seq<ScanRow>, A: seq<int>, n: int, e: int, rs: seq<(int, int)>)
    requires Emits(before, A, n) && Gained(before, after, e, rs)
    ensures Emits(after, A, n)
  {
    forall q | 0 <= q < |after| && after[q].d == 1
      ensures 0 <= after[q].lab < n && (0 < after[q].lab <= |A| ==> after[q].emitted == A[after[q].lab - 1])
    {
      assert after[q] == before[q];
    }
  }

  lemma DelimiterEmits(trace: seq<ScanRow>, row: ScanRow, A: seq<int>, B: seq<int>, n: int)
    requires Emits(trace, A, n) && row.lab == n >= 0 && |A| == |B| && (0 < n <= |B| ==> row.emitted == B[n - 1])
    requires forall k :: 0 <= k < |A| && k != n - 1 ==> A[k] == B[k]
    ensures Emits(trace + [row], B, n + 1)
  {}

  lemma NothingBuilt(lane: seq<Record>, A: seq<int>)
    ensures Sorts([], lane, 0) && Emits([], A, 0)
  {}

  /** One expert's tokens. */
  method Segment(trace0: seq<ScanRow>, rs: seq<Record>, e: int, tau: seq<int>) returns (trace: seq<ScanRow>, h: int)
    requires Building(trace0, tau, e + 1, 0)
    requires forall i :: 0 <= i < |rs| ==> rs[i].e == e && ValidIndex(tau, rs[i].t)
    ensures Building(trace, tau, e + 1, h) && h == RecordSum(rs, e, tau, |rs|) % P
    ensures Gained(trace0, trace, e, PairsOf(rs))
  {
    hide RowFits, Building, Weigh, Index, Gained;
    trace, h := trace0, 0;
    GainNothing(trace, e);
    assert PairsOf(rs)[..0] == [];
    for i := 0 to |rs|
      invariant Building(trace, tau, e + 1, h) && h == RecordSum(rs, e, tau, i) % P
      invariant Gained(trace0, trace, e, PairsOf(rs)[..i])
    {
      var r := rs[i];
      var delta := Weigh(tau, r.t, r.x) % P;
      var hNew := (h + delta) % P;
      var row := ScanRow(false, -1, r.e, r.t, r.x, 0, 1, e + 1, h, hNew, 0);
      TokenRowFits(r, tau, e + 1, h);
      AppendFits(trace, row, tau, e + 1, h);
      ReducedSum(h, RecordSum(rs, e, tau, i), delta, Weigh(tau, r.t, r.x));
      GainOne(trace0, trace, row, e, PairsOf(rs)[..i]);
      assert PairsOf(rs)[..i + 1] == PairsOf(rs)[..i] + [(r.t, r.x)];
      trace := trace + [row];
      h := hNew;
    }
    assert PairsOf(rs)[..|rs|] == PairsOf(rs);
  }

  /** The lane's trace: it meets every constraint, its token rows are the lane's records expert by
      expert and in order, and A holds what the delimiters emit, the per-expert sums. */
  method BuildLane(lane: seq<Record>, E: nat, tau: seq<int>) returns (trace: seq<ScanRow>, A: seq<int>)
    requires forall i :: 0 <= i < |lane| && 0 <= lane[i].e < E ==> ValidIndex(tau, lane[i].t)
    ensures Accepted(trace, E, tau) && Sorts(trace, lane, E) && Emits(trace, A, E + 1)
    ensures |A| == E && forall e :: 0 <= e < E ==> A[e] == RecordSum(lane, e, tau, |lane|) % P
  {
    hide RowFits, Building, RecordSum, OfExpert, Sorts, Emits, Gained, PairsOf;
    var byExpert := GroupByExpert(lane);
    trace := [];
    BuildingStarts(tau);
    var sums := new int[E](_ => 0);
    var h, c := 0, 0;
    NothingBuilt(lane, sums[..]);
    for lab := 0 to E + 1
      invariant Sorts(trace, lane, if lab < E then lab else E) && Emits(trace, sums[..], lab)
      invariant c == lab && Building(trace, tau, c, h)
      invariant 0 < lab <= E ==> h == RecordSum(lane, lab - 1, tau, |lane|) % P
      invariant forall e :: 0 <= e < lab - 1 && e < E ==> sums[e] == RecordSum(lane, e, tau, |lane|) % P
    {
      var row := ScanRow(true, lab, DELIMITER, -1, 0, 1, 0, c, h, 0, h);
      DelimiterRowFits(lab, tau, h);
      AppendFits(trace, row, tau, c, h);
      DelimiterSorts(trace, row, lane, lab);
      ghost var before := sums[..];
      ghost var shorter := trace;
      trace := trace + [row];
      if lab > 0 {
        sums[lab - 1] := h;
      }
      DelimiterEmits(shorter, row, before, sums[..], lab);
      h := 0;
      c := c + 1;
      if lab < E {
        var rs := Get(byExpert, lab);
        ExpertSum(lane, lab, tau, |lane|);
        ExpertTokens(lane, lab, E, tau);
        ghost var flushed := trace;
        trace, h := Segment(trace, rs, lab, tau);
        SegmentSorts(flushed, trace, lane, lab);
        SegmentEmits(flushed, trace, sums[..], lab + 1, lab, PairsOf(rs));
      }
    }
    BuildingEnds(trace, E, tau, h);
    A := sums[..];
  }

  lemma BuildingStarts(tau: seq<int>)
    ensures Building([], tau, 0, 0)
  {}

  lemma BuildingEnds(trace: seq<ScanRow>, E: int, tau: seq<int>, h: int)
    requires Building(trace, tau, E + 1, h)
    ensures Accepted(trace, E, tau)
  {
    hide RowFits;
  }

  lemma ExpertTokens(lane: seq<Record>, e: int, E: nat, tau: seq<int>)
    requires 0 <= e < E && forall i :: 0 <= i < |lane| && 0 <= lane[i].e < E ==> ValidIndex(tau, lane[i].t)
    ensures var rs := OfExpert(lane, e, |lane|);
            forall i :: 0 <= i < |rs| ==> rs[i].e == e && ValidIndex(tau, rs[i].t)
  {
    var rs := OfExpert(lane, e, |lane|);
    forall i | 0 <= i < |rs| ensures rs[i].e == e && ValidIndex(tau, rs[i].t) {
      assert rs[i] in rs;
      assert rs[i] in lane;
    }
  }

  // ------------------------------------------------------------- segment sums

  /** sum over t < n with route[t] = e of tau[t] * X[t][j] */
  function SegmentSum(route: seq<int>, X: seq<seq<int>>, tau: seq<int>, e: int, j: nat, n: nat): int
    requires n <= |route| && n <= |X| && forall t :: 0 <= t < n ==> j < |X[t]|
  {
    if n == 0 then 0
    else SegmentSum(route, X, tau, e, j, n - 1) + if route[n - 1] == e then Weigh(tau, n - 1, X[n - 1][j]) else 0
  }

  ghost predicate SumsTo(A: seq<seq<int>>, route: seq<int>, X: seq<seq<int>>, tau: seq<int>, E: nat, d: nat, t: nat)
    requires t <= |route| && Sides(X, |route|, d)
  {
    && Sides(A, E, d)
    && forall e, j :: 0 <= e < E && 0 <= j < d ==> A[e][j] == SegmentSum(route, X, tau, e, j, t) % P
  }

  method SegmentSums(route: seq<int>, X: seq<seq<int>>, tau: seq<int>, E: nat) returns (A: seq<seq<int>>)
    requires X != [] && Sides(X, |route|, |X[0]|) && |tau| >= |route|
    requires forall t :: 0 <= t < |route| ==> 0 <= route[t] < E
    ensures SumsTo(A, route, X, tau, E, |X[0]|, |route|)
  {
    hide Weigh;
    var d := |X[0]|;
    A := seq(E, _ => seq(d, _ => 0));
    for t := 0 to |route|
      invariant SumsTo(A, route, X, tau, E, d, t)
    {
      var e0 := route[t];
      var row := A[e0];
      for j := 0 to d
        invariant |row| == d
        invariant forall i :: 0 <= i < j ==> row[i] == SegmentSum(route, X, tau, e0, i, t + 1) % P
        invariant forall i :: j <= i < d ==> row[i] == SegmentSum(route, X, tau, e0, i, t) % P
      {
        SumOne(SegmentSum(route, X, tau, e0, j, t), tau, t, X[t][j]);
        row := row[j := (row[j] + tau[t] * X[t][j]) % P];
      }
      SumsStep(A, row, route, X, tau, E, d, t);
      A := A[e0 := row];
    }
  }

  lemma SumOne(s: int, tau: seq<int>, t: nat, x: int)
    requires t < |tau|
    ensures (s % P + tau[t] * x) % P == (s + Weigh(tau, t, x)) % P
  {
    ModMod(s, P);
    ModAdd(s % P, s, tau[t] * x, tau[t] * x, P);
  }

  lemma SumsStep(A: seq<seq<int>>, row: seq<int>, route: seq<int>, X: seq<seq<int>>, tau: seq<int>, E: nat, d: nat, t: nat)
    requires t < |route| && Sides(X, |route|, d) && SumsTo(A, route, X, tau, E, d, t)
    requires 0 <= route[t] < E && |row| == d
    requires forall i :: 0 <= i < d ==> row[i] == SegmentSum(route, X, tau, route[t], i, t + 1) % P
    ensures SumsTo(A[route[t] := row], route, X, tau, E, d, t + 1)
  {
    hide Weigh;
    var B := A[route[t] := row];
    forall e, j | 0 <= e < E && 0 <= j < d ensures B[e][j] == SegmentSum(route, X, tau, e, j, t + 1) % P {
      if e != route[t] { assert B[e][j] == A[e][j]; }
    }
  }
}
