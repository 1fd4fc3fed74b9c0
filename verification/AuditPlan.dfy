/** The sampling plan of layergkr/sampled_audit.py. */
module AuditPlan {
  // How many blocks a window gives up, which ones, and that over all windows the sample is increasing,
  // complete and proportional.

  import opened NumberTheory
  import opened Sorting

  datatype AuditParams = AuditParams(totalBlocks: int, windowSize: int, samplePerWindow: int, rsColumns: int) {
    /** What validate lets through. */
    predicate Ok() {
      totalBlocks > 0 && windowSize > 0 && 0 < samplePerWindow <= windowSize && rsColumns > 0
    }
  }

  // ------------------------------------------------------------- how many blocks

  /** ceil(a / b) */
  function CeilDiv(a: nat, b: nat): nat
    requires b > 0
  {
    (a + b - 1) / b
  }

  /** min(len, ceil(sample_per_window * len / window_size)); none for a length it refuses. */
  function SampleCount(p: AuditParams, len: int): (k: int)
    requires p.Ok()
    ensures 0 < len <= p.windowSize ==> 0 <= k <= len
  {
    if len <= 0 || len > p.windowSize then -1
    else
      MulNonnegative(p.samplePerWindow, len);
      var c := CeilDiv(p.samplePerWindow * len, p.windowSize);
      if c < len then c else len
  }

  lemma MulNonnegative(a: int, b: int)
    requires a >= 0 && b >= 0
    ensures a * b >= 0
  {}

  /** The least count whose share of the window is at least sample_per_window / window_size;
      a full window gives exactly sample_per_window. */
  lemma SampleCountExact(p: AuditParams, len: int)
    requires p.Ok() && 0 < len <= p.windowSize
    ensures var k := SampleCount(p, len);
      0 < k <= len && (k - 1) * p.windowSize < p.samplePerWindow * len <= k * p.windowSize
    ensures len == p.windowSize ==> SampleCount(p, len) == p.samplePerWindow
  {
    var s, ws := p.samplePerWindow, p.windowSize;
    MulNonnegative(s, len);
    var a := s * len;
    CeilBounds(a, ws);
    var c := CeilDiv(a, ws);
    MulMonotone(s, ws, len, len);
    assert a <= ws * len == len * ws;
    assert a > 0 by { MulMonotone(1, s, len, len); }
    if c > len {
      MulMonotone(len, c - 1, ws, ws);
    }
    if len == ws { FullWindow(s, ws, c); }
  }

  lemma CeilBounds(a: nat, b: nat)
    requires b > 0
    ensures var c := CeilDiv(a, b); (c - 1) * b < a <= c * b && (a > 0 ==> c > 0)
  {
    var c := CeilDiv(a, b);
    assert a + b - 1 == b * c + (a + b - 1) % b;
    assert b * c == c * b && (c - 1) * b == c * b - b;
  }

  lemma FullWindow(s: nat, ws: nat, c: nat)
    requires ws > 0 && (c - 1) * ws < s * ws <= c * ws
    ensures c == s
  {
    if c < s { MulMonotone(c, s, ws, ws); MulMonotone(c + 1, s, ws, ws); }
    if c > s { MulMonotone(s, c - 1, ws, ws); }
  }

  /** selected_blocks */
  function SelectedBlocks(p: AuditParams, total: nat): int
    requires p.Ok()
  {
    var full, tail := total / p.windowSize, total % p.windowSize;
    full * p.samplePerWindow + if tail > 0 then SampleCount(p, tail) else 0
  }

  // ---------------------------------------------------------------- which blocks

  /** A digest, as the number its bytes order by, and the block it is for. */
  datatype Tagged = Tagged(tag: nat, index: nat)

  predicate Earlier(a: Tagged, b: Tagged) {
    a.tag < b.tag || (a.tag == b.tag && a.index < b.index)
  }

  predicate Under(a: nat, b: nat) { a < b }

  function Tags(tag: nat -> nat, start: nat, n: nat): (ts: seq<Tagged>)
    ensures |ts| == n && forall j :: 0 <= j < n ==> ts[j] == Tagged(tag(j), start + j)
  {
    seq(n, j requires 0 <= j < n => Tagged(tag(j), start + j))
  }

  function Indices(ts: seq<Tagged>): (s: seq<nat>)
    ensures |s| == |ts| && forall i :: 0 <= i < |ts| ==> s[i] == ts[i].index
  {
    seq(|ts|, i requires 0 <= i < |ts| => ts[i].index)
  }

  /** sorted(index for _, index in sorted(tagged)[:k]) */
  function Chosen(tag: nat -> nat, start: nat, n: nat, k: nat): (s: seq<nat>)
    requires k <= n
    ensures |s| == k
  {
    SortBy(Under, Indices(SortBy(Earlier, Tags(tag, start, n))[..k]))
  }

  ghost predicate Increasing(s: seq<nat>) {
    forall i, k :: 0 <= i < k < |s| ==> s[i] < s[k]
  }

  ghost predicate Within(s: seq<nat>, lo: nat, hi: nat) {
    forall i :: 0 <= i < |s| ==> lo <= s[i] < hi
  }

  lemma EarlierIsOrder()
    ensures WeakOrder(Earlier) && WeakOrder(Under)
  {}

  lemma TagsOnce(tag: nat -> nat, start: nat, n: nat)
    ensures Once(Tags(tag, start, n))
  {}

  /** A tag of this window. */
  ghost predicate OfWindow(t: Tagged, tag: nat -> nat, start: nat, n: nat) {
    start <= t.index < start + n && t.tag == tag(t.index - start)
  }

  lemma SameMembers<T>(s: seq<T>, t: seq<T>)
    requires multiset(s) == multiset(t)
    ensures forall x :: x in s <==> x in t
  {
    forall x ensures x in s <==> x in t {
      assert x in s <==> x in multiset(s);
      assert x in t <==> x in multiset(t);
    }
  }

  lemma TagMembers(tag: nat -> nat, start: nat, n: nat, l: seq<Tagged>)
    requires forall x :: x in Tags(tag, start, n) <==> x in l
    ensures forall x :: x in l <==> OfWindow(x, tag, start, n)
  {
    var ts := Tags(tag, start, n);
    forall x: Tagged | OfWindow(x, tag, start, n) ensures x in ts { assert ts[x.index - start] == x; }
  }

  lemma IndicesOnce(l: seq<Tagged>, tag: nat -> nat, start: nat, n: nat)
    requires Once(l) && forall x :: x in l <==> OfWindow(x, tag, start, n)
    ensures Once(Indices(l))
  {
    forall i, k | 0 <= i < k < |l| ensures Indices(l)[i] != Indices(l)[k] {
      assert l[i] != l[k] && l[i] in l && l[k] in l;
    }
  }

  /** The window's tags in order. */
  ghost predicate InTagOrder(l: seq<Tagged>, tag: nat -> nat, start: nat, n: nat) {
    |l| == n && Once(Indices(l)) && Ascending(Earlier, l) && forall x :: x in l <==> OfWindow(x, tag, start, n)
  }

  lemma OrderedTags(tag: nat -> nat, start: nat, n: nat)
    ensures InTagOrder(SortBy(Earlier, Tags(tag, start, n)), tag, start, n)
  {
    var ts := Tags(tag, start, n);
    var l := SortBy(Earlier, ts);
    assert |l| == n;
    hide SortBy, Tags, Indices, WeakOrder, Ascending, Once, Earlier, Under, OfWindow;
    EarlierIsOrder();
    SortedIs(Earlier, ts);
    TagsOnce(tag, start, n);
    OncePermutes(ts, l);
    SameMembers(ts, l);
    TagMembers(tag, start, n, l);
    IndicesOnce(l, tag, start, n);
  }

  /** Whoever is picked comes before whoever is not. */
  ghost predicate Best(s: seq<nat>, tag: nat -> nat, start: nat, n: nat) {
    forall i, u :: 0 <= i < |s| && start <= s[i] < start + n && start <= u < start + n && u !in s
      ==> Earlier(Tagged(tag(s[i] - start), s[i]), Tagged(tag(u - start), u))
  }

  lemma IncreasingIs(s: seq<nat>)
    requires Once(s) && Ascending(Under, s)
    ensures Increasing(s)
  {}

  lemma FirstOnce(l: seq<Tagged>, k: nat)
    requires k <= |l| && Once(Indices(l))
    ensures Once(Indices(l[..k]))
  {
    assert Indices(l[..k]) == Indices(l)[..k];
  }

  lemma FirstAreBest(l: seq<Tagged>, tag: nat -> nat, start: nat, n: nat, k: nat, s: seq<nat>)
    requires InTagOrder(l, tag, start, n) && k <= n && forall x :: x in Indices(l[..k]) <==> x in s
    ensures Within(s, start, start + n) && Best(s, tag, start, n)
  {
    var picked := Indices(l[..k]);
    forall b | 0 <= b < k ensures l[b].index in s { assert picked[b] == l[b].index; }
    forall i | 0 <= i < |s| ensures start <= s[i] < start + n {
      assert s[i] in s;
      var a :| 0 <= a < k && picked[a] == s[i];
      assert l[a] in l;
    }
    forall i, u | 0 <= i < |s| && start <= s[i] < start + n && start <= u < start + n && u !in s
      ensures Earlier(Tagged(tag(s[i] - start), s[i]), Tagged(tag(u - start), u))
    {
      assert s[i] in s;
      var a :| 0 <= a < k && picked[a] == s[i];
      PickedFirst(l, tag, start, n, k, a, s, u);
    }
  }

  lemma PickedFirst(l: seq<Tagged>, tag: nat -> nat, start: nat, n: nat, k: nat, a: nat, s: seq<nat>, u: nat)
    requires InTagOrder(l, tag, start, n) && a < k <= n && forall b :: 0 <= b < k ==> l[b].index in s
    requires start <= u < start + n && u !in s
    ensures start <= l[a].index && Earlier(Tagged(tag(l[a].index - start), l[a].index), Tagged(tag(u - start), u))
  {
    hide Once;
    var t := Tagged(tag(u - start), u);
    assert OfWindow(t, tag, start, n) && l[a] in l;
    var b :| 0 <= b < n && l[b] == t;
    assert !Earlier(l[b], l[a]);
  }

  /** The k smallest tags win, ties going to the lower index, and come out in block order. */
  lemma ChosenExact(tag: nat -> nat, start: nat, n: nat, k: nat)
    requires k <= n
    ensures var s := Chosen(tag, start, n, k);
      |s| == k && Increasing(s) && Within(s, start, start + n) && Best(s, tag, start, n)
  {
    OrderedTags(tag, start, n);
    var l := SortBy(Earlier, Tags(tag, start, n));
    var picked := Indices(l[..k]);
    var s := Chosen(tag, start, n, k);
    assert s == SortBy(Under, picked);
    assert Once(Indices(l)) && |l| == n;
    hide *;
    FirstOnce(l, k);
    EarlierIsOrder();
    SortedIs(Under, picked);
    OncePermutes(picked, s);
    SameMembers(picked, s);
    IncreasingIs(s);
    FirstAreBest(l, tag, start, n, k, s);
  }

  /** One choice and no other: an increasing list of k blocks that all come before the rest. */
  lemma ChosenUnique(tag: nat -> nat, start: nat, n: nat, a: seq<nat>, b: seq<nat>)
    requires |a| == |b| && Increasing(a) && Increasing(b) && Within(a, start, start + n) && Within(b, start, start + n)
    requires Best(a, tag, start, n) && Best(b, tag, start, n)
    ensures a == b
  {
    hide Increasing;
    if exists i :: 0 <= i < |a| && a[i] !in b {
      var i :| 0 <= i < |a| && a[i] !in b;
      var j := MissingToo(a, b, i);
      assert false;
    }
    hide Best, Within;
    forall i | 0 <= i < |a| ensures a[i] in b {}
    SameIncreasing(a, b);
  }

  /** Lists of one length: what one has and the other lacks is matched the other way. */
  lemma MissingToo(a: seq<nat>, b: seq<nat>, i: nat) returns (j: nat)
    requires |a| == |b| && Increasing(a) && Increasing(b) && i < |a| && a[i] !in b
    ensures j < |b| && b[j] !in a
  {
    assert NoDuplicates(a) && NoDuplicates(b);
    NoDuplicatesSize(a);
    NoDuplicatesSize(b);
    hide Increasing;
    assert a[i] in Elements(a) && a[i] !in Elements(b);
    if Elements(b) <= Elements(a) {
      SubsetSameSize(Elements(b), Elements(a));
      assert false;
    }
    var x :| x in Elements(b) && x !in Elements(a);
    j :| 0 <= j < |b| && b[j] == x;
  }

  lemma {:induction false} SameIncreasing(a: seq<nat>, b: seq<nat>)
    requires |a| == |b| && Increasing(a) && Increasing(b) && forall i :: 0 <= i < |a| ==> a[i] in b
    ensures a == b
  {
    if a != [] {
      var n := |a| - 1;
      var j :| 0 <= j < |b| && b[j] == a[n];
      if exists i :: 0 <= i < n && a[i] == b[n] { assert false; }
      forall i | 0 <= i < n ensures a[..n][i] in b[..n] {
        var k :| 0 <= k < |b| && b[k] == a[i];
        assert k != n;
        assert b[..n][k] == a[i];
      }
      SameIncreasing(a[..n], b[..n]);
    }
  }

  /** _window_selection: of the window's blocks, in order, the k that come first by tag and index. */
  method WindowSelection(tag: nat -> nat, start: nat, n: nat, p: AuditParams) returns (sel: seq<nat>)
    requires p.Ok() && 0 < n <= p.windowSize
    ensures |sel| == SampleCount(p, n) && Increasing(sel) && Within(sel, start, start + n) && Best(sel, tag, start, n)
    ensures forall s :: |s| == |sel| && Increasing(s) && Within(s, start, start + n) && Best(s, tag, start, n) ==> s == sel
    ensures sel == Chosen(tag, start, n, SampleCount(p, n))
  {
    hide Increasing, Within, Best;
    var k := SampleCount(p, n);
    ChosenExact(tag, start, n, k);
    sel := SortBy(Under, Indices(SortBy(Earlier, Tags(tag, start, n))[..k]));
    forall s | |s| == |sel| && Increasing(s) && Within(s, start, start + n) && Best(s, tag, start, n) ensures s == sel {
      ChosenUnique(tag, start, n, s, sel);
    }
  }

  // ----------------------------------------------------------------- all windows

  /** The tags of window w. */
  type Tagger = nat -> (nat -> nat)

  function WindowLength(p: AuditParams, start: nat): (n: nat)
    requires p.Ok() && start < p.totalBlocks
    ensures 0 < n <= p.windowSize && start + n <= p.totalBlocks
  {
    if start + p.windowSize <= p.totalBlocks then p.windowSize else p.totalBlocks - start
  }

  function NextStart(p: AuditParams, start: nat): (n: nat)
    requires p.Ok()
    ensures n == start + p.windowSize > start
  {
    start + p.windowSize
  }

  /** What window w, starting at a block there is, gives up. */
  function Picked(p: AuditParams, tags: Tagger, w: nat, start: nat): seq<nat>
    requires p.Ok() && start < p.totalBlocks
  {
    var n := WindowLength(p, start);
    Chosen(tags(w), start, n, SampleCount(p, n))
  }

  /** The selection from block `start` (the first of window w) on, window after window. */
  function SelectFrom(p: AuditParams, tags: Tagger, w: nat, start: nat): seq<nat>
    requires p.Ok()
    decreases p.totalBlocks - start
  {
    if start >= p.totalBlocks then []
    else Picked(p, tags, w, start) + SelectFrom(p, tags, w + 1, NextStart(p, start))
  }

  /** A window's blocks, in order, with the smallest tags, sample_count of them: at least
      sample_per_window for every window_size. */
  lemma PickedExact(p: AuditParams, tags: Tagger, w: nat, start: nat)
    requires p.Ok() && start < p.totalBlocks
    ensures var s := Picked(p, tags, w, start); var n := WindowLength(p, start);
      && Increasing(s) && Within(s, start, start + n) && Best(s, tags(w), start, n)
      && |s| == SampleCount(p, n) && p.samplePerWindow * n <= |s| * p.windowSize
  {
    var n := WindowLength(p, start);
    SampleCountExact(p, n);
    ChosenExact(tags(w), start, n, SampleCount(p, n));
    hide Increasing, Within, Best, SampleCount, Chosen;
  }

  lemma CountStep(p: AuditParams, total: nat)
    requires p.Ok() && total >= p.windowSize
    ensures SelectedBlocks(p, total) == p.samplePerWindow + SelectedBlocks(p, total - p.windowSize)
  {
    var ws, t := p.windowSize, total - p.windowSize;
    QuotientUnique(total, ws, t / ws + 1, t % ws);
    assert t == ws * (t / ws) + t % ws;
    assert (t / ws + 1) * p.samplePerWindow == (t / ws) * p.samplePerWindow + p.samplePerWindow;
  }

  /** The whole sample: strictly increasing, inside the blocks, exactly selected_blocks of them. */
  lemma {:induction false} SelectionTotals(p: AuditParams, tags: Tagger, w: nat, start: nat)
    requires p.Ok() && start <= p.totalBlocks
    ensures Increasing(SelectFrom(p, tags, w, start)) && Within(SelectFrom(p, tags, w, start), start, p.totalBlocks)
    ensures |SelectFrom(p, tags, w, start)| == SelectedBlocks(p, p.totalBlocks - start)
    decreases p.totalBlocks - start
  {
    hide Picked, SampleCount, Increasing, Within, Best, SelectedBlocks, WindowLength, SelectFrom;
    SelectionEnds(p, tags, w, start);
    if start == p.totalBlocks {
      NoneLeft(p);
    } else {
      SelectUnfold(p, tags, w, start);
      var next := NextStart(p, start);
      if next <= p.totalBlocks {
        SelectionTotals(p, tags, w + 1, next);
        FullWindowCounts(p, tags, w, start);
      } else {
        SelectionEnds(p, tags, w + 1, next);
        TailCounts(p, tags, w, start);
      }
    }
  }

  lemma SelectionEnds(p: AuditParams, tags: Tagger, w: nat, start: nat)
    requires p.Ok()
    ensures start >= p.totalBlocks ==> SelectFrom(p, tags, w, start) == []
    ensures Increasing([]) && Within([], start, p.totalBlocks)
  {}

  lemma FullWindowCounts(p: AuditParams, tags: Tagger, w: nat, start: nat)
    requires p.Ok() && NextStart(p, start) <= p.totalBlocks
    requires Increasing(SelectFrom(p, tags, w + 1, NextStart(p, start)))
    requires Within(SelectFrom(p, tags, w + 1, NextStart(p, start)), NextStart(p, start), p.totalBlocks)
    requires |SelectFrom(p, tags, w + 1, NextStart(p, start))| == SelectedBlocks(p, p.totalBlocks - NextStart(p, start))
    ensures var s := Picked(p, tags, w, start) + SelectFrom(p, tags, w + 1, NextStart(p, start));
      Increasing(s) && Within(s, start, p.totalBlocks) && |s| == SelectedBlocks(p, p.totalBlocks - start)
  {
    hide Picked, SampleCount, Increasing, Within, Best, SelectedBlocks, SelectFrom;
    PickedExact(p, tags, w, start);
    SampleCountExact(p, WindowLength(p, start));
    CountStep(p, p.totalBlocks - start);
    Joined(Picked(p, tags, w, start), SelectFrom(p, tags, w + 1, NextStart(p, start)), start, NextStart(p, start), p.totalBlocks);
  }

  lemma TailCounts(p: AuditParams, tags: Tagger, w: nat, start: nat)
    requires p.Ok() && start < p.totalBlocks < NextStart(p, start)
    ensures var s := Picked(p, tags, w, start) + [];
      Increasing(s) && Within(s, start, p.totalBlocks) && |s| == SelectedBlocks(p, p.totalBlocks - start)
  {
    hide Picked, SampleCount, Increasing, Within, Best, SelectedBlocks;
    PickedExact(p, tags, w, start);
    assert Picked(p, tags, w, start) + [] == Picked(p, tags, w, start);
    OneTail(p, WindowLength(p, start));
  }

  lemma NoneLeft(p: AuditParams)
    requires p.Ok()
    ensures SelectedBlocks(p, 0) == 0
  {
    QuotientUnique(0, p.windowSize, 0, 0);
  }

  lemma OneTail(p: AuditParams, left: nat)
    requires p.Ok() && 0 < left < p.windowSize
    ensures SelectedBlocks(p, left) == SampleCount(p, left)
  {
    QuotientUnique(left, p.windowSize, 0, left);
  }

  lemma Joined(a: seq<nat>, b: seq<nat>, lo: nat, mid: nat, hi: nat)
    requires Increasing(a) && Increasing(b) && Within(a, lo, mid) && Within(b, mid, hi) && lo <= mid <= hi
    ensures Increasing(a + b) && Within(a + b, lo, hi)
  {
    WithinBoth(a, b, lo, mid, hi);
  }

  lemma WithinBoth(a: seq<nat>, b: seq<nat>, lo: nat, mid: nat, hi: nat)
    requires Within(a, lo, mid) && Within(b, mid, hi) && lo <= mid <= hi
    ensures Within(a + b, lo, hi)
  {
    forall i | 0 <= i < |a + b| ensures lo <= (a + b)[i] < hi {
      if i >= |a| { assert (a + b)[i] == b[i - |a|]; }
    }
  }

  /** Where window v starts, window w starting at `start`. */
  function StartOf(p: AuditParams, w: nat, start: nat, v: nat): (from: nat)
    requires p.Ok()
    ensures from >= start
    decreases v - w
  {
    if v <= w then start else StartOf(p, w + 1, NextStart(p, start), v)
  }

  lemma {:induction false} StartExact(p: AuditParams, w: nat, start: nat, v: nat)
    requires p.Ok() && v >= w
    ensures StartOf(p, w, start, v) == start + (v - w) * p.windowSize
    decreases v - w
  {
    if v > w {
      StartExact(p, w + 1, NextStart(p, start), v);
      assert (v - w) * p.windowSize == (v - w - 1) * p.windowSize + p.windowSize;
    }
  }

  /** The sample from window w on is what comes before window v, what v picks, and what comes after. */
  ghost predicate Splits(p: AuditParams, tags: Tagger, w: nat, start: nat, v: nat, before: seq<nat>, after: seq<nat>)
    requires p.Ok()
  {
    var from := StartOf(p, w, start, v);
    && from < p.totalBlocks && SelectFrom(p, tags, w, start) == before + Picked(p, tags, v, from) + after
    && Within(before, start, from) && Within(after, from + WindowLength(p, from), p.totalBlocks)
  }

  lemma SplitsHere(p: AuditParams, tags: Tagger, w: nat, start: nat)
    requires p.Ok() && start < p.totalBlocks
    ensures Splits(p, tags, w, start, w, [], SelectFrom(p, tags, w + 1, NextStart(p, start)))
  {
    hide Picked, SelectFrom, Within;
    SelectUnfold(p, tags, w, start);
    LaterSelection(p, tags, w + 1, NextStart(p, start), start + WindowLength(p, start));
    Nothing(start);
    assert [] + Picked(p, tags, w, start) == Picked(p, tags, w, start);
  }

  lemma SplitsLater(p: AuditParams, tags: Tagger, w: nat, start: nat, v: nat, mid: seq<nat>, after: seq<nat>)
    requires p.Ok() && v > w && start < p.totalBlocks && Splits(p, tags, w + 1, NextStart(p, start), v, mid, after)
    ensures Splits(p, tags, w, start, v, Picked(p, tags, w, start) + mid, after)
  {
    var next, from, n := NextStart(p, start), StartOf(p, w, start, v), WindowLength(p, start);
    assert from == StartOf(p, w + 1, next, v);
    hide Picked, SelectFrom, Within, StartOf, SampleCount, Best, Increasing;
    PickedExact(p, tags, w, start);
    SelectUnfold(p, tags, w, start);
    assert n == next - start;
    WithinBoth(Picked(p, tags, w, start), mid, start, next, from);
    FourParts(Picked(p, tags, w, start), mid, Picked(p, tags, v, from), after);
  }

  /** The sample splits at every window, the tail included. */
  lemma {:induction false} WindowShare(p: AuditParams, tags: Tagger, w: nat, start: nat, v: nat)
    returns (before: seq<nat>, after: seq<nat>)
    requires p.Ok() && v >= w && StartOf(p, w, start, v) < p.totalBlocks
    ensures Splits(p, tags, w, start, v, before, after)
    decreases v - w
  {
    hide Picked, SelectFrom, Within, Splits;
    var next := NextStart(p, start);
    if v == w {
      before, after := [], SelectFrom(p, tags, w + 1, next);
      SplitsHere(p, tags, w, start);
    } else {
      var mid;
      mid, after := WindowShare(p, tags, w + 1, next, v);
      before := Picked(p, tags, w, start) + mid;
      SplitsLater(p, tags, w, start, v, mid, after);
    }
  }

  lemma SelectUnfold(p: AuditParams, tags: Tagger, w: nat, start: nat)
    requires p.Ok() && start < p.totalBlocks
    ensures SelectFrom(p, tags, w, start) == Picked(p, tags, w, start) + SelectFrom(p, tags, w + 1, NextStart(p, start))
    ensures WindowLength(p, start) == NextStart(p, start) - start || NextStart(p, start) > p.totalBlocks
    ensures start + WindowLength(p, start) <= NextStart(p, start)
  {
    hide Picked;
  }

  lemma LaterSelection(p: AuditParams, tags: Tagger, w: nat, next: nat, lo: nat)
    requires p.Ok() && lo <= next
    ensures Within(SelectFrom(p, tags, w, next), lo, p.totalBlocks)
  {
    if next <= p.totalBlocks { SelectionTotals(p, tags, w, next); }
  }

  lemma Nothing(lo: nat)
    ensures Within([], lo, lo)
  {}

  lemma FourParts<T>(a: seq<T>, b: seq<T>, c: seq<T>, d: seq<T>)
    ensures a + (b + c + d) == a + b + c + d
  {}
}
