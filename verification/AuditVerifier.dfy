/** verify of layergkr/sampled_audit.py: the manifest, the sample, and every selected block's
    openings and local argument. */
module AuditVerifier {
  import opened NumberTheory
  import opened Field
  import opened Polynomial
  import opened Domain
  import opened Rows
  import opened Rs
  import opened Merkle
  import opened Commit
  import opened Seam
  import opened Prover
  import opened AuditRelation
  import opened AuditPlan
  import opened AuditLocal
  import opened AuditBlocks

  datatype WireRecord = WireRecord(id: string, root: Bytes, widths: seq<nat>)

  datatype WireOpening = WireOpening(id: string, messages: Matrix, columns: seq<int>, values: Matrix,
                                     paths: seq<Path<Bytes>>, c0Path: Path<Bytes>)

  datatype Selected = Selected(index: nat, challenge: Bytes, local: Local, openings: map<string, WireOpening>, digest: Bytes)

  datatype AuditProof = AuditProof(digest: Bytes, c0Root: Bytes, records: seq<WireRecord>, blockComs: seq<Bytes>,
                                   selected: seq<Selected>)

  /** BLAKE3 in each of its uses, the verifier's secret included where it is keyed with it, and
      sample_columns as a function of its seed. */
  datatype Oracles = Oracles(
    h: Hash<Bytes>, node: (Bytes, Bytes) -> Bytes, empty: Bytes, wireLeaf: WireRecord -> Bytes,
    block: (nat, Descriptor, map<string, Bytes>) -> Bytes, statement: Statement -> Bytes, c0: (Bytes, Bytes) -> Bytes,
    select: (Bytes, nat, Bytes, nat) -> nat, challenge: (Bytes, Bytes, nat) -> Bytes,
    local: (nat, Bytes, Local, map<string, Wire>) -> Bytes, columnSeed: (Bytes, nat, Bytes) -> Bytes,
    columns: Bytes -> seq<int>, field: (Bytes, string, nat) -> int, rounds: RoundOracle)

  /** Every seed gives q different columns in range. */
  ghost predicate GoodColumns(o: Oracles, q: int, n: nat) {
    forall seed :: |o.columns(seed)| == q && NoDuplicates(o.columns(seed)) && forall k :: 0 <= k < q ==> 0 <= o.columns(seed)[k] < n
  }

  // ------------------------------------------------------------- roots and records

  /** _tree(leaves)[-1][0] */
  function RootOr(o: Oracles, leaves: seq<Bytes>): Bytes {
    if leaves == [] then o.empty else TreeRoot(o.node, leaves)
  }

  method AuditRoot(o: Oracles, leaves: seq<Bytes>) returns (root: Bytes)
    ensures root == RootOr(o, leaves)
  {
    if leaves == [] {
      return o.empty;
    }
    var levels := BuildTree(o.node, leaves);
    RootIsLast(o.node, leaves);
    root := levels[|levels| - 1][0];
  }

  function WireLeaves(o: Oracles, records: seq<WireRecord>): (leaves: seq<Bytes>)
    ensures |leaves| == |records| && forall k :: 0 <= k < |records| ==> leaves[k] == o.wireLeaf(records[k])
  {
    seq(|records|, k requires 0 <= k < |records| => o.wireLeaf(records[k]))
  }

  function WireRoot(o: Oracles, records: seq<WireRecord>): Bytes { RootOr(o, WireLeaves(o, records)) }

  function Ids(records: seq<WireRecord>): (ids: seq<string>)
    ensures |ids| == |records| && forall k :: 0 <= k < |ids| ==> ids[k] == records[k].id
  {
    seq(|records|, k requires 0 <= k < |records| => records[k].id)
  }

  /** {r.wire_id: r} */
  function RecordMap(records: seq<WireRecord>): map<string, WireRecord> {
    if records == [] then map[]
    else
      var n := |records| - 1;
      RecordMap(records[..n])[records[n].id := records[n]]
  }

  lemma {:induction false} RecordMapIs(records: seq<WireRecord>)
    requires forall i, k :: 0 <= i < k < |records| ==> records[i].id != records[k].id
    ensures forall k :: 0 <= k < |records| ==> records[k].id in RecordMap(records) && RecordMap(records)[records[k].id] == records[k]
    ensures forall id <- RecordMap(records) :: id in Ids(records) && RecordMap(records)[id].id == id
  {
    if records != [] {
      var n := |records| - 1;
      RecordMapIs(records[..n]);
      forall k | 0 <= k < |records|
        ensures records[k].id in RecordMap(records) && RecordMap(records)[records[k].id] == records[k]
      {
        if k < n { assert records[..n][k] == records[k]; }
      }
      forall id | id in RecordMap(records) ensures id in Ids(records) {
        if id in RecordMap(records[..n]) {
          var k :| 0 <= k < n && Ids(records[..n])[k] == id;
          assert Ids(records)[k] == id;
        } else {
          assert Ids(records)[n] == id;
        }
      }
    }
  }

  /** The roots of a block's wires, by role. */
  function RootsFrom(schemas: seq<RoleSchema>, records: map<string, WireRecord>): map<string, Bytes> {
    if schemas == [] then map[]
    else
      var n := |schemas| - 1;
      var id := schemas[n].id;
      RootsFrom(schemas[..n], records)[schemas[n].role := if id in records then records[id].root else []]
  }

  // ---------------------------------------------------------------- the sample

  function Slice(s: seq<Bytes>, lo: nat, n: nat): seq<Bytes> {
    if lo >= |s| then [] else if lo + n <= |s| then s[lo..lo + n] else s[lo..]
  }

  /** The root over the block commitments of window w. */
  function WindowRoot(o: Oracles, coms: seq<Bytes>, p: AuditParams, w: nat): Bytes
    requires p.Ok()
  {
    RootOr(o, Slice(coms, Base(w, p.windowSize), p.windowSize))
  }

  function TagOf(o: Oracles, digest: Bytes, w: nat, root: Bytes): nat -> nat {
    (j: nat) => o.select(digest, w, root, j)
  }

  function TagsOf(o: Oracles, digest: Bytes, coms: seq<Bytes>, p: AuditParams): Tagger
    requires p.Ok()
  {
    (w: nat) => TagOf(o, digest, w, WindowRoot(o, coms, p, w))
  }

  function Sample(o: Oracles, digest: Bytes, coms: seq<Bytes>, p: AuditParams): seq<nat>
    requires p.Ok()
  {
    SelectFrom(p, TagsOf(o, digest, coms, p), 0, 0)
  }

  lemma SampleStep(o: Oracles, digest: Bytes, coms: seq<Bytes>, p: AuditParams, w: nat, start: nat)
    requires p.Ok() && |coms| == p.totalBlocks && start == Base(w, p.windowSize) && start < p.totalBlocks
    ensures var n := WindowLength(p, start); var tags := TagsOf(o, digest, coms, p);
      && |Slice(coms, start, p.windowSize)| == n
      && SelectFrom(p, tags, w, start)
         == Chosen(TagOf(o, digest, w, RootOr(o, Slice(coms, start, p.windowSize))), start, n, SampleCount(p, n))
            + SelectFrom(p, tags, w + 1, start + p.windowSize)
      && start + p.windowSize == Base(w + 1, p.windowSize)
  {
    hide Chosen, SampleCount, RootOr;
    BaseNext(w, p.windowSize);
  }

  /** Window after window, from the commitments alone. */
  method ExpectedSample(o: Oracles, digest: Bytes, coms: seq<Bytes>, p: AuditParams) returns (sel: seq<nat>)
    requires p.Ok() && |coms| == p.totalBlocks
    ensures sel == Sample(o, digest, coms, p)
  {
    hide Chosen, SampleCount, SelectFrom, WindowLength, TagsOf, Slice, RootOr, Base;
    sel := [];
    var w, start := 0, 0;
    ghost var tags := TagsOf(o, digest, coms, p);
    BaseNext(0, p.windowSize);
    while start < p.totalBlocks
      invariant start == Base(w, p.windowSize) && sel + SelectFrom(p, tags, w, start) == SelectFrom(p, tags, 0, 0)
      decreases p.totalBlocks - start
    {
      SampleStep(o, digest, coms, p, w, start);
      var window := Slice(coms, start, p.windowSize);
      var root := AuditRoot(o, window);
      var here := WindowSelection(TagOf(o, digest, w, root), start, |window|, p);
      sel := sel + here;
      w, start := w + 1, start + p.windowSize;
    }
    SelectionEnds(p, tags, w, start);
  }

  // ----------------------------------------------------- what the sample hangs on

  /** Of a window's blocks, in order, those that come first by the secret's value for the root over the
      window's own commitments, ties going to the lower block. */
  ghost predicate WindowPicks(o: Oracles, digest: Bytes, w: nat, start: nat, window: seq<Bytes>, p: AuditParams, here: seq<nat>)
    requires p.Ok() && 0 < |window| <= p.windowSize
  {
    var r, n := TreeRoot(o.node, window), |window|;
    && |here| == SampleCount(p, n)
    && (forall i :: 0 <= i < |here| ==> start <= here[i] < start + n)
    && (forall i, k :: 0 <= i < k < |here| ==> here[i] < here[k])
    && forall i, u: nat :: 0 <= i < |here| && start <= u < start + n && u !in here ==>
         || o.select(digest, w, r, here[i] - start) < o.select(digest, w, r, u - start)
         || (o.select(digest, w, r, here[i] - start) == o.select(digest, w, r, u - start) && here[i] < u)
  }

  /** Window w's share of a list of blocks, between what is earlier and what is later. */
  ghost predicate WindowSampled(o: Oracles, digest: Bytes, coms: seq<Bytes>, p: AuditParams, sel: seq<nat>, w: nat)
    requires p.Ok() && |coms| == p.totalBlocks
  {
    var start := w * p.windowSize;
    start >= 0 && (start < |coms| ==>
      var n := if start + p.windowSize <= |coms| then p.windowSize else |coms| - start;
      exists before, here, after :: IsShare(sel, start, n, before, here, after)
                                    && WindowPicks(o, digest, w, start, coms[start..start + n], p, here))
  }

  ghost predicate IsShare(sel: seq<nat>, start: nat, n: nat, before: seq<nat>, here: seq<nat>, after: seq<nat>) {
    && sel == before + here + after && (forall i :: 0 <= i < |before| ==> before[i] < start)
    && forall i :: 0 <= i < |after| ==> after[i] >= start + n
  }

  /** In every window, the blocks the window's own commitments decide. */
  ghost predicate SampledByRoots(o: Oracles, digest: Bytes, coms: seq<Bytes>, p: AuditParams, sel: seq<nat>)
    requires p.Ok() && |coms| == p.totalBlocks
  {
    forall w: nat :: WindowSampled(o, digest, coms, p, sel, w)
  }

  lemma SampleIsByRoots(o: Oracles, digest: Bytes, coms: seq<Bytes>, p: AuditParams)
    requires p.Ok() && |coms| == p.totalBlocks
    ensures SampledByRoots(o, digest, coms, p, Sample(o, digest, coms, p))
  {
    hide WindowSampled, Sample, TreeRoot, SampleCount;
    forall w: nat ensures WindowSampled(o, digest, coms, p, Sample(o, digest, coms, p), w) {
      NonnegativeProduct(w, p.windowSize);
      if w * p.windowSize < |coms| {
        WindowOfSample(o, digest, coms, p, w);
      } else {
        PastTheBlocks(o, digest, coms, p, Sample(o, digest, coms, p), w);
      }
    }
  }

  lemma NonnegativeProduct(a: nat, b: int)
    requires b > 0
    ensures a * b >= 0
  {}

  lemma PastTheBlocks(o: Oracles, digest: Bytes, coms: seq<Bytes>, p: AuditParams, sel: seq<nat>, w: nat)
    requires p.Ok() && |coms| == p.totalBlocks && w * p.windowSize >= |coms|
    ensures WindowSampled(o, digest, coms, p, sel, w)
  {}

  lemma WindowOfSample(o: Oracles, digest: Bytes, coms: seq<Bytes>, p: AuditParams, w: nat)
    requires p.Ok() && |coms| == p.totalBlocks && w * p.windowSize < |coms|
    ensures WindowSampled(o, digest, coms, p, Sample(o, digest, coms, p), w)
  {
    var tags := TagsOf(o, digest, coms, p);
    NonnegativeProduct(w, p.windowSize);
    StartExact(p, 0, 0, w);
    var start: nat := w * p.windowSize;
    var before, after := WindowShare(p, tags, 0, 0, w);
    var n, here := ShareOf(p, tags, w, start, before, after, Sample(o, digest, coms, p));
    TagsByRoot(o, digest, coms, p, w, start, n);
    hide *;
    PicksAre(o, digest, w, start, coms[start..start + n], p, tags(w), here);
    SampledIs(o, digest, coms, p, Sample(o, digest, coms, p), w, start, n, before, here, after);
  }

  lemma ShareOf(p: AuditParams, tags: Tagger, w: nat, start: nat, before: seq<nat>, after: seq<nat>, sample: seq<nat>)
    returns (n: nat, here: seq<nat>)
    requires p.Ok() && Splits(p, tags, 0, 0, w, before, after) && StartOf(p, 0, 0, w) == start < p.totalBlocks
    requires sample == SelectFrom(p, tags, 0, 0)
    ensures 0 < n <= p.windowSize && n == WindowLength(p, start) && |here| == SampleCount(p, n)
    ensures Increasing(here) && Within(here, start, start + n) && Best(here, tags(w), start, n)
    ensures IsShare(sample, start, n, before, here, after)
  {
    hide Picked, SelectFrom, SampleCount, Best, Increasing;
    n := WindowLength(p, start);
    here := Picked(p, tags, w, start);
    PickedExact(p, tags, w, start);
  }

  lemma SampledIs(o: Oracles, digest: Bytes, coms: seq<Bytes>, p: AuditParams, sel: seq<nat>, w: nat, start: nat, n: nat,
                  before: seq<nat>, here: seq<nat>, after: seq<nat>)
    requires p.Ok() && |coms| == p.totalBlocks && start == w * p.windowSize < |coms| && n == WindowLength(p, start)
    requires IsShare(sel, start, n, before, here, after) && WindowPicks(o, digest, w, start, coms[start..start + n], p, here)
    ensures WindowSampled(o, digest, coms, p, sel, w)
  {
    hide IsShare, WindowPicks;
  }

  lemma TagsByRoot(o: Oracles, digest: Bytes, coms: seq<Bytes>, p: AuditParams, w: nat, start: nat, n: nat)
    requires p.Ok() && |coms| == p.totalBlocks && start == w * p.windowSize < |coms| && n == WindowLength(p, start)
    ensures forall j: nat :: TagsOf(o, digest, coms, p)(w)(j) == o.select(digest, w, TreeRoot(o.node, coms[start..start + n]), j)
  {
    BaseIs(w, p.windowSize);
    assert Slice(coms, start, p.windowSize) == coms[start..start + n];
  }

  lemma {:induction false} BaseIs(w: nat, n: nat)
    ensures Base(w, n) == w * n
  {
    BaseNext(w, n);
    if w > 0 {
      BaseIs(w - 1, n);
      BaseNext(w - 1, n);
      assert w * n == (w - 1) * n + n;
    }
  }

  lemma PicksAre(o: Oracles, digest: Bytes, w: nat, start: nat, window: seq<Bytes>, p: AuditParams, tag: nat -> nat, here: seq<nat>)
    requires p.Ok() && 0 < |window| <= p.windowSize && |here| == SampleCount(p, |window|)
    requires forall j: nat :: tag(j) == o.select(digest, w, TreeRoot(o.node, window), j)
    requires Increasing(here) && Within(here, start, start + |window|) && Best(here, tag, start, |window|)
    ensures WindowPicks(o, digest, w, start, window, p, here)
  {
    hide TreeRoot, SampleCount;
    var r, n := TreeRoot(o.node, window), |window|;
    forall i, u: nat | 0 <= i < |here| && start <= u < start + n && u !in here
      ensures || o.select(digest, w, r, here[i] - start) < o.select(digest, w, r, u - start)
              || (o.select(digest, w, r, here[i] - start) == o.select(digest, w, r, u - start) && here[i] < u)
    {
      assert Earlier(Tagged(tag(here[i] - start), here[i]), Tagged(tag(u - start), u));
    }
  }

  /** The challenge of block i comes from the root over the commitments of i's own window. */
  ghost predicate ChallengedByRoot(o: Oracles, digest: Bytes, coms: seq<Bytes>, p: AuditParams, i: nat, index: nat, challenge: Bytes)
    requires p.Ok()
  {
    exists lo: nat, hi: nat :: IsWindow(p, |coms|, i, lo, hi) && challenge == o.challenge(digest, TreeRoot(o.node, coms[lo..hi]), index)
  }

  /** A window starts at a multiple of the window size and is that long, or ends the blocks. */
  ghost predicate IsWindow(p: AuditParams, n: nat, i: nat, lo: nat, hi: nat)
    requires p.Ok()
  {
    lo <= i < hi <= n && lo % p.windowSize == 0 && (hi == lo + p.windowSize || n == hi < lo + p.windowSize)
  }

  lemma ChallengeByRoot(o: Oracles, digest: Bytes, coms: seq<Bytes>, p: AuditParams, i: nat, index: nat)
    requires p.Ok() && i < |coms|
    ensures ChallengedByRoot(o, digest, coms, p, i, index, o.challenge(digest, WindowRoot(o, coms, p, i / p.windowSize), index))
  {
    var w, m := i / p.windowSize, p.windowSize;
    assert i == m * w + i % m;
    BaseIs(w, m);
    TimesCommute(w, m);
    var lo: nat := w * m;
    var hi: nat := if lo + m <= |coms| then lo + m else |coms|;
    QuotientUnique(lo, m, w, 0);
    assert Slice(coms, lo, m) == coms[lo..hi];
    assert IsWindow(p, |coms|, i, lo, hi);
  }

  /** Other commitments in a window have another root; so there is a secret that then picks other blocks,
      unless it picks the whole window. */
  lemma CommitmentsDecideSample(o: Oracles, digest: Bytes, w: nat, start: nat, p: AuditParams, a: seq<Bytes>, b: seq<Bytes>)
    returns (select: (Bytes, nat, Bytes, nat) -> nat)
    requires p.Ok() && 0 < |a| == |b| <= p.windowSize && a != b && Injective(o.node) && SampleCount(p, |a|) < |a|
    ensures TreeRoot(o.node, a) != TreeRoot(o.node, b)
    ensures forall s, t ::
      (WindowPicks(o.(select := select), digest, w, start, a, p, s) && WindowPicks(o.(select := select), digest, w, start, b, p, t))
      ==> s != t
  {
    if TreeRoot(o.node, a) == TreeRoot(o.node, b) { RootBinds(o.node, a, b); }
    var ra, n := TreeRoot(o.node, a), |a|;
    SampleCountExact(p, n);
    select := (d, v, r, j) => if r == ra then j else if j <= n then n - j else 0;
    forall s, t | WindowPicks(o.(select := select), digest, w, start, a, p, s)
                  && WindowPicks(o.(select := select), digest, w, start, b, p, t) ensures s != t
    {
      FirstPicked(o.(select := select), digest, w, start, a, p, s);
      if start in t { LastPicked(o.(select := select), digest, w, start, b, p, t); }
    }
  }

  lemma FirstPicked(o: Oracles, digest: Bytes, w: nat, start: nat, window: seq<Bytes>, p: AuditParams, s: seq<nat>)
    requires p.Ok() && 0 < |window| <= p.windowSize && SampleCount(p, |window|) > 0 && WindowPicks(o, digest, w, start, window, p, s)
    requires forall j: nat :: j < |window| ==> o.select(digest, w, TreeRoot(o.node, window), j) == j
    ensures start in s
  {
    hide TreeRoot, SampleCount;
    assert s[0] in s;
  }

  lemma LastPicked(o: Oracles, digest: Bytes, w: nat, start: nat, window: seq<Bytes>, p: AuditParams, s: seq<nat>)
    requires p.Ok() && 0 < |window| <= p.windowSize && WindowPicks(o, digest, w, start, window, p, s) && start in s
    requires forall j: nat :: j < |window| ==> o.select(digest, w, TreeRoot(o.node, window), j) == |window| - j
    ensures SampleCount(p, |window|) == |window|
  {
    hide TreeRoot, SampleCount;
    var n := |window|;
    var i :| 0 <= i < |s| && s[i] == start;
    forall u: nat | start <= u < start + n ensures u in s {}
    AllPicked(s, start, n);
  }

  lemma {:induction false} AllPicked(s: seq<nat>, start: nat, n: nat)
    requires (forall i :: 0 <= i < |s| ==> start <= s[i] < start + n) && forall i, k :: 0 <= i < k < |s| ==> s[i] < s[k]
    requires forall u: nat :: start <= u < start + n ==> u in s
    ensures |s| == n
  {
    var all := seq(n, i requires 0 <= i < n => start + i);
    assert NoDuplicates(all) && NoDuplicates(s);
    NoDuplicatesSize(all);
    NoDuplicatesSize(s);
    forall x ensures x in Elements(all) <==> x in Elements(s) {
      if x in s { assert all[x - start] == x; }
    }
    assert Elements(all) == Elements(s);
  }

  // ---------------------------------------------------------------- the manifest

  /** A record repeats its wire's published widths. */
  ghost predicate Declared(r: WireRecord, ss: seq<RoleSchema>) {
    forall k :: 0 <= k < |ss| && ss[k].id == r.id ==> ss[k].widths == r.widths
  }

  ghost predicate RecordsHold(o: Oracles, st: Statement, proof: AuditProof) {
    var ss := AllSchemas(st.descriptors);
    && Agreeing(ss) && Ids(proof.records) == Mentioned(ss)
    && (forall k :: 0 <= k < |proof.records| ==> Declared(proof.records[k], ss))
    && proof.c0Root == o.c0(proof.digest, WireRoot(o, proof.records))
  }

  ghost predicate CommitmentsHold(o: Oracles, st: Statement, proof: AuditProof) {
    && |proof.blockComs| == st.params.totalBlocks == |st.descriptors|
    && forall i :: 0 <= i < |st.descriptors| ==>
         proof.blockComs[i] == o.block(i, st.descriptors[i], RootsFrom(st.descriptors[i].schemas, RecordMap(proof.records)))
  }

  method CheckRecords(o: Oracles, st: Statement, proof: AuditProof) returns (ok: bool)
    ensures ok <==> RecordsHold(o, st, proof)
  {
    hide Agreeing, Read, AllSchemas, Mentioned, WireRoot;
    var good, order, widths := ReadManifest(st.descriptors);
    if !good || Ids(proof.records) != order {
      return false;
    }
    var ss := AllSchemas(st.descriptors);
    for k := 0 to |proof.records|
      invariant forall i :: 0 <= i < k ==> Declared(proof.records[i], ss)
    {
      var r := proof.records[k];
      assert order[k] == r.id;
      DeclaredIs(widths, ss, r);
      if r.widths != widths[r.id] {
        return false;
      }
    }
    WireRootIs(o, proof.records);
    var root := AuditRoot(o, WireLeaves(o, proof.records));
    ok := proof.c0Root == o.c0(proof.digest, root);
  }

  lemma WireRootIs(o: Oracles, records: seq<WireRecord>)
    ensures WireRoot(o, records) == RootOr(o, WireLeaves(o, records))
  {}

  lemma DeclaredIs(widths: map<string, seq<nat>>, ss: seq<RoleSchema>, r: WireRecord)
    requires Read(widths, ss) && r.id in Mentioned(ss)
    ensures r.id in widths && (Declared(r, ss) <==> r.widths == widths[r.id])
  {
    MentionedIs(ss);
    var k :| 0 <= k < |ss| && ss[k].id == r.id;
    assert widths[ss[k].id] == ss[k].widths;
  }

  method CheckCommitments(o: Oracles, st: Statement, proof: AuditProof) returns (ok: bool)
    requires |st.descriptors| == st.params.totalBlocks == |proof.blockComs|
    ensures ok <==> CommitmentsHold(o, st, proof)
  {
    hide RootsFrom, RecordMap;
    var records := RecordMap(proof.records);
    for i := 0 to |st.descriptors|
      invariant forall k :: 0 <= k < i ==>
        proof.blockComs[k] == o.block(k, st.descriptors[k], RootsFrom(st.descriptors[k].schemas, records))
    {
      if proof.blockComs[i] != o.block(i, st.descriptors[i], RootsFrom(st.descriptors[i].schemas, records)) {
        return false;
      }
    }
    ok := true;
  }

  // ------------------------------------------------------------ a selected block

  function OpenedWires(openings: map<string, WireOpening>): (m: map<string, Wire>)
    ensures m.Keys == openings.Keys && forall r <- m :: m[r] == Wire(openings[r].id, openings[r].messages)
  {
    map r | r in openings :: Wire(openings[r].id, openings[r].messages)
  }

  function RolesOf(schemas: seq<RoleSchema>): (roles: set<string>)
    ensures forall r :: r in roles <==> exists k :: 0 <= k < |schemas| && schemas[k].role == r
  {
    set k | 0 <= k < |schemas| :: schemas[k].role
  }

  /** The opening is of the wire the manifest names, that wire is in C0, and it has q columns. */
  ghost predicate Listed(o: Oracles, q: int, records: map<string, WireRecord>, wireRoot: Bytes, s: RoleSchema, op: WireOpening) {
    && op.id == s.id && op.id in records
    && Climb(o.node, o.wireLeaf(records[op.id]), op.c0Path) == wireRoot
    && |op.columns| == q && NoDuplicates(op.columns)
  }

  /** At column k: the opened values are the committed ones and the re-encoded messages'. */
  ghost predicate BoundAt(o: Oracles, cfg: Config, root: Bytes, op: WireOpening, k: nat)
    requires k < |op.columns| && k < |op.values| && k < |op.paths|
  {
    && Checks(o.h, cfg, root, op.columns[k], op.values[k], op.paths[k])
    && 0 <= op.columns[k] < cfg.N()
    && op.values[k] == EncodedColumn(cfg, op.messages, op.columns[k])
  }

  function EncodedColumn(cfg: Config, messages: Matrix, col: nat): (v: seq<int>)
    requires col < cfg.N()
    ensures |v| == |messages| && forall i :: 0 <= i < |v| ==> v[i] == Codeword(cfg, messages[i])[col]
  {
    seq(|messages|, i requires 0 <= i < |messages| => Codeword(cfg, messages[i])[col])
  }

  ghost predicate Bound(o: Oracles, cfg: Config, record: WireRecord, columns: seq<int>, op: WireOpening) {
    && op.columns == columns && |op.values| == |op.paths| == |columns|
    && Widths(op.messages) == record.widths && Commit.AllFit(op.messages, cfg.ELL)
    && forall k :: 0 <= k < |columns| ==> BoundAt(o, cfg, record.root, op, k)
  }

  ghost predicate OpeningsHold(o: Oracles, cfg: Config, q: int, records: map<string, WireRecord>, wireRoot: Bytes,
                               schemas: seq<RoleSchema>, columns: seq<int>, openings: map<string, WireOpening>) {
    && openings.Keys == RolesOf(schemas)
    && forall k :: 0 <= k < |schemas| ==>
         && Listed(o, q, records, wireRoot, schemas[k], openings[schemas[k].role])
         && Bound(o, cfg, records[schemas[k].id], columns, openings[schemas[k].role])
  }

  function ColumnsFor(o: Oracles, digest: Bytes, s: Selected): seq<int> {
    o.columns(o.columnSeed(digest, s.index, s.digest))
  }

  ghost predicate SelectedHolds(o: Oracles, cfg: Config, st: Statement, proof: AuditProof, s: Selected)
    requires st.params.Ok()
  {
    && s.index < |st.descriptors| && s.index < |proof.blockComs|
    && s.challenge == o.challenge(proof.digest, WindowRoot(o, proof.blockComs, st.params, s.index / st.params.windowSize), s.index)
    && s.digest == o.local(s.index, s.challenge, s.local, OpenedWires(s.openings))
    && OpeningsHold(o, cfg, st.params.rsColumns, RecordMap(proof.records), WireRoot(o, proof.records),
                    st.descriptors[s.index].schemas, ColumnsFor(o, proof.digest, s), s.openings)
    && Shaped(st.descriptors[s.index].kind, MessagesIn(OpenedWires(s.openings)))
    && LocalHolds(st.descriptors[s.index].kind, s.local, MessagesIn(OpenedWires(s.openings)),
                  Coined(o.field, o.rounds, s.challenge, s.index, proof.blockComs[s.index]))
  }

  /** Each row encoded; one longer than ELL raises. */
  method EncodeRows(cfg: Config, L: Matrix, messages: Matrix) returns (ok: bool, rows: Matrix)
    requires cfg.Valid() && IsLagrangeMatrix(cfg, L)
    ensures ok <==> Commit.AllFit(messages, cfg.ELL)
    ensures ok ==> |rows| == |messages| && forall i :: 0 <= i < |rows| ==> rows[i] == Codeword(cfg, messages[i])
  {
    hide Codeword, IsLagrangeMatrix;
    rows, ok := [], true;
    for i := 0 to |messages|
      invariant |rows| == i && forall k :: 0 <= k < i ==> |messages[k]| <= cfg.ELL && rows[k] == Codeword(cfg, messages[k])
    {
      var r := EncodeRow(cfg, L, messages[i]);
      if r.ValueError? {
        return false, rows;
      }
      rows := rows + [r.value];
    }
  }

  method CheckBound(o: Oracles, cfg: Config, L: Matrix, record: WireRecord, columns: seq<int>, op: WireOpening) returns (ok: bool)
    requires cfg.Valid() && IsLagrangeMatrix(cfg, L)
    ensures ok <==> Bound(o, cfg, record, columns, op)
  {
    hide Codeword, IsLagrangeMatrix, Checks, Widths;
    if op.columns != columns || |op.values| != |columns| || |op.paths| != |columns| || Widths(op.messages) != record.widths {
      return false;
    }
    var fits, rows := EncodeRows(cfg, L, op.messages);
    if !fits {
      return false;
    }
    for k := 0 to |columns|
      invariant forall i :: 0 <= i < k ==> BoundAt(o, cfg, record.root, op, i)
    {
      var good := CheckOpen(o.h, cfg, record.root, columns[k], op.values[k], op.paths[k]);
      if !good {
        assert !BoundAt(o, cfg, record.root, op, k);
        return false;
      }
      ChecksInside(o, cfg, record.root, columns[k], op.values[k], op.paths[k]);
      WordSizes(cfg, op.messages);
      var again := seq(|rows|, i requires 0 <= i < |rows| => rows[i][columns[k]]);
      assert again == EncodedColumn(cfg, op.messages, columns[k]);
      if op.values[k] != again {
        assert !BoundAt(o, cfg, record.root, op, k);
        return false;
      }
    }
    ok := true;
  }

  lemma ChecksInside(o: Oracles, cfg: Config, root: Bytes, col: int, values: seq<int>, path: Path<Bytes>)
    requires Checks(o.h, cfg, root, col, values, path)
    ensures 0 <= col < cfg.N()
  {}

  lemma WordSizes(cfg: Config, messages: Matrix)
    ensures forall i :: 0 <= i < |messages| ==> |Codeword(cfg, messages[i])| == cfg.N()
  {}

  method CheckListed(o: Oracles, q: int, records: map<string, WireRecord>, wireRoot: Bytes, s: RoleSchema, op: WireOpening)
    returns (ok: bool)
    ensures ok <==> Listed(o, q, records, wireRoot, s, op)
  {
    hide NoDuplicates;
    if op.id != s.id || op.id !in records {
      return false;
    }
    var root := PathRoot(o.node, o.wireLeaf(records[op.id]), op.c0Path);
    if root != wireRoot || |op.columns| != q {
      return false;
    }
    ok := CheckDistinct(op.columns);
  }

  method CheckDistinct(columns: seq<int>) returns (ok: bool)
    ensures ok <==> NoDuplicates(columns)
  {
    ok := forall i, k :: 0 <= i < k < |columns| ==> columns[i] != columns[k];
  }

  method CheckOpenings(o: Oracles, cfg: Config, L: Matrix, q: int, records: map<string, WireRecord>, wireRoot: Bytes,
                       schemas: seq<RoleSchema>, columns: seq<int>, openings: map<string, WireOpening>) returns (ok: bool)
    requires cfg.Valid() && IsLagrangeMatrix(cfg, L)
    ensures ok <==> OpeningsHold(o, cfg, q, records, wireRoot, schemas, columns, openings)
  {
    hide IsLagrangeMatrix, Listed, Bound;
    if openings.Keys != RolesOf(schemas) {
      return false;
    }
    for k := 0 to |schemas|
      invariant forall i :: 0 <= i < k ==>
        && Listed(o, q, records, wireRoot, schemas[i], openings[schemas[i].role])
        && schemas[i].id in records && Bound(o, cfg, records[schemas[i].id], columns, openings[schemas[i].role])
    {
      var op := openings[schemas[k].role];
      var good := CheckListed(o, q, records, wireRoot, schemas[k], op);
      if !good {
        return false;
      }
      ListedRecord(o, q, records, wireRoot, schemas[k], op);
      good := CheckBound(o, cfg, L, records[schemas[k].id], columns, op);
      if !good {
        return false;
      }
    }
    ok := true;
  }

  lemma ListedRecord(o: Oracles, q: int, records: map<string, WireRecord>, wireRoot: Bytes, s: RoleSchema, op: WireOpening)
    requires Listed(o, q, records, wireRoot, s, op)
    ensures s.id in records && op.id == s.id
  {}

  /** Accepted openings have the published widths. */
  lemma OpenedWidths(o: Oracles, cfg: Config, st: Statement, proof: AuditProof, i: nat, columns: seq<int>,
                     openings: map<string, WireOpening>)
    requires RecordsHold(o, st, proof) && i < |st.descriptors|
    requires OpeningsHold(o, cfg, st.params.rsColumns, RecordMap(proof.records), WireRoot(o, proof.records),
                          st.descriptors[i].schemas, columns, openings)
    ensures HasWidths(st.descriptors[i].schemas, MessagesIn(OpenedWires(openings)))
  {
    var ss, schemas, w := AllSchemas(st.descriptors), st.descriptors[i].schemas, MessagesIn(OpenedWires(openings));
    UniqueRecords(o, st, proof);
    hide Bound, Listed, AllSchemas, Mentioned, Widths, RecordMap;
    forall k | 0 <= k < |schemas| ensures schemas[k].role in w && Widths(w[schemas[k].role]) == schemas[k].widths {
      SchemaListed(st.descriptors, i, k);
      var op := openings[schemas[k].role];
      ListedRecord(o, st.params.rsColumns, RecordMap(proof.records), WireRoot(o, proof.records), schemas[k], op);
      BoundWidths(o, cfg, RecordMap(proof.records)[schemas[k].id], columns, op);
      DeclaredWidths(o, st, proof, schemas[k]);
    }
    RolesCovered(schemas, w);
  }

  lemma RolesCovered(schemas: seq<RoleSchema>, w: Wires)
    requires w.Keys == RolesOf(schemas)
    requires forall k :: 0 <= k < |schemas| ==> schemas[k].role in w && Widths(w[schemas[k].role]) == schemas[k].widths
    ensures HasWidths(schemas, w)
  {
    hide Widths;
    forall r | r in w ensures exists k :: 0 <= k < |schemas| && schemas[k].role == r {
      assert r in RolesOf(schemas);
    }
  }

  lemma BoundWidths(o: Oracles, cfg: Config, record: WireRecord, columns: seq<int>, op: WireOpening)
    requires Bound(o, cfg, record, columns, op)
    ensures Widths(op.messages) == record.widths
  {
    hide Widths;
  }

  lemma {:induction false} SchemaListed(ds: seq<Descriptor>, i: nat, k: nat)
    requires i < |ds| && k < |ds[i].schemas|
    ensures ds[i].schemas[k] in AllSchemas(ds)
  {
    var n := |ds| - 1;
    if i < n { SchemaListed(ds[..n], i, k); }
  }

  lemma UniqueRecords(o: Oracles, st: Statement, proof: AuditProof)
    requires RecordsHold(o, st, proof)
    ensures forall i, k :: 0 <= i < k < |proof.records| ==> proof.records[i].id != proof.records[k].id
  {
    var ss := AllSchemas(st.descriptors);
    MentionedIs(ss);
    hide Mentioned, AllSchemas;
    forall i, k | 0 <= i < k < |proof.records| ensures proof.records[i].id != proof.records[k].id {
      assert Ids(proof.records)[i] != Ids(proof.records)[k];
    }
  }

  lemma DeclaredWidths(o: Oracles, st: Statement, proof: AuditProof, s: RoleSchema)
    requires RecordsHold(o, st, proof) && s in AllSchemas(st.descriptors) && s.id in RecordMap(proof.records)
    ensures RecordMap(proof.records)[s.id].widths == s.widths
  {
    UniqueRecords(o, st, proof);
    RecordMapIs(proof.records);
    hide RecordMap, AllSchemas, Mentioned, WireRoot;
    var r := RecordMap(proof.records)[s.id];
    var k :| 0 <= k < |proof.records| && Ids(proof.records)[k] == s.id;
    assert proof.records[k].id == s.id;
    assert r == proof.records[k];
    assert Declared(r, AllSchemas(st.descriptors));
  }

  method VerifySelected(o: Oracles, cfg: Config, L: Matrix, st: Statement, proof: AuditProof, s: Selected) returns (ok: bool)
    requires cfg.Valid() && IsLagrangeMatrix(cfg, L) && StatementOk(st) && RecordsHold(o, st, proof)
    requires CommitmentsHold(o, st, proof) && s.index < |st.descriptors|
    ensures ok <==> SelectedHolds(o, cfg, st, proof, s)
  {
    StatementParts(st, s.index);
    CommitmentCount(o, st, proof);
    hide *;
    var desc, p := st.descriptors[s.index], st.params;
    var challenge := ChallengeFor(o, st, proof, s.index);
    SelectedParts(o, cfg, st, proof, s);
    if challenge != s.challenge {
      return false;
    }
    if s.digest != o.local(s.index, s.challenge, s.local, OpenedWires(s.openings)) {
      return false;
    }
    var good := CheckOpenings(o, cfg, L, p.rsColumns, RecordMap(proof.records), WireRoot(o, proof.records), desc.schemas,
                              ColumnsFor(o, proof.digest, s), s.openings);
    if !good {
      return false;
    }
    OpenedWidths(o, cfg, st, proof, s.index, ColumnsFor(o, proof.digest, s), s.openings);
    OpenedShape(desc, MessagesIn(OpenedWires(s.openings)));
    ok := VerifyLocal(desc.kind, s.local, MessagesIn(OpenedWires(s.openings)),
                      Coined(o.field, o.rounds, s.challenge, s.index, proof.blockComs[s.index]));
  }

  function ChallengeFor(o: Oracles, st: Statement, proof: AuditProof, i: nat): Bytes
    requires st.params.Ok()
  {
    o.challenge(proof.digest, WindowRoot(o, proof.blockComs, st.params, i / st.params.windowSize), i)
  }

  lemma StatementParts(st: Statement, i: nat)
    requires StatementOk(st) && i < |st.descriptors|
    ensures st.params.Ok() && DescriptorOk(st.descriptors[i])
  {
    hide DescriptorOk;
  }

  lemma CommitmentCount(o: Oracles, st: Statement, proof: AuditProof)
    requires CommitmentsHold(o, st, proof)
    ensures |proof.blockComs| == |st.descriptors| == st.params.totalBlocks
  {}

  lemma SelectedParts(o: Oracles, cfg: Config, st: Statement, proof: AuditProof, s: Selected)
    requires st.params.Ok() && s.index < |st.descriptors| && s.index < |proof.blockComs|
    ensures SelectedHolds(o, cfg, st, proof, s) <==>
      (&& s.challenge == ChallengeFor(o, st, proof, s.index)
       && s.digest == o.local(s.index, s.challenge, s.local, OpenedWires(s.openings))
       && OpeningsHold(o, cfg, st.params.rsColumns, RecordMap(proof.records), WireRoot(o, proof.records),
                       st.descriptors[s.index].schemas, ColumnsFor(o, proof.digest, s), s.openings)
       && Shaped(st.descriptors[s.index].kind, MessagesIn(OpenedWires(s.openings)))
       && LocalHolds(st.descriptors[s.index].kind, s.local, MessagesIn(OpenedWires(s.openings)),
                     Coined(o.field, o.rounds, s.challenge, s.index, proof.blockComs[s.index])))
  {
    hide OpeningsHold, Shaped, LocalHolds, WindowRoot, RecordMap, WireRoot, ColumnsFor, OpenedWires;
  }

  // ------------------------------------------------------------------ the verifier

  function Indexes(selected: seq<Selected>): (s: seq<nat>)
    ensures |s| == |selected| && forall k :: 0 <= k < |s| ==> s[k] == selected[k].index
  {
    seq(|selected|, k requires 0 <= k < |selected| => selected[k].index)
  }

  /** Everything verify asks. */
  ghost predicate Accepted(o: Oracles, cfg: Config, st: Statement, proof: AuditProof) {
    && st.params.Ok() && proof.digest == o.statement(st) && |proof.blockComs| == st.params.totalBlocks
    && RecordsHold(o, st, proof) && CommitmentsHold(o, st, proof)
    && Indexes(proof.selected) == Sample(o, proof.digest, proof.blockComs, st.params)
    && forall k :: 0 <= k < |proof.selected| ==> SelectedHolds(o, cfg, st, proof, proof.selected[k])
  }

  /** verify: False and an exception both answer no. */
  method Verify(o: Oracles, cfg: Config, L: Matrix, st: Statement, proof: AuditProof) returns (ok: bool)
    requires cfg.Valid() && IsLagrangeMatrix(cfg, L) && StatementOk(st)
    ensures ok <==> Accepted(o, cfg, st, proof)
    ensures ok ==> st.params.Ok() && |proof.blockComs| == st.params.totalBlocks
    ensures ok ==> SampledByRoots(o, proof.digest, proof.blockComs, st.params, Indexes(proof.selected))
    ensures ok ==> forall k :: 0 <= k < |proof.selected| ==>
      var s := proof.selected[k]; ChallengedByRoot(o, proof.digest, proof.blockComs, st.params, s.index, s.index, s.challenge)
  {
    hide IsLagrangeMatrix, SampledByRoots, ChallengedByRoot, RecordsHold, CommitmentsHold, SelectedHolds, Sample, DescriptorOk;
    if proof.digest != o.statement(st) || |proof.blockComs| != st.params.totalBlocks {
      return false;
    }
    var good := CheckRecords(o, st, proof);
    if !good {
      return false;
    }
    good := CheckCommitments(o, st, proof);
    if !good {
      return false;
    }
    var expected := ExpectedSample(o, proof.digest, proof.blockComs, st.params);
    if Indexes(proof.selected) != expected {
      return false;
    }
    SampleInRange(o, proof.digest, proof.blockComs, st.params);
    SampleIsByRoots(o, proof.digest, proof.blockComs, st.params);
    for k := 0 to |proof.selected|
      invariant forall i :: 0 <= i < k ==> SelectedHolds(o, cfg, st, proof, proof.selected[i])
    {
      assert Indexes(proof.selected)[k] < st.params.totalBlocks;
      good := VerifySelected(o, cfg, L, st, proof, proof.selected[k]);
      if !good {
        return false;
      }
    }
    ok := true;
    forall k | 0 <= k < |proof.selected|
      ensures var s := proof.selected[k]; ChallengedByRoot(o, proof.digest, proof.blockComs, st.params, s.index, s.index, s.challenge)
    {
      SelectedChallenge(o, cfg, st, proof, proof.selected[k]);
    }
  }

  lemma SelectedChallenge(o: Oracles, cfg: Config, st: Statement, proof: AuditProof, s: Selected)
    requires st.params.Ok() && SelectedHolds(o, cfg, st, proof, s)
    ensures ChallengedByRoot(o, proof.digest, proof.blockComs, st.params, s.index, s.index, s.challenge)
  {
    hide OpeningsHold, Shaped, LocalHolds, WindowRoot, RecordMap, WireRoot, ChallengedByRoot;
    ChallengeByRoot(o, proof.digest, proof.blockComs, st.params, s.index, s.index);
  }

  /** The sample names blocks there are, in strictly increasing order, selected_blocks of them. */
  lemma SampleInRange(o: Oracles, digest: Bytes, coms: seq<Bytes>, p: AuditParams)
    requires p.Ok() && |coms| == p.totalBlocks
    ensures var s := Sample(o, digest, coms, p);
      && Increasing(s) && |s| == SelectedBlocks(p, p.totalBlocks) && forall k :: 0 <= k < |s| ==> s[k] < p.totalBlocks
  {
    SelectionTotals(p, TagsOf(o, digest, coms, p), 0, 0);
    hide SelectFrom, TagsOf, SelectedBlocks;
  }

  // ------------------------------------------------------------------- soundness

  /** Two openings bound to one root agree at every column they share, row by row: blocks that
      name the same wire cannot open unrelated copies of it. */
  lemma OneRootOneWord(o: Oracles, cfg: Config, a: WireRecord, b: WireRecord, x: WireOpening, y: WireOpening, i: nat, j: nat, r: nat)
    requires Binding(o.h) && a.root == b.root && Bound(o, cfg, a, x.columns, x) && Bound(o, cfg, b, y.columns, y)
    requires i < |x.columns| && j < |y.columns| && x.columns[i] == y.columns[j] && r < |x.messages|
    ensures |x.messages| == |y.messages| && 0 <= x.columns[i] < cfg.N()
    ensures Codeword(cfg, x.messages[r])[x.columns[i]] == Codeword(cfg, y.messages[r])[x.columns[i]]
  {
    hide Codeword, Checks, Widths;
    assert BoundAt(o, cfg, a.root, x, i) && BoundAt(o, cfg, b.root, y, j);
    var col := x.columns[i];
    SameLeaf(o, cfg, a.root, col, x.values[i], x.paths[i], y.values[j], y.paths[j]);
    assert EncodedColumn(cfg, x.messages, col)[r] == EncodedColumn(cfg, y.messages, col)[r];
  }

  lemma SameLeaf(o: Oracles, cfg: Config, root: Bytes, col: int, v: seq<int>, p: Path<Bytes>, w: seq<int>, q: Path<Bytes>)
    requires Binding(o.h) && Checks(o.h, cfg, root, col, v, p) && Checks(o.h, cfg, root, col, w, q)
    ensures v == w
  {
    var node := o.h.node;
    OrderedSides(node, o.h.leaf(v), p, o.h.leaf(w), q, col, cfg.N());
    PathBinds(node, o.h.leaf(v), p, o.h.leaf(w), q);
  }

  /** Against an honestly committed wire, a row opened as anything but the committed word is
      accepted at K-1 different columns at the most. */
  lemma FalseMessageExposed(o: Oracles, cfg: Config, c: Commitment<Bytes>, record: WireRecord, op: WireOpening, messages: Matrix, r: nat)
    requires cfg.Valid() && Binding(o.h) && Built(o.h, cfg, c) && c.rows == Encoded(cfg, messages) && record.root == c.root
    requires Bound(o, cfg, record, op.columns, op) && NoDuplicates(op.columns) && r < |messages| && r < |op.messages|
    requires Codeword(cfg, op.messages[r]) != Codeword(cfg, messages[r])
    ensures |op.columns| <= cfg.K() - 1
  {
    var u, v := Codeword(cfg, op.messages[r]), Codeword(cfg, messages[r]);
    var same := Agreements(u, v);
    WordSizes(cfg, op.messages);
    WordSizes(cfg, messages);
    IsTheCode(cfg, op.messages[r]);
    IsTheCode(cfg, messages[r]);
    Distance(cfg, u, v);
    hide Codeword, Checks, Widths, Built, Agreements, IsCodeword;
    forall x | x in Elements(op.columns) ensures x in same {
      var k := PositionOf(op.columns, x);
      assert BoundAt(o, cfg, record.root, op, k);
      OpeningBinds(o.h, cfg, c, x, op.values[k], op.paths[k]);
      assert op.values[k][r] == c.rows[r][x];
      AgreementAt(u, v, x);
    }
    NoDuplicatesSize(op.columns);
    SubsetSize(Elements(op.columns), same);
  }
}
