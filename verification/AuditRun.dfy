/** The audit end to end: prove over all windows, and verify on what it returns. The prover refuses
    exactly the runs in which one wire is bound to two messages or is wider than the code. */
module AuditRun {
  import opened NumberTheory
  import opened Field
  import opened Polynomial
  import opened Domain
  import opened Rows
  import opened Rs
  import opened Merkle
  import opened Commit
  import opened Seam
  import opened Prover
  import opened AuditRelation
  import opened AuditPlan
  import opened AuditLocal
  import opened AuditBlocks
  import opened AuditVerifier
  import opened AuditProver

  // -------------------------------------------------------------- records and paths

  function MessagesOf(ws: seq<Named>, id: string): Matrix {
    if ws == [] then []
    else if ws[|ws| - 1].wire.id == id then ws[|ws| - 1].wire.messages
    else MessagesOf(ws[..|ws| - 1], id)
  }

  lemma {:induction false} MessagesAre(cfg: Config, ws: seq<Named>, k: nat)
    requires GoodWires(cfg, ws) && k < |ws|
    ensures MessagesOf(ws, ws[k].wire.id) == ws[k].wire.messages
  {
    var n := |ws| - 1;
    if ws[n].wire.id != ws[k].wire.id {
      assert GoodWires(cfg, ws[..n]);
      MessagesAre(cfg, ws[..n], k);
    }
  }

  /** One record per wire, in the order of the manifest. */
  ghost function RecordsOf(o: Oracles, cfg: Config, ws: seq<Named>, order: seq<string>): (rs: seq<WireRecord>)
    requires cfg.Valid()
    ensures |rs| == |order| && forall k :: 0 <= k < |rs| ==> rs[k] == RecordFor(o, cfg, Wire(order[k], MessagesOf(ws, order[k])))
  {
    seq(|order|, k requires 0 <= k < |order| => RecordFor(o, cfg, Wire(order[k], MessagesOf(ws, order[k]))))
  }

  function PathsTo(o: Oracles, records: seq<WireRecord>, n: nat): map<string, Path<Bytes>>
    requires n <= |records|
  {
    if n == 0 then map[]
    else PathsTo(o, records, n - 1)[records[n - 1].id := PathFor(o.node, WireLeaves(o, records), n - 1)]
  }

  lemma {:induction false} PathsAre(o: Oracles, records: seq<WireRecord>, n: nat, k: nat)
    requires n <= |records| && k < n && forall i, j :: 0 <= i < j < |records| ==> records[i].id != records[j].id
    ensures records[k].id in PathsTo(o, records, n)
    ensures PathsTo(o, records, n)[records[k].id] == PathFor(o.node, WireLeaves(o, records), k)
  {
    hide PathFor, WireLeaves;
    if k < n - 1 { PathsAre(o, records, n - 1, k); }
  }

  /** _path for every record, from one tree. */
  method AllPaths(o: Oracles, records: seq<WireRecord>) returns (paths: map<string, Path<Bytes>>)
    ensures paths == PathsTo(o, records, |records|)
  {
    hide *;
    var leaves := WireLeaves(o, records);
    var levels := BuildTree(o.node, leaves);
    paths := map[];
    PathsUnfold(o, records, 0);
    for k := 0 to |records|
      invariant paths == PathsTo(o, records, k)
    {
      var path := MerklePath(o.node, leaves, levels, k);
      PathsUnfold(o, records, k + 1);
      paths := paths[records[k].id := path];
    }
  }

  lemma PathsUnfold(o: Oracles, records: seq<WireRecord>, n: nat)
    requires n <= |records|
    ensures PathsTo(o, records, 0) == map[]
    ensures n > 0 ==>
      PathsTo(o, records, n) == PathsTo(o, records, n - 1)[records[n - 1].id := PathFor(o.node, WireLeaves(o, records), n - 1)]
  {
    hide PathFor, WireLeaves;
  }

  /** The records of the registry, read in manifest order. */
  method BuildRecords(o: Oracles, cfg: Config, reg: Registry, ghost ws: seq<Named>, order: seq<string>) returns (rs: seq<WireRecord>)
    requires cfg.Valid() && Tracks(o, cfg, reg, ws) && forall k :: 0 <= k < |order| ==> HasId(ws, order[k])
    ensures rs == RecordsOf(o, cfg, ws, order)
  {
    hide Tracks, RecordFor, HasId;
    rs := [];
    for k := 0 to |order|
      invariant |rs| == k && forall i :: 0 <= i < k ==> rs[i] == RecordFor(o, cfg, Wire(order[i], MessagesOf(ws, order[i])))
    {
      RecordInRegistry(o, cfg, reg, ws, order[k]);
      rs := rs + [reg[order[k]].record];
    }
  }

  /** Some wire of the list has this id. */
  ghost predicate HasId(ws: seq<Named>, id: string) {
    exists k :: 0 <= k < |ws| && ws[k].wire.id == id
  }

  lemma RecordInRegistry(o: Oracles, cfg: Config, reg: Registry, ws: seq<Named>, id: string)
    requires cfg.Valid() && Tracks(o, cfg, reg, ws) && HasId(ws, id)
    ensures id in reg && reg[id].record == RecordFor(o, cfg, Wire(id, MessagesOf(ws, id)))
  {
    var k :| 0 <= k < |ws| && ws[k].wire.id == id;
    hide Tracks, RecordFor, GoodWires;
    TracksGood(o, cfg, reg, ws);
    Tracked(o, cfg, reg, ws, k);
    MessagesAre(cfg, ws, k);
    assert Wire(id, MessagesOf(ws, id)) == ws[k].wire;
  }

  // -------------------------------------------------------------- the honest proof

  /** Blocks their constructors let through, described by the statement, and a sampler of columns. */
  ghost predicate Setting(o: Oracles, cfg: Config, st: Statement, blocks: seq<Block>) {
    && cfg.Valid() && st.params.Ok() && |blocks| == st.params.totalBlocks && st.descriptors == DescribeAll(blocks)
    && (forall i :: 0 <= i < |blocks| ==> BlockOk(blocks[i])) && GoodColumns(o, st.params.rsColumns, cfg.N())
  }

  lemma SettingParts(o: Oracles, cfg: Config, st: Statement, blocks: seq<Block>)
    requires Setting(o, cfg, st, blocks)
    ensures cfg.Valid() && st.params.Ok() && |blocks| == st.params.totalBlocks && st.descriptors == DescribeAll(blocks)
    ensures (forall i :: 0 <= i < |blocks| ==> BlockOk(blocks[i])) && GoodColumns(o, st.params.rsColumns, cfg.N())
    ensures |Coms(o, cfg, blocks)| == |blocks|
  {
    hide BlockOk, DescribeAll, GoodColumns;
  }

  /** The root block i's challenge is bound to. */
  ghost function RootAt(o: Oracles, cfg: Config, st: Statement, blocks: seq<Block>, i: nat): Bytes
    requires cfg.Valid() && st.params.Ok()
  {
    WindowRoot(o, Coms(o, cfg, blocks), st.params, i / st.params.windowSize)
  }

  ghost function HonestAt(o: Oracles, cfg: Config, st: Statement, blocks: seq<Block>, paths: map<string, Path<Bytes>>, i: nat): Selected
    requires Setting(o, cfg, st, blocks) && i < |blocks|
  {
    hide *;
    SettingParts(o, cfg, st, blocks);
    HonestSelected(o, cfg, st, blocks[i], RootAt(o, cfg, st, blocks, i), Coms(o, cfg, blocks)[i], paths)
  }

  ghost predicate InBlocks(sel: seq<nat>, n: nat) {
    forall k :: 0 <= k < |sel| ==> sel[k] < n
  }

  ghost function HonestAll(o: Oracles, cfg: Config, st: Statement, blocks: seq<Block>, paths: map<string, Path<Bytes>>, sel: seq<nat>)
    : (s: seq<Selected>)
    requires Setting(o, cfg, st, blocks) && InBlocks(sel, |blocks|)
    ensures |s| == |sel| && forall k :: 0 <= k < |s| ==> s[k] == HonestAt(o, cfg, st, blocks, paths, sel[k])
  {
    seq(|sel|, k requires 0 <= k < |sel| => HonestAt(o, cfg, st, blocks, paths, sel[k]))
  }

  ghost function SampleOf(o: Oracles, cfg: Config, st: Statement, blocks: seq<Block>): (s: seq<nat>)
    requires Setting(o, cfg, st, blocks)
    ensures InBlocks(s, |blocks|)
  {
    SampleInRange(o, o.statement(st), Coms(o, cfg, blocks), st.params);
    Sample(o, o.statement(st), Coms(o, cfg, blocks), st.params)
  }

  ghost function HonestRecords(o: Oracles, cfg: Config, st: Statement, blocks: seq<Block>): seq<WireRecord>
    requires cfg.Valid()
  {
    RecordsOf(o, cfg, AllNamed(blocks), Mentioned(AllSchemas(st.descriptors)))
  }

  ghost function HonestProof(o: Oracles, cfg: Config, st: Statement, blocks: seq<Block>): AuditProof
    requires Setting(o, cfg, st, blocks)
  {
    var records := HonestRecords(o, cfg, st, blocks);
    AuditProof(o.statement(st), o.c0(o.statement(st), WireRoot(o, records)), records, Coms(o, cfg, blocks),
               HonestAll(o, cfg, st, blocks, PathsTo(o, records, |records|), SampleOf(o, cfg, st, blocks)))
  }

  // ------------------------------------------------------------------- prove

  function AddPaths(s: Selected, paths: map<string, Path<Bytes>>): Selected {
    s.(openings := map r | r in s.openings :: s.openings[r].(c0Path := PathIn(paths, s.openings[r].id)))
  }

  lemma PathsAdded(o: Oracles, cfg: Config, st: Statement, b: Block, root: Bytes, com: Bytes, paths: map<string, Path<Bytes>>)
    requires cfg.Valid() && BlockOk(b) && GoodColumns(o, st.params.rsColumns, cfg.N())
    ensures AddPaths(HonestSelected(o, cfg, st, b, root, com, map[]), paths) == HonestSelected(o, cfg, st, b, root, com, paths)
  {
    hide BlockOk, LocalOf, ChallengeOf, CommitOf, Column, OpenPath, ByRole;
    HonestSelectedIs(o, cfg, st, b, root, com, map[]);
    HonestSelectedIs(o, cfg, st, b, root, com, paths);
    hide HonestSelected;
    var a, s := AddPaths(HonestSelected(o, cfg, st, b, root, com, map[]), paths), HonestSelected(o, cfg, st, b, root, com, paths);
    assert a.openings == s.openings;
  }

  lemma SameWindow(p: AuditParams, w: nat, start: nat, i: nat)
    requires p.Ok() && start == Base(w, p.windowSize) && start <= i < start + p.windowSize
    ensures i / p.windowSize == w
  {
    QuotientUnique(i, p.windowSize, w, i - start);
  }

  lemma AtIs(o: Oracles, cfg: Config, st: Statement, blocks: seq<Block>, paths: map<string, Path<Bytes>>, i: nat, w: nat, start: nat)
    requires Setting(o, cfg, st, blocks) && i < |blocks| && start == Base(w, st.params.windowSize)
    requires start <= i < start + st.params.windowSize
    ensures HonestAt(o, cfg, st, blocks, paths, i)
            == HonestSelected(o, cfg, st, blocks[i], RootOr(o, Slice(Coms(o, cfg, blocks), start, st.params.windowSize)),
                              Coms(o, cfg, blocks)[i], paths)
  {
    SameWindow(st.params, w, start, i);
    assert RootAt(o, cfg, st, blocks, i) == RootOr(o, Slice(Coms(o, cfg, blocks), start, st.params.windowSize));
    hide HonestSelected, RootAt, RootOr, Slice, BlockOk, Describe, BlockCom, GoodColumns;
  }

  /** One window once it is committed: its sample, proved and opened. */
  method ProveWindow(o: Oracles, cfg: Config, st: Statement, blocks: seq<Block>, reg: Registry, w: nat, start: nat, n: nat,
                     coms: seq<Bytes>) returns (pending: seq<Selected>, ghost sel: seq<nat>)
    requires Setting(o, cfg, st, blocks) && start < st.params.totalBlocks && start == Base(w, st.params.windowSize)
    requires n == WindowLength(st.params, start) && start + n <= |blocks|
    requires Tracks(o, cfg, reg, AllNamed(blocks[..start + n]))
    requires coms == Coms(o, cfg, blocks)[start..start + n] == Slice(Coms(o, cfg, blocks), start, st.params.windowSize)
    ensures sel == Chosen(TagOf(o, o.statement(st), w, RootOr(o, coms)), start, n, SampleCount(st.params, n))
    ensures InBlocks(sel, |blocks|) && pending == HonestAll(o, cfg, st, blocks, map[], sel)
  {
    hide *;
    SettingParts(o, cfg, st, blocks);
    var root := AuditRoot(o, coms);
    var tag := TagOf(o, o.statement(st), w, root);
    var chosen := WindowSelection(tag, start, n, st.params);
    SampleCountExact(st.params, n);
    ChosenExact(tag, start, n, SampleCount(st.params, n));
    WithinIs(chosen, start, start + n);
    sel := chosen;
    pending := ProveSample(o, cfg, st, blocks, reg, w, start, n, coms, root, chosen);
  }

  lemma WithinIs(s: seq<nat>, lo: nat, hi: nat)
    requires Within(s, lo, hi)
    ensures forall i :: 0 <= i < |s| ==> lo <= s[i] < hi
  {}

  /** Each sampled block in turn. */
  method ProveSample(o: Oracles, cfg: Config, st: Statement, blocks: seq<Block>, reg: Registry, ghost w: nat, start: nat, n: nat,
                     coms: seq<Bytes>, root: Bytes, chosen: seq<nat>) returns (pending: seq<Selected>)
    requires Setting(o, cfg, st, blocks) && start == Base(w, st.params.windowSize)
    requires n <= st.params.windowSize && start + n <= |blocks| && Tracks(o, cfg, reg, AllNamed(blocks[..start + n]))
    requires coms == Coms(o, cfg, blocks)[start..start + n] == Slice(Coms(o, cfg, blocks), start, st.params.windowSize)
    requires root == RootOr(o, coms) && forall i :: 0 <= i < |chosen| ==> start <= chosen[i] < start + n
    ensures InBlocks(chosen, |blocks|) && pending == HonestAll(o, cfg, st, blocks, map[], chosen)
  {
    hide *;
    SettingParts(o, cfg, st, blocks);
    pending := [];
    for k := 0 to |chosen|
      invariant |pending| == k
      invariant forall i :: 0 <= i < k ==> pending[i] == HonestAt(o, cfg, st, blocks, map[], chosen[i])
    {
      var i := chosen[k];
      AtIs(o, cfg, st, blocks, map[], i, w, start);
      assert Coms(o, cfg, blocks)[i] == coms[i - start];
      var s := ProveBlock(o, cfg, st, reg, blocks[..start + n], i, blocks[i], root, coms[i - start]);
      pending := pending + [s];
    }
    AllIs(o, cfg, st, blocks, map[], chosen, pending);
  }

  lemma AllIs(o: Oracles, cfg: Config, st: Statement, blocks: seq<Block>, paths: map<string, Path<Bytes>>, sel: seq<nat>, s: seq<Selected>)
    requires Setting(o, cfg, st, blocks) && |s| == |sel|
    requires forall i :: 0 <= i < |sel| ==> sel[i] < |blocks| && s[i] == HonestAt(o, cfg, st, blocks, paths, sel[i])
    ensures InBlocks(sel, |blocks|) && s == HonestAll(o, cfg, st, blocks, paths, sel)
  {
    hide Setting, HonestAt;
  }

  lemma AllJoin(o: Oracles, cfg: Config, st: Statement, blocks: seq<Block>, paths: map<string, Path<Bytes>>, a: seq<nat>, b: seq<nat>)
    requires Setting(o, cfg, st, blocks) && InBlocks(a, |blocks|) && InBlocks(b, |blocks|)
    ensures InBlocks(a + b, |blocks|)
    ensures HonestAll(o, cfg, st, blocks, paths, a + b)
            == HonestAll(o, cfg, st, blocks, paths, a) + HonestAll(o, cfg, st, blocks, paths, b)
  {
    hide Setting, HonestAt;
  }

  // -------------------------------------------------------------- all the windows

  function Done(st: Statement, start: nat): nat {
    if start <= st.params.totalBlocks then start else if st.params.totalBlocks >= 0 then st.params.totalBlocks else 0
  }

  ghost function AllTags(o: Oracles, cfg: Config, st: Statement, blocks: seq<Block>): Tagger
    requires Setting(o, cfg, st, blocks)
  {
    TagsOf(o, o.statement(st), Coms(o, cfg, blocks), st.params)
  }

  /** Where the run stands before window w. */
  ghost predicate Progress(o: Oracles, cfg: Config, st: Statement, blocks: seq<Block>, w: nat, start: nat, reg: Registry,
                           coms: seq<Bytes>, pending: seq<Selected>, sel: seq<nat>)
    requires Setting(o, cfg, st, blocks)
  {
    && start == Base(w, st.params.windowSize) && Done(st, start) <= |blocks|
    && coms == Coms(o, cfg, blocks)[..Done(st, start)] && Tracks(o, cfg, reg, AllNamed(blocks[..Done(st, start)]))
    && InBlocks(sel, |blocks|) && pending == HonestAll(o, cfg, st, blocks, map[], sel)
    && sel + SelectFrom(st.params, AllTags(o, cfg, st, blocks), w, start)
       == SelectFrom(st.params, AllTags(o, cfg, st, blocks), 0, 0)
  }

  lemma ProgressStarts(o: Oracles, cfg: Config, st: Statement, blocks: seq<Block>)
    requires Setting(o, cfg, st, blocks)
    ensures Progress(o, cfg, st, blocks, 0, 0, map[], [], [], [])
  {
    hide SelectFrom, HonestAt, BlockCom, AllTags;
    BaseNext(0, st.params.windowSize);
    assert blocks[..0] == [] && Coms(o, cfg, blocks)[..0] == [];
    assert HonestAll(o, cfg, st, blocks, map[], []) == [];
    var s := SelectFrom(st.params, AllTags(o, cfg, st, blocks), 0, 0);
    assert [] + s == s;
  }

  lemma ProgressGoes(o: Oracles, cfg: Config, st: Statement, blocks: seq<Block>, w: nat, start: nat, n: nat, reg: Registry,
                     reg': Registry, coms: seq<Bytes>, window: seq<Bytes>, pending: seq<Selected>, more: seq<Selected>,
                     sel: seq<nat>, here: seq<nat>)
    requires Setting(o, cfg, st, blocks) && Progress(o, cfg, st, blocks, w, start, reg, coms, pending, sel)
    requires start < st.params.totalBlocks && n == WindowLength(st.params, start) && start + n <= |blocks|
    requires Tracks(o, cfg, reg', AllNamed(blocks[..start + n])) && window == Coms(o, cfg, blocks)[start..start + n]
    requires window == Slice(Coms(o, cfg, blocks), start, st.params.windowSize)
    requires here == Chosen(TagOf(o, o.statement(st), w, RootOr(o, window)), start, n, SampleCount(st.params, n))
    requires InBlocks(here, |blocks|) && more == HonestAll(o, cfg, st, blocks, map[], here)
    ensures Progress(o, cfg, st, blocks, w + 1, start + st.params.windowSize, reg', coms + window, pending + more, sel + here)
  {
    hide *;
    SettingParts(o, cfg, st, blocks);
    ParamsPositive(st);
    ProgressParts(o, cfg, st, blocks, w, start, reg, coms, pending, sel);
    var p, tags := st.params, AllTags(o, cfg, st, blocks);
    DoneNext(st, start);
    AllTagsIs(o, cfg, st, blocks);
    SampleStep(o, o.statement(st), Coms(o, cfg, blocks), p, w, start);
    AllJoin(o, cfg, st, blocks, map[], sel, here);
    assert sel + (here + SelectFrom(p, tags, w + 1, start + p.windowSize))
        == sel + here + SelectFrom(p, tags, w + 1, start + p.windowSize);
    assert Coms(o, cfg, blocks)[..start] + Coms(o, cfg, blocks)[start..start + n] == Coms(o, cfg, blocks)[..start + n];
    ProgressIs(o, cfg, st, blocks, w + 1, start + p.windowSize, reg', coms + window, pending + more, sel + here);
  }

  lemma DoneNext(st: Statement, start: nat)
    requires st.params.Ok() && start < st.params.totalBlocks
    ensures Done(st, start) == start && Done(st, start + st.params.windowSize) == start + WindowLength(st.params, start)
  {}

  lemma AllTagsIs(o: Oracles, cfg: Config, st: Statement, blocks: seq<Block>)
    requires Setting(o, cfg, st, blocks)
    ensures AllTags(o, cfg, st, blocks) == TagsOf(o, o.statement(st), Coms(o, cfg, blocks), st.params)
  {
    hide TagsOf, Coms;
  }

  lemma ProgressParts(o: Oracles, cfg: Config, st: Statement, blocks: seq<Block>, w: nat, start: nat, reg: Registry,
                      coms: seq<Bytes>, pending: seq<Selected>, sel: seq<nat>)
    requires Setting(o, cfg, st, blocks) && Progress(o, cfg, st, blocks, w, start, reg, coms, pending, sel)
    ensures start == Base(w, st.params.windowSize) && Done(st, start) <= |blocks|
    ensures coms == Coms(o, cfg, blocks)[..Done(st, start)] && Tracks(o, cfg, reg, AllNamed(blocks[..Done(st, start)]))
    ensures InBlocks(sel, |blocks|) && pending == HonestAll(o, cfg, st, blocks, map[], sel)
    ensures sel + SelectFrom(st.params, AllTags(o, cfg, st, blocks), w, start)
            == SelectFrom(st.params, AllTags(o, cfg, st, blocks), 0, 0)
  {
    hide Setting, Tracks, AllNamed, HonestAll, SelectFrom, AllTags, Coms, Base, Done;
  }

  lemma ProgressIs(o: Oracles, cfg: Config, st: Statement, blocks: seq<Block>, w: nat, start: nat, reg: Registry,
                   coms: seq<Bytes>, pending: seq<Selected>, sel: seq<nat>)
    requires Setting(o, cfg, st, blocks)
    requires start == Base(w, st.params.windowSize) && Done(st, start) <= |blocks|
    requires coms == Coms(o, cfg, blocks)[..Done(st, start)] && Tracks(o, cfg, reg, AllNamed(blocks[..Done(st, start)]))
    requires InBlocks(sel, |blocks|) && pending == HonestAll(o, cfg, st, blocks, map[], sel)
    requires sel + SelectFrom(st.params, AllTags(o, cfg, st, blocks), w, start)
             == SelectFrom(st.params, AllTags(o, cfg, st, blocks), 0, 0)
    ensures Progress(o, cfg, st, blocks, w, start, reg, coms, pending, sel)
  {
    hide Setting, Tracks, AllNamed, HonestAll, SelectFrom, AllTags, Coms, Base, Done;
  }

  lemma ProgressEnds(o: Oracles, cfg: Config, st: Statement, blocks: seq<Block>, w: nat, start: nat, reg: Registry,
                     coms: seq<Bytes>, pending: seq<Selected>, sel: seq<nat>)
    requires Setting(o, cfg, st, blocks) && Progress(o, cfg, st, blocks, w, start, reg, coms, pending, sel)
    requires start >= st.params.totalBlocks
    ensures coms == Coms(o, cfg, blocks) && Tracks(o, cfg, reg, AllNamed(blocks))
    ensures pending == HonestAll(o, cfg, st, blocks, map[], SampleOf(o, cfg, st, blocks))
  {
    hide *;
    SettingParts(o, cfg, st, blocks);
    ProgressParts(o, cfg, st, blocks, w, start, reg, coms, pending, sel);
    AllDone(o, cfg, st, blocks, start);
    SelectionEnds(st.params, AllTags(o, cfg, st, blocks), w, start);
    assert blocks[..|blocks|] == blocks && Coms(o, cfg, blocks)[..|blocks|] == Coms(o, cfg, blocks);
    assert sel + [] == sel;
  }

  lemma AllDone(o: Oracles, cfg: Config, st: Statement, blocks: seq<Block>, start: nat)
    requires Setting(o, cfg, st, blocks) && start >= st.params.totalBlocks
    ensures Done(st, start) == |blocks|
    ensures SampleOf(o, cfg, st, blocks) == SelectFrom(st.params, AllTags(o, cfg, st, blocks), 0, 0)
  {
    hide SelectFrom, TagsOf, Coms;
  }

  lemma WindowSlice(o: Oracles, cfg: Config, st: Statement, blocks: seq<Block>, start: nat)
    requires Setting(o, cfg, st, blocks) && start < st.params.totalBlocks
    ensures var n := WindowLength(st.params, start); var c := Coms(o, cfg, blocks);
      start + n <= |blocks| && c[start..start + n] == Slice(c, start, st.params.windowSize) && Done(st, start) == start
      && 0 < n <= st.params.windowSize
  {
    hide BlockCom, BlockOk, Describe, GoodColumns;
  }

  /** Commit a window, take its sample, prove and open it, go on. It stops early exactly when some
      wire is bound twice or is too wide. */
  method ProveWindows(o: Oracles, cfg: Config, L: Matrix, st: Statement, blocks: seq<Block>)
    returns (ok: bool, reg: Registry, coms: seq<Bytes>, pending: seq<Selected>)
    requires Setting(o, cfg, st, blocks) && IsLagrangeMatrix(cfg, L)
    ensures ok <==> GoodWires(cfg, AllNamed(blocks))
    ensures ok ==> coms == Coms(o, cfg, blocks) && Tracks(o, cfg, reg, AllNamed(blocks))
    ensures ok ==> pending == HonestAll(o, cfg, st, blocks, map[], SampleOf(o, cfg, st, blocks))
  {
    hide *;
    SettingParts(o, cfg, st, blocks);
    ParamsPositive(st);
    reg, coms, pending, ok := map[], [], [], true;
    ghost var sel: seq<nat> := [];
    var w, start := 0, 0;
    ProgressStarts(o, cfg, st, blocks);
    while start < st.params.totalBlocks
      invariant Progress(o, cfg, st, blocks, w, start, reg, coms, pending, sel)
      decreases st.params.totalBlocks - start
    {
      WindowSlice(o, cfg, st, blocks, start);
      ProgressParts(o, cfg, st, blocks, w, start, reg, coms, pending, sel);
      var n := WindowLength(st.params, start);
      var grown, window, more;
      ghost var here;
      ok, grown, window := CommitWindow(o, cfg, L, reg, blocks, start, n);
      if !ok { return; }
      more, here := ProveWindow(o, cfg, st, blocks, grown, w, start, n, window);
      ProgressGoes(o, cfg, st, blocks, w, start, n, reg, grown, coms, window, pending, more, sel, here);
      reg, coms, pending, sel := grown, coms + window, pending + more, sel + here;
      w, start := w + 1, start + st.params.windowSize;
    }
    ProgressEnds(o, cfg, st, blocks, w, start, reg, coms, pending, sel);
    TracksGood(o, cfg, reg, AllNamed(blocks));
  }

  lemma ParamsPositive(st: Statement)
    requires st.params.Ok()
    ensures st.params.windowSize > 0 && st.params.totalBlocks > 0
  {}

  datatype AuditResult = Refused | Audited(proof: AuditProof)

  lemma {:induction false} SchemasAreNamed(blocks: seq<Block>)
    ensures AllSchemas(DescribeAll(blocks)) == Schemas(AllNamed(blocks))
  {
    hide Widths;
    if blocks != [] {
      var n := |blocks| - 1;
      SchemasAreNamed(blocks[..n]);
      assert DescribeAll(blocks)[..n] == DescribeAll(blocks[..n]);
      assert Schemas(AllNamed(blocks[..n]) + blocks[n].wires) == Schemas(AllNamed(blocks[..n])) + Schemas(blocks[n].wires);
    }
  }

  lemma MentionedAreNamed(blocks: seq<Block>)
    ensures var order := Mentioned(AllSchemas(DescribeAll(blocks)));
      forall k :: 0 <= k < |order| ==> HasId(AllNamed(blocks), order[k])
  {
    var ss, ws := AllSchemas(DescribeAll(blocks)), AllNamed(blocks);
    SchemasAreNamed(blocks);
    MentionedIs(ss);
    hide Widths, AllSchemas, AllNamed, DescribeAll, Mentioned;
    var order := Mentioned(ss);
    forall k | 0 <= k < |order| ensures HasId(ws, order[k]) {
      assert order[k] in order;
      var i :| 0 <= i < |ss| && ss[i].id == order[k];
      assert ws[i].wire.id == order[k];
    }
  }

  /** prove: refused for bad parameters, too few columns, the wrong blocks, a wire bound to two
      messages or too wide to encode, and otherwise the honest proof. */
  method Prove(o: Oracles, cfg: Config, L: Matrix, st: Statement, blocks: seq<Block>) returns (r: AuditResult)
    requires cfg.Valid() && IsLagrangeMatrix(cfg, L) && forall i :: 0 <= i < |blocks| ==> BlockOk(blocks[i])
    requires st.params.rsColumns <= cfg.N() ==> GoodColumns(o, st.params.rsColumns, cfg.N())
    ensures r.Audited? <==> Provable(cfg, st, blocks)
    ensures r.Audited? ==> Setting(o, cfg, st, blocks) && r.proof == HonestProof(o, cfg, st, blocks)
    ensures r.Audited? ==> st.params.Ok() && |r.proof.blockComs| == st.params.totalBlocks == |blocks|
    ensures r.Audited? ==> ProvedSample(o, st, blocks, r.proof)
  {
    hide BlockOk, GoodColumns, IsLagrangeMatrix, GoodWires, AllNamed, Tracks, HonestAll, SampleOf, HonestRecords, WireRoot,
      RecordsOf, HasId, PathsTo, Mentioned, AllSchemas, Describe;
    if !st.params.Ok() || cfg.N() < st.params.rsColumns || |blocks| != st.params.totalBlocks {
      return Refused;
    }
    if DescribeAll(blocks) != st.descriptors {
      return Refused;
    }
    var ok, reg, coms, pending := ProveWindows(o, cfg, L, st, blocks);
    if !ok {
      return Refused;
    }
    MentionedAreNamed(blocks);
    RecordsAre(o, cfg, st, blocks);
    var records := BuildRecords(o, cfg, reg, AllNamed(blocks), Mentioned(AllSchemas(st.descriptors)));
    WireRootIs(o, records);
    var root := AuditRoot(o, WireLeaves(o, records));
    var paths := AllPaths(o, records);
    var selected := FinishAll(o, cfg, st, blocks, paths, SampleOf(o, cfg, st, blocks), pending);
    r := Audited(AuditProof(o.statement(st), o.c0(o.statement(st), root), records, coms, selected));
    SampleProved(o, cfg, st, blocks);
  }

  /** The proved blocks are those the commitments decide window by window, each under the challenge of its
      own window's root. */
  ghost predicate ProvedSample(o: Oracles, st: Statement, blocks: seq<Block>, proof: AuditProof)
    requires st.params.Ok() && |proof.blockComs| == st.params.totalBlocks == |blocks|
  {
    exists sel: seq<nat> :: SampledByRoots(o, o.statement(st), proof.blockComs, st.params, sel) && |sel| == |proof.selected|
      && forall k :: 0 <= k < |sel| ==> sel[k] < |blocks| && ProvedAt(o, st, blocks, proof, sel[k], proof.selected[k])
  }

  ghost predicate ProvedAt(o: Oracles, st: Statement, blocks: seq<Block>, proof: AuditProof, i: nat, s: Selected)
    requires st.params.Ok() && i < |blocks|
  {
    s.index == blocks[i].index
    && ChallengedByRoot(o, o.statement(st), proof.blockComs, st.params, i, blocks[i].index, s.challenge)
  }

  lemma SampleProved(o: Oracles, cfg: Config, st: Statement, blocks: seq<Block>)
    requires Setting(o, cfg, st, blocks) && st.params.Ok() && |blocks| == st.params.totalBlocks
    requires |HonestProof(o, cfg, st, blocks).blockComs| == st.params.totalBlocks
    ensures ProvedSample(o, st, blocks, HonestProof(o, cfg, st, blocks))
  {
    var sel, proof := SampleOf(o, cfg, st, blocks), HonestProof(o, cfg, st, blocks);
    SampleIsByRoots(o, o.statement(st), proof.blockComs, st.params);
    hide Sample, SampledByRoots, Setting, HonestAt, ProvedAt, Coms, HonestRecords, PathsTo, WireRoot;
    var records := HonestRecords(o, cfg, st, blocks);
    forall k | 0 <= k < |sel| ensures sel[k] < |blocks| && ProvedAt(o, st, blocks, proof, sel[k], proof.selected[k]) {
      AtIsProved(o, cfg, st, blocks, PathsTo(o, records, |records|), sel[k], proof);
    }
  }

  lemma AtIsProved(o: Oracles, cfg: Config, st: Statement, blocks: seq<Block>, paths: map<string, Path<Bytes>>, i: nat, proof: AuditProof)
    requires Setting(o, cfg, st, blocks) && st.params.Ok() && i < |blocks| && proof.blockComs == Coms(o, cfg, blocks)
    ensures ProvedAt(o, st, blocks, proof, i, HonestAt(o, cfg, st, blocks, paths, i))
  {
    SettingParts(o, cfg, st, blocks);
    hide Setting, Openings, LocalOf, BlockOk, WindowRoot, Coms, GoodColumns, DescribeAll, ChallengedByRoot;
    ChallengeByRoot(o, o.statement(st), proof.blockComs, st.params, i, blocks[i].index);
  }

  ghost predicate Provable(cfg: Config, st: Statement, blocks: seq<Block>) {
    && st.params.Ok() && st.params.rsColumns <= cfg.N() && |blocks| == st.params.totalBlocks
    && st.descriptors == DescribeAll(blocks) && GoodWires(cfg, AllNamed(blocks))
  }

  lemma RecordsAre(o: Oracles, cfg: Config, st: Statement, blocks: seq<Block>)
    requires cfg.Valid()
    ensures HonestRecords(o, cfg, st, blocks) == RecordsOf(o, cfg, AllNamed(blocks), Mentioned(AllSchemas(st.descriptors)))
  {}

  /** The C0 paths, filled in once all wires are known. */
  method FinishAll(o: Oracles, cfg: Config, st: Statement, blocks: seq<Block>, paths: map<string, Path<Bytes>>, ghost sel: seq<nat>,
                   pending: seq<Selected>) returns (s: seq<Selected>)
    requires Setting(o, cfg, st, blocks) && InBlocks(sel, |blocks|) && pending == HonestAll(o, cfg, st, blocks, map[], sel)
    ensures s == HonestAll(o, cfg, st, blocks, paths, sel)
  {
    hide *;
    SettingParts(o, cfg, st, blocks);
    InBlocksIs(sel, |blocks|);
    s := [];
    for k := 0 to |pending|
      invariant |s| == k && forall i :: 0 <= i < k ==> s[i] == HonestAt(o, cfg, st, blocks, paths, sel[i])
    {
      AtPaths(o, cfg, st, blocks, paths, sel[k]);
      s := s + [AddPaths(pending[k], paths)];
    }
    AllIs(o, cfg, st, blocks, paths, sel, s);
  }

  lemma InBlocksIs(sel: seq<nat>, n: nat)
    ensures InBlocks(sel, n) <==> forall k :: 0 <= k < |sel| ==> sel[k] < n
  {}

  lemma AtPaths(o: Oracles, cfg: Config, st: Statement, blocks: seq<Block>, paths: map<string, Path<Bytes>>, i: nat)
    requires Setting(o, cfg, st, blocks) && i < |blocks|
    ensures AddPaths(HonestAt(o, cfg, st, blocks, map[], i), paths) == HonestAt(o, cfg, st, blocks, paths, i)
  {
    hide HonestSelected, AddPaths, BlockOk, RootAt, BlockCom, Describe, GoodColumns, Setting;
    SettingParts(o, cfg, st, blocks);
    PathsAdded(o, cfg, st, blocks[i], RootAt(o, cfg, st, blocks, i), Coms(o, cfg, blocks)[i], paths);
  }
}
