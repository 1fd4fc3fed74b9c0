/** prove of layergkr/sampled_audit.py: one registry of named wires filled window by window, each
    window's sample proved and opened before the next. The run succeeds exactly when no wire is bound
    twice, and what it returns is accepted exactly when the sampled blocks' own arguments are. */
module AuditProver {
  import opened NumberTheory
  import opened Field
  import opened Polynomial
  import opened Domain
  import opened Rows
  import opened Rs
  import opened Merkle
  import opened Commit
  import opened Seam
  import opened Prover
  import opened AuditRelation
  import opened AuditPlan
  import opened AuditLocal
  import opened AuditBlocks
  import opened AuditVerifier

  // ---------------------------------------------------------------- the registry

  /** The commitment to a wire's messages: there is only one. */
  ghost function CommitOf(h: Hash<Bytes>, cfg: Config, messages: Matrix): (c: Commitment<Bytes>)
    requires cfg.Valid()
    ensures Built(h, cfg, c) && c.rows == Encoded(cfg, messages)
  {
    WordSizes(cfg, messages);
    var rows := Encoded(cfg, messages);
    var leaves := Commit.Leaves(h, rows, cfg.N());
    Commitment(rows, Levels(h.node, leaves), TreeRoot(h.node, leaves))
  }

  lemma CommitIs(h: Hash<Bytes>, cfg: Config, c: Commitment<Bytes>, messages: Matrix)
    requires cfg.Valid() && Built(h, cfg, c) && c.rows == Encoded(cfg, messages)
    ensures c == CommitOf(h, cfg, messages)
  {
    hide Encoded;
  }

  datatype Entry = Entry(record: WireRecord, commit: Commitment<Bytes>, messages: Matrix)
  type Registry = map<string, Entry>

  ghost function RecordFor(o: Oracles, cfg: Config, w: Wire): WireRecord
    requires cfg.Valid()
  {
    WireRecord(w.id, CommitOf(o.h, cfg, w.messages).root, Widths(w.messages))
  }

  ghost predicate EntryOk(o: Oracles, cfg: Config, id: string, e: Entry)
    requires cfg.Valid()
  {
    && e.commit == CommitOf(o.h, cfg, e.messages) && e.record == RecordFor(o, cfg, Wire(id, e.messages))
    && Commit.AllFit(e.messages, cfg.ELL)
  }

  /** Every wire of every block, in order. */
  function AllNamed(blocks: seq<Block>): seq<Named> {
    if blocks == [] then [] else AllNamed(blocks[..|blocks| - 1]) + blocks[|blocks| - 1].wires
  }

  /** One id, one list of messages; and every message fits a codeword. */
  ghost predicate GoodWires(cfg: Config, ws: seq<Named>) {
    && (forall i, k :: 0 <= i < |ws| && 0 <= k < |ws| && ws[i].wire.id == ws[k].wire.id ==> ws[i].wire.messages == ws[k].wire.messages)
    && forall i :: 0 <= i < |ws| ==> Commit.AllFit(ws[i].wire.messages, cfg.ELL)
  }

  /** The registry holds the wires seen so far and no others. */
  ghost predicate Tracks(o: Oracles, cfg: Config, reg: Registry, seen: seq<Named>)
    requires cfg.Valid()
  {
    && (forall id <- reg :: EntryOk(o, cfg, id, reg[id]) && exists k :: 0 <= k < |seen| && seen[k].wire.id == id)
    && forall k :: 0 <= k < |seen| ==> seen[k].wire.id in reg && reg[seen[k].wire.id].messages == seen[k].wire.messages
  }

  lemma TracksGood(o: Oracles, cfg: Config, reg: Registry, seen: seq<Named>)
    requires cfg.Valid() && Tracks(o, cfg, reg, seen)
    ensures GoodWires(cfg, seen)
  {
    hide CommitOf;
    forall i | 0 <= i < |seen| ensures Commit.AllFit(seen[i].wire.messages, cfg.ELL) {
      assert EntryOk(o, cfg, seen[i].wire.id, reg[seen[i].wire.id]);
    }
  }

  lemma BadPrefix(cfg: Config, ws: seq<Named>, more: seq<Named>)
    requires !GoodWires(cfg, ws)
    ensures !GoodWires(cfg, ws + more)
  {
    var all := ws + more;
    if GoodWires(cfg, all) {
      forall i | 0 <= i < |ws| ensures Commit.AllFit(ws[i].wire.messages, cfg.ELL) { assert all[i] == ws[i]; }
      forall i, k | 0 <= i < |ws| && 0 <= k < |ws| && ws[i].wire.id == ws[k].wire.id
        ensures ws[i].wire.messages == ws[k].wire.messages
      {
        assert all[i] == ws[i] && all[k] == ws[k];
      }
      assert false;
    }
  }

  lemma TrackKnown(o: Oracles, cfg: Config, reg: Registry, seen: seq<Named>, n: Named)
    requires cfg.Valid() && Tracks(o, cfg, reg, seen) && n.wire.id in reg
    ensures reg[n.wire.id].messages == n.wire.messages ==> Tracks(o, cfg, reg, seen + [n])
    ensures reg[n.wire.id].messages != n.wire.messages ==> !GoodWires(cfg, seen + [n])
  {
    hide EntryOk;
    var all := seen + [n];
    forall id | id in reg ensures exists k :: 0 <= k < |all| && all[k].wire.id == id {
      var k :| 0 <= k < |seen| && seen[k].wire.id == id;
      assert all[k].wire.id == id;
    }
    var k :| 0 <= k < |seen| && seen[k].wire.id == n.wire.id;
    assert all[k] == seen[k] && all[|seen|] == n;
  }

  lemma TrackNew(o: Oracles, cfg: Config, reg: Registry, seen: seq<Named>, n: Named, e: Entry)
    requires cfg.Valid() && Tracks(o, cfg, reg, seen) && n.wire.id !in reg
    requires EntryOk(o, cfg, n.wire.id, e) && e.messages == n.wire.messages
    ensures Tracks(o, cfg, reg[n.wire.id := e], seen + [n])
  {
    hide EntryOk;
    var all, grown := seen + [n], reg[n.wire.id := e];
    forall id | id in grown ensures EntryOk(o, cfg, id, grown[id]) && exists k :: 0 <= k < |all| && all[k].wire.id == id {
      if id in reg {
        var k :| 0 <= k < |seen| && seen[k].wire.id == id;
        assert all[k].wire.id == id;
      } else {
        assert all[|seen|].wire.id == id;
      }
    }
  }

  /** One wire: committed the first time it is named, refused if it comes back different or is too
      wide for a codeword. */
  method CommitWire(o: Oracles, cfg: Config, L: Matrix, reg: Registry, ghost seen: seq<Named>, n: Named)
    returns (ok: bool, grown: Registry)
    requires cfg.Valid() && IsLagrangeMatrix(cfg, L) && Tracks(o, cfg, reg, seen)
    ensures if ok then Tracks(o, cfg, grown, seen + [n]) else !GoodWires(cfg, seen + [n])
  {
    hide *;
    var id := n.wire.id;
    grown, ok := reg, true;
    if id in reg {
      TrackKnown(o, cfg, reg, seen, n);
      ok := reg[id].messages == n.wire.messages;
    } else {
      var c := FromMessages(o.h, cfg, L, n.wire.messages);
      if c.ValueError? {
        TooWide(cfg, seen, n);
        return false, reg;
      }
      CommitIs(o.h, cfg, c.value, n.wire.messages);
      var e := Entry(WireRecord(id, c.value.root, Widths(n.wire.messages)), c.value, n.wire.messages);
      EntryIs(o, cfg, id, e);
      TrackNew(o, cfg, reg, seen, n, e);
      grown := reg[id := e];
    }
  }

  lemma TooWide(cfg: Config, seen: seq<Named>, n: Named)
    requires !Commit.AllFit(n.wire.messages, cfg.ELL)
    ensures !GoodWires(cfg, seen + [n])
  {
    assert (seen + [n])[|seen|] == n;
  }

  lemma EntryIs(o: Oracles, cfg: Config, id: string, e: Entry)
    requires cfg.Valid() && Commit.AllFit(e.messages, cfg.ELL) && e.commit == CommitOf(o.h, cfg, e.messages)
    requires e.record == WireRecord(id, e.commit.root, Widths(e.messages))
    ensures EntryOk(o, cfg, id, e)
  {
    hide CommitOf;
  }

  // ------------------------------------------------------------ block commitments

  /** {role: root} */
  ghost function WireRoots(o: Oracles, cfg: Config, wires: seq<Named>): map<string, Bytes>
    requires cfg.Valid()
  {
    if wires == [] then map[]
    else
      var n := |wires| - 1;
      WireRoots(o, cfg, wires[..n])[wires[n].role := RecordFor(o, cfg, wires[n].wire).root]
  }

  ghost function BlockCom(o: Oracles, cfg: Config, b: Block): Bytes
    requires cfg.Valid()
  {
    o.block(b.index, Describe(b), WireRoots(o, cfg, b.wires))
  }

  ghost function Coms(o: Oracles, cfg: Config, blocks: seq<Block>): (c: seq<Bytes>)
    requires cfg.Valid()
    ensures |c| == |blocks| && forall i :: 0 <= i < |c| ==> c[i] == BlockCom(o, cfg, blocks[i])
  {
    seq(|blocks|, i requires 0 <= i < |blocks| => BlockCom(o, cfg, blocks[i]))
  }

  lemma Tracked(o: Oracles, cfg: Config, reg: Registry, seen: seq<Named>, k: nat)
    requires cfg.Valid() && Tracks(o, cfg, reg, seen) && k < |seen|
    ensures seen[k].wire.id in reg && reg[seen[k].wire.id].messages == seen[k].wire.messages
    ensures reg[seen[k].wire.id].record == RecordFor(o, cfg, seen[k].wire)
    ensures reg[seen[k].wire.id].commit == CommitOf(o.h, cfg, seen[k].wire.messages)
  {
    hide CommitOf;
    var w := seen[k].wire;
    assert EntryOk(o, cfg, w.id, reg[w.id]);
    assert Wire(w.id, w.messages) == w;
  }

  method CommitBlock(o: Oracles, cfg: Config, L: Matrix, reg: Registry, ghost seen: seq<Named>, b: Block)
    returns (ok: bool, grown: Registry, com: Bytes)
    requires cfg.Valid() && IsLagrangeMatrix(cfg, L) && Tracks(o, cfg, reg, seen)
    ensures if ok then Tracks(o, cfg, grown, seen + b.wires) && com == BlockCom(o, cfg, b) else !GoodWires(cfg, seen + b.wires)
  {
    hide IsLagrangeMatrix, Tracks, GoodWires, CommitOf, RecordFor, Describe;
    grown, ok, com := reg, true, [];
    var roots: map<string, Bytes> := map[];
    assert seen + b.wires[..0] == seen;
    for k := 0 to |b.wires|
      invariant Tracks(o, cfg, grown, seen + b.wires[..k]) && roots == WireRoots(o, cfg, b.wires[..k])
    {
      assert seen + b.wires[..k] + [b.wires[k]] == seen + b.wires[..k + 1] && b.wires[..k + 1][..k] == b.wires[..k];
      ok, grown := CommitWire(o, cfg, L, grown, seen + b.wires[..k], b.wires[k]);
      if !ok {
        BadPrefix(cfg, seen + b.wires[..k + 1], b.wires[k + 1..]);
        assert seen + b.wires[..k + 1] + b.wires[k + 1..] == seen + b.wires;
        return;
      }
      ghost var now := seen + b.wires[..k + 1];
      assert now[|seen| + k] == b.wires[k];
      Tracked(o, cfg, grown, now, |seen| + k);
      roots := roots[b.wires[k].role := grown[b.wires[k].wire.id].record.root];
    }
    assert b.wires[..|b.wires|] == b.wires;
    com := o.block(b.index, Describe(b), roots);
  }

  lemma {:induction false} NamedPrefix(blocks: seq<Block>, n: nat)
    requires n <= |blocks|
    ensures exists rest :: AllNamed(blocks) == AllNamed(blocks[..n]) + rest
    decreases |blocks|
  {
    if n == |blocks| {
      assert blocks[..n] == blocks && AllNamed(blocks) == AllNamed(blocks[..n]) + [];
    } else {
      var m := |blocks| - 1;
      NamedPrefix(blocks[..m], n);
      assert blocks[..m][..n] == blocks[..n];
      var rest :| AllNamed(blocks[..m]) == AllNamed(blocks[..n]) + rest;
      assert AllNamed(blocks) == AllNamed(blocks[..n]) + (rest + blocks[m].wires);
    }
  }

  lemma BadBlocks(cfg: Config, blocks: seq<Block>, n: nat)
    requires n <= |blocks| && !GoodWires(cfg, AllNamed(blocks[..n]))
    ensures !GoodWires(cfg, AllNamed(blocks))
  {
    NamedPrefix(blocks, n);
    var rest :| AllNamed(blocks) == AllNamed(blocks[..n]) + rest;
    hide GoodWires, AllNamed;
    BadPrefix(cfg, AllNamed(blocks[..n]), rest);
  }

  lemma NamedSnoc(blocks: seq<Block>, n: nat)
    requires n < |blocks|
    ensures AllNamed(blocks[..n + 1]) == AllNamed(blocks[..n]) + blocks[n].wires
  {
    assert blocks[..n + 1][..n] == blocks[..n];
  }

  /** The blocks of one window, committed in order. */
  method CommitWindow(o: Oracles, cfg: Config, L: Matrix, reg: Registry, blocks: seq<Block>, start: nat, n: nat)
    returns (ok: bool, grown: Registry, coms: seq<Bytes>)
    requires cfg.Valid() && IsLagrangeMatrix(cfg, L) && start + n <= |blocks| && Tracks(o, cfg, reg, AllNamed(blocks[..start]))
    ensures ok ==> Tracks(o, cfg, grown, AllNamed(blocks[..start + n])) && coms == Coms(o, cfg, blocks)[start..start + n]
    ensures !ok ==> !GoodWires(cfg, AllNamed(blocks))
  {
    hide IsLagrangeMatrix, Tracks, GoodWires, AllNamed, BlockCom;
    grown, ok, coms := reg, true, [];
    for k := 0 to n
      invariant Tracks(o, cfg, grown, AllNamed(blocks[..start + k])) && coms == Coms(o, cfg, blocks)[start..start + k]
    {
      NamedSnoc(blocks, start + k);
      var com;
      ok, grown, com := CommitBlock(o, cfg, L, grown, AllNamed(blocks[..start + k]), blocks[start + k]);
      if !ok {
        BadBlocks(cfg, blocks, start + k + 1);
        return;
      }
      coms := coms + [com];
    }
  }

  // ------------------------------------------------------------- a selected block

  function PathIn(paths: map<string, Path<Bytes>>, id: string): Path<Bytes> {
    if id in paths then paths[id] else []
  }

  ghost function OpeningOf(o: Oracles, cfg: Config, w: Wire, columns: seq<int>, path: Path<Bytes>): WireOpening
    requires cfg.Valid() && InRange(cfg, columns)
  {
    var c := CommitOf(o.h, cfg, w.messages);
    WireOpening(w.id, w.messages, columns,
                seq(|columns|, k requires 0 <= k < |columns| => Column(c.rows, cfg.N(), columns[k])),
                seq(|columns|, k requires 0 <= k < |columns| => OpenPath(o.h, cfg, c, columns[k])), path)
  }

  ghost function Openings(o: Oracles, cfg: Config, m: map<string, Wire>, columns: seq<int>, paths: map<string, Path<Bytes>>)
    : (os: map<string, WireOpening>)
    requires cfg.Valid() && InRange(cfg, columns)
    ensures os.Keys == m.Keys && forall r <- os :: os[r] == OpeningOf(o, cfg, m[r], columns, PathIn(paths, m[r].id))
  {
    map r | r in m :: OpeningOf(o, cfg, m[r], columns, PathIn(paths, m[r].id))
  }

  lemma GoodRange(o: Oracles, cfg: Config, q: int, seed: Bytes)
    requires GoodColumns(o, q, cfg.N())
    ensures InRange(cfg, o.columns(seed)) && |o.columns(seed)| == q && NoDuplicates(o.columns(seed))
  {}

  function ChallengeOf(o: Oracles, st: Statement, b: Block, root: Bytes): Bytes {
    o.challenge(o.statement(st), root, b.index)
  }

  ghost function LocalOf(o: Oracles, st: Statement, b: Block, root: Bytes, com: Bytes): Local
    requires BlockOk(b)
  {
    HonestLocal(b.kind, MessagesIn(ByRole(b.wires)), Coined(o.field, o.rounds, ChallengeOf(o, st, b, root), b.index, com))
  }

  /** Challenge, local proof, digest, and only then the columns. */
  ghost function HonestSelected(o: Oracles, cfg: Config, st: Statement, b: Block, root: Bytes, com: Bytes,
                                paths: map<string, Path<Bytes>>): Selected
    requires cfg.Valid() && BlockOk(b) && GoodColumns(o, st.params.rsColumns, cfg.N())
  {
    var challenge := ChallengeOf(o, st, b, root);
    var local := LocalOf(o, st, b, root, com);
    var digest := o.local(b.index, challenge, local, ByRole(b.wires));
    var seed := o.columnSeed(o.statement(st), b.index, digest);
    GoodRange(o, cfg, st.params.rsColumns, seed);
    Selected(b.index, challenge, local, Openings(o, cfg, ByRole(b.wires), o.columns(seed), paths), digest)
  }

  method OpenWire(o: Oracles, cfg: Config, e: Entry, ghost w: Wire, columns: seq<int>) returns (op: WireOpening)
    requires cfg.Valid() && InRange(cfg, columns) && e.commit == CommitOf(o.h, cfg, w.messages)
    requires e.record.id == w.id && e.messages == w.messages
    ensures op == OpeningOf(o, cfg, w, columns, [])
  {
    hide CommitOf, Column, OpenPath;
    var values: Matrix, paths: seq<Path<Bytes>> := [], [];
    for k := 0 to |columns|
      invariant |values| == |paths| == k
      invariant forall i :: 0 <= i < k ==> values[i] == Column(e.commit.rows, cfg.N(), columns[i])
      invariant forall i :: 0 <= i < k ==> paths[i] == OpenPath(o.h, cfg, e.commit, columns[i])
    {
      var v, p := Open(o.h, cfg, e.commit, columns[k]);
      values, paths := values + [v], paths + [p];
    }
    op := WireOpening(e.record.id, e.messages, columns, values, paths, []);
  }

  lemma OpeningsSnoc(o: Oracles, cfg: Config, wires: seq<Named>, k: nat, columns: seq<int>)
    requires cfg.Valid() && InRange(cfg, columns) && k < |wires|
    ensures Openings(o, cfg, ByRole(wires[..k + 1]), columns, map[])
            == Openings(o, cfg, ByRole(wires[..k]), columns, map[])[wires[k].role := OpeningOf(o, cfg, wires[k].wire, columns, [])]
  {
    hide OpeningOf;
    assert wires[..k + 1][..k] == wires[..k];
  }

  method OpenBlock(o: Oracles, cfg: Config, reg: Registry, ghost seen: seq<Named>, ghost at: nat, wires: seq<Named>, columns: seq<int>)
    returns (os: map<string, WireOpening>)
    requires cfg.Valid() && InRange(cfg, columns) && Tracks(o, cfg, reg, seen)
    requires at + |wires| <= |seen| && seen[at..at + |wires|] == wires
    ensures os == Openings(o, cfg, ByRole(wires), columns, map[])
  {
    hide CommitOf, Tracks, OpeningOf, RecordFor;
    os := map[];
    for k := 0 to |wires|
      invariant os == Openings(o, cfg, ByRole(wires[..k]), columns, map[])
    {
      assert seen[at + k] == wires[k];
      Tracked(o, cfg, reg, seen, at + k);
      RecordId(o, cfg, wires[k].wire);
      var op := OpenWire(o, cfg, reg[wires[k].wire.id], wires[k].wire, columns);
      OpeningsSnoc(o, cfg, wires, k, columns);
      os := os[wires[k].role := op];
    }
    assert wires[..|wires|] == wires;
  }

  lemma RecordId(o: Oracles, cfg: Config, w: Wire)
    requires cfg.Valid()
    ensures RecordFor(o, cfg, w).id == w.id
  {}

  /** A block's wires, somewhere in the list of all. */
  lemma {:induction false} BlockIsIn(blocks: seq<Block>, i: nat) returns (at: nat)
    requires i < |blocks|
    ensures at + |blocks[i].wires| <= |AllNamed(blocks)|
    ensures AllNamed(blocks)[at..at + |blocks[i].wires|] == blocks[i].wires
  {
    var n := |blocks| - 1;
    var before := AllNamed(blocks[..n]);
    if i == n {
      at := |before|;
      assert (before + blocks[n].wires)[at..at + |blocks[n].wires|] == blocks[n].wires;
    } else {
      at := BlockIsIn(blocks[..n], i);
      assert AllNamed(blocks)[at..at + |blocks[i].wires|] == before[at..at + |blocks[i].wires|];
    }
  }

  method ProveBlock(o: Oracles, cfg: Config, st: Statement, reg: Registry, ghost seen: seq<Block>, ghost i: nat, b: Block,
                    root: Bytes, com: Bytes) returns (s: Selected)
    requires cfg.Valid() && BlockOk(b) && GoodColumns(o, st.params.rsColumns, cfg.N())
    requires Tracks(o, cfg, reg, AllNamed(seen)) && i < |seen| && seen[i] == b
    ensures s == HonestSelected(o, cfg, st, b, root, com, map[])
  {
    hide *;
    BlockParts(b);
    HonestSelectedIs(o, cfg, st, b, root, com, map[]);
    var challenge := ChallengeOf(o, st, b, root);
    LocalOfIs(o, st, b, root, com);
    var local := ProveLocal(b.kind, MessagesIn(ByRole(b.wires)), Coined(o.field, o.rounds, challenge, b.index, com));
    var digest := o.local(b.index, challenge, local, ByRole(b.wires));
    var columns := o.columns(o.columnSeed(o.statement(st), b.index, digest));
    GoodRange(o, cfg, st.params.rsColumns, o.columnSeed(o.statement(st), b.index, digest));
    ghost var at := BlockIsIn(seen, i);
    var os := OpenBlock(o, cfg, reg, AllNamed(seen), at, b.wires, columns);
    s := Selected(b.index, challenge, local, os, digest);
  }

  lemma LocalOfIs(o: Oracles, st: Statement, b: Block, root: Bytes, com: Bytes)
    requires BlockOk(b)
    ensures LocalOf(o, st, b, root, com)
            == HonestLocal(b.kind, MessagesIn(ByRole(b.wires)), Coined(o.field, o.rounds, ChallengeOf(o, st, b, root), b.index, com))
  {
    hide HonestLocal, ChallengeOf;
  }

  lemma HonestSelectedIs(o: Oracles, cfg: Config, st: Statement, b: Block, root: Bytes, com: Bytes, paths: map<string, Path<Bytes>>)
    requires cfg.Valid() && BlockOk(b) && GoodColumns(o, st.params.rsColumns, cfg.N())
    ensures var local := LocalOf(o, st, b, root, com); var challenge := ChallengeOf(o, st, b, root);
      var digest := o.local(b.index, challenge, local, ByRole(b.wires));
      var columns := o.columns(o.columnSeed(o.statement(st), b.index, digest));
      && InRange(cfg, columns) && |columns| == st.params.rsColumns && NoDuplicates(columns)
      && HonestSelected(o, cfg, st, b, root, com, paths)
         == Selected(b.index, challenge, local, Openings(o, cfg, ByRole(b.wires), columns, paths), digest)
  {
    hide LocalOf, Openings, ChallengeOf, BlockOk;
    var digest := o.local(b.index, ChallengeOf(o, st, b, root), LocalOf(o, st, b, root, com), ByRole(b.wires));
    GoodRange(o, cfg, st.params.rsColumns, o.columnSeed(o.statement(st), b.index, digest));
  }
}
