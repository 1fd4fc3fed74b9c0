/** Audit completeness: what prove returns, verify accepts exactly when the sampled blocks' own local
    arguments hold; so it accepts every list of right blocks. */
module AuditAccepted {
  import opened NumberTheory
  import opened Field
  import opened Polynomial
  import opened Domain
  import opened Rows
  import opened Rs
  import opened Merkle
  import opened Commit
  import opened Seam
  import opened Prover
  import opened AuditRelation
  import opened AuditPlan
  import opened AuditLocal
  import opened AuditBlocks
  import opened AuditVerifier
  import opened AuditProver
  import opened AuditRun

  // ------------------------------------------------------------------ the records

  lemma NamedSchema(blocks: seq<Block>, k: nat)
    requires k < |AllNamed(blocks)|
    ensures var ss := AllSchemas(DescribeAll(blocks)); var w := AllNamed(blocks)[k].wire;
      |ss| == |AllNamed(blocks)| && ss[k].id == w.id && ss[k].widths == Widths(w.messages) && w.id in Mentioned(ss)
  {
    SchemasAreNamed(blocks);
    MentionedIs(AllSchemas(DescribeAll(blocks)));
    hide AllSchemas, DescribeAll, AllNamed, Widths, Mentioned;
    var ss, w := AllSchemas(DescribeAll(blocks)), AllNamed(blocks)[k].wire;
    assert ss[k].id == w.id;
  }

  lemma OneSchema(cfg: Config, blocks: seq<Block>)
    requires GoodWires(cfg, AllNamed(blocks))
    ensures Agreeing(AllSchemas(DescribeAll(blocks)))
  {
    hide AllSchemas, DescribeAll, AllNamed, Widths, Mentioned;
    var ss, ws := AllSchemas(DescribeAll(blocks)), AllNamed(blocks);
    SchemasAreNamed(blocks);
    forall i, k | 0 <= i < k < |ss| && ss[i].id == ss[k].id ensures ss[i].widths == ss[k].widths {
      assert ws[i].wire.id == ws[k].wire.id;
    }
  }

  /** A wire's record is the registry's: its own id, root and widths. */
  lemma RecordOfWire(o: Oracles, cfg: Config, st: Statement, blocks: seq<Block>, k: nat)
    requires cfg.Valid() && GoodWires(cfg, AllNamed(blocks)) && st.descriptors == DescribeAll(blocks) && k < |AllNamed(blocks)|
    ensures var records := HonestRecords(o, cfg, st, blocks); var w := AllNamed(blocks)[k].wire;
      && w.id in RecordMap(records) && RecordMap(records)[w.id] == RecordFor(o, cfg, w)
      && exists j :: 0 <= j < |records| && records[j] == RecordFor(o, cfg, w)
  {
    var order, w := Mentioned(AllSchemas(st.descriptors)), AllNamed(blocks)[k].wire;
    NamedSchema(blocks, k);
    hide AllSchemas, DescribeAll, AllNamed, Widths, Mentioned, RecordFor, RecordMap, GoodWires;
    MessagesAre(cfg, AllNamed(blocks), k);
    var j :| 0 <= j < |order| && order[j] == w.id;
    var records := HonestRecords(o, cfg, st, blocks);
    assert Wire(order[j], MessagesOf(AllNamed(blocks), order[j])) == w;
    assert records[j] == RecordFor(o, cfg, w);
    UniqueHonest(o, cfg, st, blocks);
    RecordMapIs(records);
    RecordId(o, cfg, w);
  }

  lemma HonestIds(o: Oracles, cfg: Config, st: Statement, blocks: seq<Block>)
    requires cfg.Valid()
    ensures Ids(HonestRecords(o, cfg, st, blocks)) == Mentioned(AllSchemas(st.descriptors))
  {
    hide Mentioned, AllSchemas, AllNamed, CommitOf, MessagesOf, Widths;
    var records, order := HonestRecords(o, cfg, st, blocks), Mentioned(AllSchemas(st.descriptors));
    forall k | 0 <= k < |order| ensures records[k].id == order[k] {}
    assert Ids(records) == order;
  }

  lemma UniqueHonest(o: Oracles, cfg: Config, st: Statement, blocks: seq<Block>)
    requires cfg.Valid()
    ensures var r := HonestRecords(o, cfg, st, blocks); forall i, k :: 0 <= i < k < |r| ==> r[i].id != r[k].id
  {
    HonestIds(o, cfg, st, blocks);
    MentionedIs(AllSchemas(st.descriptors));
    hide Mentioned, AllSchemas, HonestRecords;
    var r := HonestRecords(o, cfg, st, blocks);
    forall i, k | 0 <= i < k < |r| ensures r[i].id != r[k].id {
      assert Ids(r)[i] != Ids(r)[k];
    }
  }

  lemma HonestDeclared(o: Oracles, cfg: Config, st: Statement, blocks: seq<Block>, j: nat)
    requires cfg.Valid() && GoodWires(cfg, AllNamed(blocks)) && st.descriptors == DescribeAll(blocks)
    requires j < |HonestRecords(o, cfg, st, blocks)|
    ensures Declared(HonestRecords(o, cfg, st, blocks)[j], AllSchemas(st.descriptors))
  {
    var ss, records, ws := AllSchemas(st.descriptors), HonestRecords(o, cfg, st, blocks), AllNamed(blocks);
    SchemasAreNamed(blocks);
    hide AllSchemas, DescribeAll, AllNamed, Widths, Mentioned, HonestRecords, GoodWires;
    forall k | 0 <= k < |ss| && ss[k].id == records[j].id ensures ss[k].widths == records[j].widths {
      assert ss[k].id == ws[k].wire.id;
      RecordOfWire(o, cfg, st, blocks, k);
      UniqueHonest(o, cfg, st, blocks);
      RecordMapIs(records);
      assert RecordMap(records)[records[j].id] == records[j];
      RecordWidths(o, cfg, ws[k].wire);
    }
  }

  lemma RecordWidths(o: Oracles, cfg: Config, w: Wire)
    requires cfg.Valid()
    ensures RecordFor(o, cfg, w).widths == Widths(w.messages) && RecordFor(o, cfg, w).id == w.id
    ensures RecordFor(o, cfg, w).root == CommitOf(o.h, cfg, w.messages).root
  {
    hide Widths, CommitOf;
  }

  lemma RecordsAccepted(o: Oracles, cfg: Config, st: Statement, blocks: seq<Block>)
    requires Setting(o, cfg, st, blocks) && GoodWires(cfg, AllNamed(blocks))
    ensures RecordsHold(o, st, HonestProof(o, cfg, st, blocks))
  {
    hide *;
    SettingParts(o, cfg, st, blocks);
    OneSchema(cfg, blocks);
    HonestIds(o, cfg, st, blocks);
    ProofFields(o, cfg, st, blocks);
    var records := HonestRecords(o, cfg, st, blocks);
    forall j | 0 <= j < |records| ensures Declared(records[j], AllSchemas(st.descriptors)) {
      HonestDeclared(o, cfg, st, blocks, j);
    }
    RecordsHoldIs(o, st, HonestProof(o, cfg, st, blocks));
  }

  lemma RecordsHoldIs(o: Oracles, st: Statement, proof: AuditProof)
    ensures RecordsHold(o, st, proof) <==>
      (&& Agreeing(AllSchemas(st.descriptors)) && Ids(proof.records) == Mentioned(AllSchemas(st.descriptors))
       && (forall k :: 0 <= k < |proof.records| ==> Declared(proof.records[k], AllSchemas(st.descriptors)))
       && proof.c0Root == o.c0(proof.digest, WireRoot(o, proof.records)))
  {
    hide Agreeing, AllSchemas, Mentioned, Declared, WireRoot;
  }

  // -------------------------------------------------------------- the commitments

  lemma {:induction false} SameRoots(o: Oracles, cfg: Config, wires: seq<Named>, records: map<string, WireRecord>)
    requires cfg.Valid() && LooksUp(o, cfg, wires, records)
    ensures RootsFrom(Schemas(wires), records) == WireRoots(o, cfg, wires)
  {
    hide RecordFor, Widths;
    if wires != [] {
      var n := |wires| - 1;
      SameRoots(o, cfg, wires[..n], records);
      assert Schemas(wires)[..n] == Schemas(wires[..n]);
    }
  }

  lemma BlockWire(blocks: seq<Block>, i: nat, k: nat) returns (m: nat)
    requires i < |blocks| && k < |blocks[i].wires|
    ensures m < |AllNamed(blocks)| && AllNamed(blocks)[m] == blocks[i].wires[k]
  {
    hide *;
    var at := BlockIsIn(blocks, i);
    m := at + k;
    assert AllNamed(blocks)[at..at + |blocks[i].wires|][k] == AllNamed(blocks)[m];
  }

  /** The record a block's wire looks up. */
  lemma BlockRecord(o: Oracles, cfg: Config, st: Statement, blocks: seq<Block>, i: nat, k: nat) returns (j: nat)
    requires cfg.Valid() && GoodWires(cfg, AllNamed(blocks)) && st.descriptors == DescribeAll(blocks)
    requires i < |blocks| && k < |blocks[i].wires|
    ensures var records := HonestRecords(o, cfg, st, blocks); var w := blocks[i].wires[k].wire;
      && w.id in RecordMap(records) && RecordMap(records)[w.id] == RecordFor(o, cfg, w)
      && j < |records| && records[j] == RecordFor(o, cfg, w) && Commit.AllFit(w.messages, cfg.ELL)
  {
    hide *;
    var m := BlockWire(blocks, i, k);
    RecordOfWire(o, cfg, st, blocks, m);
    WireFits(cfg, AllNamed(blocks), m);
    j :| 0 <= j < |HonestRecords(o, cfg, st, blocks)| && HonestRecords(o, cfg, st, blocks)[j] == RecordFor(o, cfg, blocks[i].wires[k].wire);
  }

  ghost predicate LooksUp(o: Oracles, cfg: Config, wires: seq<Named>, records: map<string, WireRecord>)
    requires cfg.Valid()
  {
    forall k :: 0 <= k < |wires| ==> wires[k].wire.id in records && records[wires[k].wire.id] == RecordFor(o, cfg, wires[k].wire)
  }

  lemma BlockRecords(o: Oracles, cfg: Config, st: Statement, blocks: seq<Block>, i: nat)
    requires cfg.Valid() && GoodWires(cfg, AllNamed(blocks)) && st.descriptors == DescribeAll(blocks) && i < |blocks|
    ensures LooksUp(o, cfg, blocks[i].wires, RecordMap(HonestRecords(o, cfg, st, blocks)))
  {
    hide GoodWires, AllNamed, HonestRecords, DescribeAll, RecordFor, RecordMap;
    forall k | 0 <= k < |blocks[i].wires|
      ensures var w := blocks[i].wires[k].wire; var records := RecordMap(HonestRecords(o, cfg, st, blocks));
        w.id in records && records[w.id] == RecordFor(o, cfg, w)
    {
      var j := BlockRecord(o, cfg, st, blocks, i, k);
    }
  }

  lemma CommitmentsAccepted(o: Oracles, cfg: Config, st: Statement, blocks: seq<Block>)
    requires Setting(o, cfg, st, blocks) && GoodWires(cfg, AllNamed(blocks)) && Canonical(blocks)
    ensures CommitmentsHold(o, st, HonestProof(o, cfg, st, blocks))
  {
    SettingParts(o, cfg, st, blocks);
    var proof := HonestProof(o, cfg, st, blocks);
    assert proof.blockComs == Coms(o, cfg, blocks) && proof.records == HonestRecords(o, cfg, st, blocks);
    hide Setting, GoodWires, AllNamed, HonestAll, HonestRecords, HonestProof, RootsFrom, RecordMap, WireRoots, Public;
    forall i | 0 <= i < |blocks|
      ensures proof.blockComs[i] == o.block(i, st.descriptors[i], RootsFrom(st.descriptors[i].schemas, RecordMap(proof.records)))
    {
      BlockRecords(o, cfg, st, blocks, i);
      SameRoots(o, cfg, blocks[i].wires, RecordMap(proof.records));
      assert st.descriptors[i] == Describe(blocks[i]);
    }
  }

  // ---------------------------------------------------------------- the openings

  lemma HonestBound(o: Oracles, cfg: Config, w: Wire, columns: seq<int>, path: Path<Bytes>)
    requires cfg.Valid() && InRange(cfg, columns) && Commit.AllFit(w.messages, cfg.ELL)
    ensures Bound(o, cfg, RecordFor(o, cfg, w), columns, OpeningOf(o, cfg, w, columns, path))
  {
    var op, c := OpeningOf(o, cfg, w, columns, path), CommitOf(o.h, cfg, w.messages);
    RecordWidths(o, cfg, w);
    OpeningFields(o, cfg, w, columns, path);
    WordSizes(cfg, w.messages);
    hide CommitOf, OpeningOf, RecordFor, Widths, Codeword, Checks, OpenPath;
    forall k | 0 <= k < |columns| ensures BoundAt(o, cfg, c.root, op, k) {
      OpeningAccepted(o.h, cfg, c, columns[k]);
      assert Column(c.rows, cfg.N(), columns[k]) == EncodedColumn(cfg, w.messages, columns[k]);
    }
  }

  lemma OpeningFields(o: Oracles, cfg: Config, w: Wire, columns: seq<int>, path: Path<Bytes>)
    requires cfg.Valid() && InRange(cfg, columns)
    ensures var op, c := OpeningOf(o, cfg, w, columns, path), CommitOf(o.h, cfg, w.messages);
      && op.id == w.id && op.messages == w.messages && op.columns == columns && op.c0Path == path
      && |op.values| == |op.paths| == |columns|
      && forall k :: 0 <= k < |columns| ==>
           op.values[k] == Column(c.rows, cfg.N(), columns[k]) && op.paths[k] == OpenPath(o.h, cfg, c, columns[k])
  {
    hide CommitOf, Column, OpenPath;
  }

  /** A record's own path climbs to the wire root. */
  lemma PathClimbs(o: Oracles, records: seq<WireRecord>, j: nat)
    requires j < |records| && forall i, k :: 0 <= i < k < |records| ==> records[i].id != records[k].id
    ensures Climb(o.node, o.wireLeaf(records[j]), PathIn(PathsTo(o, records, |records|), records[j].id)) == WireRoot(o, records)
  {
    PathsAre(o, records, |records|, j);
    RoundTrip(o.node, WireLeaves(o, records), j);
    hide PathsTo, Climb, PathFor, TreeRoot;
  }

  lemma HonestListed(o: Oracles, cfg: Config, st: Statement, blocks: seq<Block>, i: nat, k: nat, columns: seq<int>)
    requires Setting(o, cfg, st, blocks) && GoodWires(cfg, AllNamed(blocks)) && i < |blocks| && k < |blocks[i].wires|
    requires InRange(cfg, columns) && |columns| == st.params.rsColumns && NoDuplicates(columns)
    ensures var records := HonestRecords(o, cfg, st, blocks); var w := blocks[i].wires[k].wire;
      && Listed(o, st.params.rsColumns, RecordMap(records), WireRoot(o, records), Schemas(blocks[i].wires)[k],
                OpeningOf(o, cfg, w, columns, PathIn(PathsTo(o, records, |records|), w.id)))
      && w.id in RecordMap(records)
      && Bound(o, cfg, RecordMap(records)[w.id], columns, OpeningOf(o, cfg, w, columns, PathIn(PathsTo(o, records, |records|), w.id)))
  {
    hide *;
    SettingParts(o, cfg, st, blocks);
    var records, w := HonestRecords(o, cfg, st, blocks), blocks[i].wires[k].wire;
    var j := BlockRecord(o, cfg, st, blocks, i, k);
    UniqueHonest(o, cfg, st, blocks);
    SchemaAt(blocks[i].wires, k);
    PathClimbs(o, records, j);
    RecordWidths(o, cfg, w);
    var path := PathIn(PathsTo(o, records, |records|), w.id);
    OpeningFields(o, cfg, w, columns, path);
    HonestBound(o, cfg, w, columns, path);
    ListedIs(o, st.params.rsColumns, RecordMap(records), WireRoot(o, records), Schemas(blocks[i].wires)[k],
             OpeningOf(o, cfg, w, columns, path));
  }

  lemma SchemaAt(wires: seq<Named>, k: nat)
    requires k < |wires|
    ensures Schemas(wires)[k].id == wires[k].wire.id && Schemas(wires)[k].role == wires[k].role
  {
    hide Widths;
  }

  lemma WireFits(cfg: Config, ws: seq<Named>, k: nat)
    requires GoodWires(cfg, ws) && k < |ws|
    ensures Commit.AllFit(ws[k].wire.messages, cfg.ELL)
  {}

  lemma ListedIs(o: Oracles, q: int, records: map<string, WireRecord>, wireRoot: Bytes, s: RoleSchema, op: WireOpening)
    ensures Listed(o, q, records, wireRoot, s, op) <==>
      (&& op.id == s.id && op.id in records && Climb(o.node, o.wireLeaf(records[op.id]), op.c0Path) == wireRoot
       && |op.columns| == q && NoDuplicates(op.columns))
  {
    hide Climb;
  }

  lemma SchemaRoles(wires: seq<Named>)
    requires DistinctRoles(wires)
    ensures ByRole(wires).Keys == RolesOf(Schemas(wires))
    ensures forall k :: 0 <= k < |wires| ==> wires[k].role in ByRole(wires) && ByRole(wires)[wires[k].role] == wires[k].wire
  {
    RoleIs(wires);
    hide ByRole, Widths, DistinctRoles, RolesOf;
    var roles := RolesOf(Schemas(wires));
    forall r ensures r in ByRole(wires) <==> r in roles { SchemaRole(wires, r); }
    assert ByRole(wires).Keys == roles;
  }

  lemma SchemaRole(wires: seq<Named>, r: string)
    requires DistinctRoles(wires)
    ensures r in ByRole(wires) <==> r in RolesOf(Schemas(wires))
  {
    RoleIs(wires);
    hide ByRole, Widths, DistinctRoles;
    var ss := Schemas(wires);
    if r in ByRole(wires) {
      var k :| 0 <= k < |wires| && wires[k].role == r;
      assert ss[k].role == r;
    }
    if k :| 0 <= k < |ss| && ss[k].role == r {
      assert wires[k].role == r;
      assert wires[k].role in ByRole(wires);
    }
  }

  lemma HonestOpenings(o: Oracles, cfg: Config, st: Statement, blocks: seq<Block>, i: nat, columns: seq<int>)
    requires Setting(o, cfg, st, blocks) && GoodWires(cfg, AllNamed(blocks)) && i < |blocks|
    requires InRange(cfg, columns) && |columns| == st.params.rsColumns && NoDuplicates(columns)
    ensures var records := HonestRecords(o, cfg, st, blocks);
      OpeningsHold(o, cfg, st.params.rsColumns, RecordMap(records), WireRoot(o, records), Schemas(blocks[i].wires), columns,
                   Openings(o, cfg, ByRole(blocks[i].wires), columns, PathsTo(o, records, |records|)))
  {
    hide *;
    SettingParts(o, cfg, st, blocks);
    BlockParts(blocks[i]);
    var records, wires := HonestRecords(o, cfg, st, blocks), blocks[i].wires;
    var paths := PathsTo(o, records, |records|);
    SchemaRoles(wires);
    forall k | 0 <= k < |wires|
      ensures OpensAt(o, cfg, st.params.rsColumns, records, Schemas(wires)[k], columns, Openings(o, cfg, ByRole(wires), columns, paths))
    {
      HonestListed(o, cfg, st, blocks, i, k, columns);
      SchemaAt(wires, k);
      OpensAtIs(o, cfg, st.params.rsColumns, records, Schemas(wires)[k], columns, Openings(o, cfg, ByRole(wires), columns, paths));
    }
    OpeningsAre(o, cfg, st.params.rsColumns, records, wires, columns, Openings(o, cfg, ByRole(wires), columns, paths));
  }

  ghost predicate OpensAt(o: Oracles, cfg: Config, q: int, records: seq<WireRecord>, s: RoleSchema, columns: seq<int>,
                          os: map<string, WireOpening>) {
    && s.role in os && s.id in RecordMap(records)
    && Listed(o, q, RecordMap(records), WireRoot(o, records), s, os[s.role])
    && Bound(o, cfg, RecordMap(records)[s.id], columns, os[s.role])
  }

  lemma OpensAtIs(o: Oracles, cfg: Config, q: int, records: seq<WireRecord>, s: RoleSchema, columns: seq<int>,
                  os: map<string, WireOpening>)
    requires s.role in os && s.id in RecordMap(records)
    requires Listed(o, q, RecordMap(records), WireRoot(o, records), s, os[s.role])
    requires Bound(o, cfg, RecordMap(records)[s.id], columns, os[s.role])
    ensures OpensAt(o, cfg, q, records, s, columns, os)
  {
    hide Listed, Bound, RecordMap, WireRoot;
  }

  lemma OpeningsAre(o: Oracles, cfg: Config, q: int, records: seq<WireRecord>, wires: seq<Named>, columns: seq<int>,
                    os: map<string, WireOpening>)
    requires os.Keys == RolesOf(Schemas(wires))
    requires forall k :: 0 <= k < |wires| ==> OpensAt(o, cfg, q, records, Schemas(wires)[k], columns, os)
    ensures OpeningsHold(o, cfg, q, RecordMap(records), WireRoot(o, records), Schemas(wires), columns, os)
  {
    hide Listed, Bound, RecordMap, WireRoot, RolesOf;
    var ss := Schemas(wires);
    forall k | 0 <= k < |ss| ensures OpensAt(o, cfg, q, records, ss[k], columns, os) {}
  }

  // ------------------------------------------------------------- a selected block

  lemma OpenedAgain(o: Oracles, cfg: Config, m: map<string, Wire>, columns: seq<int>, paths: map<string, Path<Bytes>>)
    requires cfg.Valid() && InRange(cfg, columns)
    ensures OpenedWires(Openings(o, cfg, m, columns, paths)) == m
  {
    var os := Openings(o, cfg, m, columns, paths);
    hide OpeningOf, Openings;
    forall r | r in m ensures OpenedWires(os)[r] == m[r] {
      OpeningFields(o, cfg, m[r], columns, PathIn(paths, m[r].id));
    }
  }

  /** The local argument the verifier will see for block i. */
  ghost predicate LocalPasses(o: Oracles, cfg: Config, st: Statement, blocks: seq<Block>, i: nat)
    requires Setting(o, cfg, st, blocks) && i < |blocks|
  {
    var coms := Coms(o, cfg, blocks);
    var root := RootAt(o, cfg, st, blocks, i);
    LocalHolds(blocks[i].kind, LocalOf(o, st, blocks[i], root, coms[i]), MessagesIn(ByRole(blocks[i].wires)),
               Coined(o.field, o.rounds, ChallengeOf(o, st, blocks[i], root), blocks[i].index, coms[i]))
  }

  /** A sampled block's part of the honest proof holds exactly when its local argument does. */
  lemma SelectedExact(o: Oracles, cfg: Config, st: Statement, blocks: seq<Block>, i: nat, paths: map<string, Path<Bytes>>)
    requires Setting(o, cfg, st, blocks) && GoodWires(cfg, AllNamed(blocks)) && Canonical(blocks) && i < |blocks|
    requires var r := HonestRecords(o, cfg, st, blocks); paths == PathsTo(o, r, |r|)
    ensures SelectedHolds(o, cfg, st, HonestProof(o, cfg, st, blocks), HonestAt(o, cfg, st, blocks, paths, i))
            <==> LocalPasses(o, cfg, st, blocks, i)
  {
    hide *;
    SettingParts(o, cfg, st, blocks);
    ProofFields(o, cfg, st, blocks);
    BlockPlace(o, cfg, st, blocks, i);
    AtRoot(o, cfg, st, blocks, i, paths);
    var b, proof, coms := blocks[i], HonestProof(o, cfg, st, blocks), Coms(o, cfg, blocks);
    var root := RootAt(o, cfg, st, blocks, i);
    ChallengeAt(o, cfg, st, blocks, proof, i);
    var s := HonestSelected(o, cfg, st, b, root, coms[i], paths);
    PassesIs(o, cfg, st, blocks, i);
    HonestSelectedIs(o, cfg, st, b, root, coms[i], paths);
    SelectedParts(o, cfg, st, proof, s);
    BlockParts(b);
    var local := LocalOf(o, st, b, root, coms[i]);
    var digest := o.local(b.index, ChallengeOf(o, st, b, root), local, ByRole(b.wires));
    var columns := o.columns(o.columnSeed(o.statement(st), b.index, digest));
    OpenedAgain(o, cfg, ByRole(b.wires), columns, paths);
    HonestOpenings(o, cfg, st, blocks, i, columns);
    ColumnsForIs(o, proof.digest, s);
    PublicLocal(b.kind, MessagesIn(ByRole(b.wires)), local,
                Coined(o.field, o.rounds, ChallengeOf(o, st, b, root), i, coms[i]));
  }

  /** Block i in the statement. */
  lemma BlockPlace(o: Oracles, cfg: Config, st: Statement, blocks: seq<Block>, i: nat)
    requires Setting(o, cfg, st, blocks) && Canonical(blocks) && i < |blocks|
    ensures blocks[i].index == i && i < |st.descriptors| && i < |Coms(o, cfg, blocks)| && BlockOk(blocks[i])
    ensures st.descriptors[i].kind == Public(blocks[i].kind) && st.descriptors[i].schemas == Schemas(blocks[i].wires)
  {
    hide BlockOk, Public, Schemas, BlockCom, GoodColumns;
    assert st.descriptors[i] == Describe(blocks[i]);
  }

  lemma AtRoot(o: Oracles, cfg: Config, st: Statement, blocks: seq<Block>, i: nat, paths: map<string, Path<Bytes>>)
    requires Setting(o, cfg, st, blocks) && i < |blocks| && cfg.Valid() && BlockOk(blocks[i])
    requires GoodColumns(o, st.params.rsColumns, cfg.N()) && i < |Coms(o, cfg, blocks)|
    ensures HonestAt(o, cfg, st, blocks, paths, i)
            == HonestSelected(o, cfg, st, blocks[i], RootAt(o, cfg, st, blocks, i), Coms(o, cfg, blocks)[i], paths)
  {
    hide HonestSelected, BlockOk, WindowRoot, Coms, GoodColumns, Setting;
    SettingParts(o, cfg, st, blocks);
  }

  lemma ChallengeAt(o: Oracles, cfg: Config, st: Statement, blocks: seq<Block>, proof: AuditProof, i: nat)
    requires Setting(o, cfg, st, blocks) && i < |blocks| && st.params.Ok() && blocks[i].index == i
    requires proof.digest == o.statement(st) && proof.blockComs == Coms(o, cfg, blocks)
    ensures ChallengeFor(o, st, proof, i) == ChallengeOf(o, st, blocks[i], RootAt(o, cfg, st, blocks, i))
  {
    hide Setting, WindowRoot, Coms;
  }

  lemma ColumnsForIs(o: Oracles, digest: Bytes, s: Selected)
    ensures ColumnsFor(o, digest, s) == o.columns(o.columnSeed(digest, s.index, s.digest))
  {}

  lemma PassesIs(o: Oracles, cfg: Config, st: Statement, blocks: seq<Block>, i: nat)
    requires Setting(o, cfg, st, blocks) && i < |blocks|
    ensures BlockOk(blocks[i]) && Shaped(blocks[i].kind, MessagesIn(ByRole(blocks[i].wires)))
    ensures var root := RootAt(o, cfg, st, blocks, i);
      LocalPasses(o, cfg, st, blocks, i) <==>
      LocalHolds(blocks[i].kind, LocalOf(o, st, blocks[i], root, Coms(o, cfg, blocks)[i]), MessagesIn(ByRole(blocks[i].wires)),
                 Coined(o.field, o.rounds, ChallengeOf(o, st, blocks[i], root), blocks[i].index, Coms(o, cfg, blocks)[i]))
  {
    SettingParts(o, cfg, st, blocks);
    BlockParts(blocks[i]);
    hide Setting, LocalHolds, LocalOf, ChallengeOf, RootAt, Coms, BlockOk, Shaped, ByRole;
  }

  // -------------------------------------------------------------------- the audit

  /** Completeness, exactly: the honest proof is accepted if and only if every sampled block's
      own argument passes. */
  lemma HonestAuditExact(o: Oracles, cfg: Config, st: Statement, blocks: seq<Block>)
    requires Setting(o, cfg, st, blocks) && GoodWires(cfg, AllNamed(blocks)) && Canonical(blocks)
    ensures Accepted(o, cfg, st, HonestProof(o, cfg, st, blocks))
            <==> forall k :: 0 <= k < |SampleOf(o, cfg, st, blocks)| ==> LocalPasses(o, cfg, st, blocks, SampleOf(o, cfg, st, blocks)[k])
  {
    hide *;
    SettingParts(o, cfg, st, blocks);
    RecordsAccepted(o, cfg, st, blocks);
    CommitmentsAccepted(o, cfg, st, blocks);
    var sample, proof, records := SampleOf(o, cfg, st, blocks), HonestProof(o, cfg, st, blocks), HonestRecords(o, cfg, st, blocks);
    var paths := PathsTo(o, records, |records|);
    ProofFields(o, cfg, st, blocks);
    InBlocksIs(sample, |blocks|);
    forall k | 0 <= k < |sample|
      ensures proof.selected[k] == HonestAt(o, cfg, st, blocks, paths, sample[k])
      ensures SelectedHolds(o, cfg, st, proof, proof.selected[k]) <==> LocalPasses(o, cfg, st, blocks, sample[k])
      ensures proof.selected[k].index == sample[k]
    {
      SelectedExact(o, cfg, st, blocks, sample[k], paths);
      AtIndexIs(o, cfg, st, blocks, paths, sample[k]);
    }
    assert Indexes(proof.selected) == sample;
    AcceptedIs(o, cfg, st, proof);
  }

  lemma AcceptedIs(o: Oracles, cfg: Config, st: Statement, proof: AuditProof)
    requires st.params.Ok() && |proof.blockComs| == st.params.totalBlocks
    ensures Accepted(o, cfg, st, proof) <==>
      (&& proof.digest == o.statement(st) && RecordsHold(o, st, proof) && CommitmentsHold(o, st, proof)
       && Indexes(proof.selected) == Sample(o, proof.digest, proof.blockComs, st.params)
       && forall k :: 0 <= k < |proof.selected| ==> SelectedHolds(o, cfg, st, proof, proof.selected[k]))
  {
    hide RecordsHold, CommitmentsHold, Sample, SelectedHolds;
  }

  lemma AtIndexIs(o: Oracles, cfg: Config, st: Statement, blocks: seq<Block>, paths: map<string, Path<Bytes>>, i: nat)
    requires Setting(o, cfg, st, blocks) && Canonical(blocks) && i < |blocks|
    ensures HonestAt(o, cfg, st, blocks, paths, i).index == i
  {
    SettingParts(o, cfg, st, blocks);
    hide Setting, Openings, LocalOf, BlockOk, WindowRoot, BlockCom, GoodColumns, DescribeAll;
  }

  lemma ProofFields(o: Oracles, cfg: Config, st: Statement, blocks: seq<Block>)
    requires Setting(o, cfg, st, blocks)
    ensures var p, r := HonestProof(o, cfg, st, blocks), HonestRecords(o, cfg, st, blocks);
      && p.digest == o.statement(st) && p.blockComs == Coms(o, cfg, blocks) && p.records == r
      && p.c0Root == o.c0(p.digest, WireRoot(o, r))
      && p.selected == HonestAll(o, cfg, st, blocks, PathsTo(o, r, |r|), SampleOf(o, cfg, st, blocks))
    ensures SampleOf(o, cfg, st, blocks) == Sample(o, o.statement(st), Coms(o, cfg, blocks), st.params)
  {
    hide Setting, HonestAll, HonestRecords, PathsTo, Coms, Sample, WireRoot;
  }

  /** Every block is right. */
  ghost predicate AllTrue(blocks: seq<Block>)
    requires forall i :: 0 <= i < |blocks| ==> BlockOk(blocks[i])
  {
    forall i :: 0 <= i < |blocks| ==> TrueBlock(blocks[i])
  }

  ghost predicate TrueBlock(b: Block)
    requires BlockOk(b)
  {
    IsTrue(b.kind, MessagesIn(ByRole(b.wires)))
  }

  lemma TrueBlockAccepted(o: Oracles, cfg: Config, st: Statement, blocks: seq<Block>, i: nat)
    requires Setting(o, cfg, st, blocks) && i < |blocks| && BlockOk(blocks[i]) && TrueBlock(blocks[i])
    ensures LocalPasses(o, cfg, st, blocks, i)
  {
    SettingParts(o, cfg, st, blocks);
    var b, coms := blocks[i], Coms(o, cfg, blocks);
    var root := RootAt(o, cfg, st, blocks, i);
    BlockParts(b);
    assert IsTrue(b.kind, MessagesIn(ByRole(b.wires)));
    hide *;
    PassesIs(o, cfg, st, blocks, i);
    LocalOfIs(o, st, b, root, coms[i]);
    TrueBlockPasses(b.kind, MessagesIn(ByRole(b.wires)), Coined(o.field, o.rounds, ChallengeOf(o, st, b, root), b.index, coms[i]));
  }

  lemma StatementIsOk(st: Statement, blocks: seq<Block>)
    requires st.params.Ok() && |blocks| == st.params.totalBlocks && st.descriptors == DescribeAll(blocks) && Canonical(blocks)
    requires forall i :: 0 <= i < |blocks| ==> BlockOk(blocks[i])
    ensures StatementOk(st)
  {
    hide BlockOk, DescriptorOk;
    forall i | 0 <= i < |st.descriptors| ensures DescriptorOk(st.descriptors[i]) && st.descriptors[i].index == i {
      DescribeOk(blocks[i]);
    }
  }

  /** from_blocks, prove, verify. It runs to its end exactly when the parameters and indices are
      good, the columns suffice and no wire is bound twice or too wide; and then right blocks are
      accepted under any hash, secret and sample. */
  method ProveThenVerify(o: Oracles, cfg: Config, L: Matrix, params: AuditParams, io: Bytes, blocks: seq<Block>)
    returns (ran: bool, ok: bool)
    requires cfg.Valid() && IsLagrangeMatrix(cfg, L) && forall i :: 0 <= i < |blocks| ==> BlockOk(blocks[i])
    requires params.rsColumns <= cfg.N() ==> GoodColumns(o, params.rsColumns, cfg.N())
    ensures ran <==> params.Ok() && |blocks| == params.totalBlocks && Canonical(blocks) && params.rsColumns <= cfg.N()
                     && GoodWires(cfg, AllNamed(blocks))
    ensures ran && AllTrue(blocks) ==> ok
  {
    hide BlockOk, GoodColumns, IsLagrangeMatrix, GoodWires, AllNamed, DescribeAll, HonestProof, Accepted, LocalPasses, Setting, Canonical,
      StatementOk, SampleOf, TrueBlock;
    ran, ok := false, false;
    var made := FromBlocks(params, io, blocks);
    if made.ValueError? { return; }
    var st := made.value;
    StatementIsOk(st, blocks);
    var r := Prove(o, cfg, L, st, blocks);
    if r.Refused? { return; }
    ran := true;
    ok := Verify(o, cfg, L, st, r.proof);
    HonestAuditExact(o, cfg, st, blocks);
    if AllTrue(blocks) {
      forall k | 0 <= k < |SampleOf(o, cfg, st, blocks)| ensures LocalPasses(o, cfg, st, blocks, SampleOf(o, cfg, st, blocks)[k]) {
        SampleBlock(o, cfg, st, blocks, k);
        TrueBlockAccepted(o, cfg, st, blocks, SampleOf(o, cfg, st, blocks)[k]);
      }
    }
  }

  lemma SampleBlock(o: Oracles, cfg: Config, st: Statement, blocks: seq<Block>, k: nat)
    requires Setting(o, cfg, st, blocks) && k < |SampleOf(o, cfg, st, blocks)|
    ensures SampleOf(o, cfg, st, blocks)[k] < |blocks|
  {
    hide SampleOf, Setting;
    InBlocksIs(SampleOf(o, cfg, st, blocks), |blocks|);
  }
}
