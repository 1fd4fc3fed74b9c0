/** What an accepted audit is worth, against the statement and the wires behind its roots. */
module AuditSound {
  import opened NumberTheory
  import opened Field
  import opened Polynomial
  import opened Domain
  import opened Rows
  import opened Rs
  import opened Merkle
  import opened Commit
  import opened Seam
  import opened Prover
  import opened Contraction
  import opened Freivalds
  import opened Permutation
  import opened ProductTree
  import opened AuditRelation
  import opened AuditPlan
  import opened AuditLocal
  import opened AuditBlocks
  import opened AuditVerifier

  // ---------------------------------------------------------------- what is anchored

  /** An opening of record m: its wire's name and widths as published, the record under the root of all
      records, the block's own columns, and at each of them the re-encoded messages under the wire's root. */
  ghost predicate OpensRecord(o: Oracles, cfg: Config, st: Statement, proof: AuditProof, s: Selected, sch: RoleSchema, op: WireOpening, m: nat)
    requires m < |proof.records|
  {
    var rec := proof.records[m];
    && rec.id == op.id == sch.id && rec.widths == sch.widths && |op.messages| == |rec.widths|
    && (forall i :: 0 <= i < |op.messages| ==> |op.messages[i]| == rec.widths[i] <= cfg.ELL)
    && proof.c0Root == o.c0(proof.digest, Climb(o.node, o.wireLeaf(rec), op.c0Path))
    && Climb(o.node, o.wireLeaf(rec), op.c0Path) == TreeRoot(o.node, WireLeaves(o, proof.records))
    && op.columns == o.columns(o.columnSeed(proof.digest, s.index, s.digest))
    && |op.columns| == |op.values| == |op.paths| == st.params.rsColumns && NoDuplicates(op.columns)
    && forall k :: 0 <= k < |op.columns| ==> ColumnOpened(o, cfg, rec.root, op, k)
  }

  ghost predicate ColumnOpened(o: Oracles, cfg: Config, root: Bytes, op: WireOpening, k: nat)
    requires k < |op.columns| && k < |op.values| && k < |op.paths|
  {
    var c := op.columns[k];
    && Checks(o.h, cfg, root, c, op.values[k], op.paths[k])
    && 0 <= c < cfg.N() && |op.values[k]| == |op.messages|
    && forall i :: 0 <= i < |op.messages| ==> |Codeword(cfg, op.messages[i])| == cfg.N() && op.values[k][i] == Codeword(cfg, op.messages[i])[c]
  }

  ghost predicate RolesOpened(o: Oracles, cfg: Config, st: Statement, proof: AuditProof, s: Selected, schemas: seq<RoleSchema>) {
    && (forall r :: r in s.openings ==> exists n :: 0 <= n < |schemas| && schemas[n].role == r)
    && forall n :: 0 <= n < |schemas| ==> RoleFound(o, cfg, st, proof, s, schemas[n])
  }

  ghost predicate RoleFound(o: Oracles, cfg: Config, st: Statement, proof: AuditProof, s: Selected, sch: RoleSchema) {
    && sch.role in s.openings
    && exists m :: 0 <= m < |proof.records| && OpensRecord(o, cfg, st, proof, s, sch, s.openings[sch.role], m)
  }

  /** The roots a block's commitment is over: its roles', each that of the record it names. */
  ghost predicate RootsAre(proof: AuditProof, schemas: seq<RoleSchema>, roots: map<string, Bytes>) {
    forall n :: 0 <= n < |schemas| && (forall k :: n < k < |schemas| ==> schemas[k].role != schemas[n].role) ==>
      && schemas[n].role in roots
      && forall m :: 0 <= m < |proof.records| && proof.records[m].id == schemas[n].id ==> roots[schemas[n].role] == proof.records[m].root
  }

  ghost predicate CommittedTo(o: Oracles, st: Statement, proof: AuditProof, i: nat)
    requires i < |st.descriptors| && i < |proof.blockComs|
  {
    exists roots :: RootsAre(proof, st.descriptors[i].schemas, roots) && proof.blockComs[i] == o.block(i, st.descriptors[i], roots)
  }

  // ----------------------------------------------------------------- what is checked

  /** The field stream the block's own challenge yields. */
  function Coefficients(o: Oracles, s: Selected, name: string, n: nat): (c: seq<int>)
    ensures |c| == n && forall i :: 0 <= i < n ==> c[i] == o.field(s.challenge, name, i) % P
  {
    seq(n, i requires 0 <= i < n => o.field(s.challenge, name, i) % P)
  }

  /** A matmul: under the drawn coefficients no row has a combined error. */
  ghost predicate MatmulSound(o: Oracles, s: Selected, X: Matrix, W: Matrix, Y: Matrix) {
    && MatmulShaped(X, W, Y)
    && forall t :: 0 <= t < |X| ==>
         Defect(X[t], Y[t], W, Coefficients(o, s, "freivalds-rho", |W|), |W[0]|, |W|) % P == 0
  }

  /** A lookup: counts that add up, and products over both lists that agree. */
  ghost predicate LookupSound(o: Oracles, s: Selected, id: int, table: seq<seq<int>>, queries: Matrix, mult: seq<int>) {
    var c := Coefficients(o, s, "lookup-beta-alpha", 2);
    && (forall k :: 0 <= k < |mult| ==> mult[k] >= 0) && AddedUp(mult) == |queries|
    && ProductsAgree(Prints(id, queries, c[0]), Prints(id, Expanded(table, mult), c[0]), c[1])
  }

  ghost predicate LocalSound(o: Oracles, kind: Kind, s: Selected, com: Bytes, w: Wires) {
    match kind
    case MatmulKind => w.Keys == {"x", "w", "y"} && MatmulSound(o, s, w["x"], w["w"], w["y"])
    case RelationKind(_, terms) =>
      && RelationShaped(terms, w, WidthLog(terms, w)) && s.local.RelationLocal?
      && RelationHolds(s.local.sumcheck, terms, w, Coefficients(o, s, "relation-eq", WidthLog(terms, w)), o.rounds,
                       Coined(o.field, o.rounds, s.challenge, s.index, com).Context())
    case LookupKind(id, table) =>
      && w.Keys == {"queries", "multiplicities"} && LookupShaped(table, w["queries"], w["multiplicities"])
      && LookupSound(o, s, id, table, w["queries"], w["multiplicities"][0])
  }

  /** Everything an accepted audit says of its selected block s. */
  ghost predicate BlockSound(o: Oracles, cfg: Config, st: Statement, proof: AuditProof, s: Selected) {
    && proof.digest == o.statement(st) && s.index < |st.descriptors| && s.index < |proof.blockComs|
    && s.digest == o.local(s.index, s.challenge, s.local, map r | r in s.openings :: Wire(s.openings[r].id, s.openings[r].messages))
    && CommittedTo(o, st, proof, s.index)
    && RolesOpened(o, cfg, st, proof, s, st.descriptors[s.index].schemas)
    && LocalSound(o, st.descriptors[s.index].kind, s, proof.blockComs[s.index],
                  map r | r in s.openings :: s.openings[r].messages)
  }

  // ------------------------------------------------------------------------- proofs

  lemma {:induction false} RootsFromIs(proof: AuditProof, schemas: seq<RoleSchema>, records: map<string, WireRecord>)
    requires forall m :: 0 <= m < |proof.records| ==> proof.records[m].id in records && records[proof.records[m].id] == proof.records[m]
    ensures RootsAre(proof, schemas, RootsFrom(schemas, records))
  {
    if schemas != [] {
      var n := |schemas| - 1;
      RootsFromIs(proof, schemas[..n], records);
      forall j | 0 <= j < |schemas| && (forall k :: j < k < |schemas| ==> schemas[k].role != schemas[j].role)
        ensures schemas[j].role in RootsFrom(schemas, records)
        ensures forall m :: 0 <= m < |proof.records| && proof.records[m].id == schemas[j].id
                  ==> RootsFrom(schemas, records)[schemas[j].role] == proof.records[m].root
      {
        if j < n {
          assert schemas[..n][j] == schemas[j];
          assert schemas[n].role != schemas[j].role;
        }
      }
    }
  }

  lemma BlockCommitted(o: Oracles, cfg: Config, st: Statement, proof: AuditProof, i: nat)
    requires RecordsHold(o, st, proof) && CommitmentsHold(o, st, proof) && i < |st.descriptors|
    ensures i < |proof.blockComs| && CommittedTo(o, st, proof, i)
  {
    hide RecordsHold, RootsFrom, RecordMap, RootsAre;
    UniqueRecords(o, st, proof);
    RecordMapIs(proof.records);
    RootsFromIs(proof, st.descriptors[i].schemas, RecordMap(proof.records));
  }

  lemma ColumnIsOpened(o: Oracles, cfg: Config, root: Bytes, op: WireOpening, k: nat)
    requires k < |op.columns| && k < |op.values| && k < |op.paths| && BoundAt(o, cfg, root, op, k)
    ensures ColumnOpened(o, cfg, root, op, k)
  {
    hide Codeword, Checks;
    WordSizes(cfg, op.messages);
  }

  /** What Listed and Bound come to. */
  lemma RoleOpened(o: Oracles, cfg: Config, st: Statement, proof: AuditProof, s: Selected, sch: RoleSchema, op: WireOpening)
    returns (m: nat)
    requires RecordsHold(o, st, proof) && sch in AllSchemas(st.descriptors)
    requires Listed(o, st.params.rsColumns, RecordMap(proof.records), WireRoot(o, proof.records), sch, op)
    requires sch.id in RecordMap(proof.records) && Bound(o, cfg, RecordMap(proof.records)[sch.id], ColumnsFor(o, proof.digest, s), op)
    ensures m < |proof.records| && OpensRecord(o, cfg, st, proof, s, sch, op, m)
  {
    hide Checks, Codeword, NoDuplicates, AllSchemas, RecordMap, BoundAt, ColumnOpened, TreeRoot, Climb;
    UniqueRecords(o, st, proof);
    RecordMapIs(proof.records);
    DeclaredWidths(o, st, proof, sch);
    m :| 0 <= m < |proof.records| && Ids(proof.records)[m] == sch.id;
    assert proof.records[m].id == sch.id;
    WireRootIs(o, proof.records);
    assert proof.records != [];
    forall k | 0 <= k < |op.columns| ensures ColumnOpened(o, cfg, proof.records[m].root, op, k) {
      ColumnIsOpened(o, cfg, proof.records[m].root, op, k);
    }
    forall i | 0 <= i < |op.messages| ensures |op.messages[i]| == proof.records[m].widths[i] <= cfg.ELL {
      assert Widths(op.messages)[i] == |op.messages[i]|;
    }
  }

  lemma OpeningsOf(o: Oracles, cfg: Config, st: Statement, proof: AuditProof, s: Selected)
    requires st.params.Ok() && SelectedHolds(o, cfg, st, proof, s)
    ensures s.index < |st.descriptors| && s.index < |proof.blockComs|
    ensures OpeningsHold(o, cfg, st.params.rsColumns, RecordMap(proof.records), WireRoot(o, proof.records),
                         st.descriptors[s.index].schemas, ColumnsFor(o, proof.digest, s), s.openings)
  {
    hide OpeningsHold, RecordMap, WireRoot, LocalHolds, Shaped, ColumnsFor, WindowRoot;
  }

  lemma RoleIsOpened(o: Oracles, cfg: Config, st: Statement, proof: AuditProof, s: Selected, n: nat)
    requires st.params.Ok() && RecordsHold(o, st, proof) && SelectedHolds(o, cfg, st, proof, s)
    requires n < |st.descriptors[s.index].schemas|
    ensures RoleFound(o, cfg, st, proof, s, st.descriptors[s.index].schemas[n])
  {
    var schemas := st.descriptors[s.index].schemas;
    OpeningsOf(o, cfg, st, proof, s);
    hide RecordsHold, Listed, Bound, AllSchemas, RecordMap, WireRoot, OpensRecord, ColumnsFor, SelectedHolds;
    assert schemas[n].role in RolesOf(schemas);
    SchemaListed(st.descriptors, s.index, n);
    var op := s.openings[schemas[n].role];
    ListedRecord(o, st.params.rsColumns, RecordMap(proof.records), WireRoot(o, proof.records), schemas[n], op);
    var m := RoleOpened(o, cfg, st, proof, s, schemas[n], op);
  }

  lemma RolesAreNamed(o: Oracles, cfg: Config, st: Statement, proof: AuditProof, s: Selected)
    requires st.params.Ok() && SelectedHolds(o, cfg, st, proof, s)
    ensures forall r :: r in s.openings ==>
      exists n :: 0 <= n < |st.descriptors[s.index].schemas| && st.descriptors[s.index].schemas[n].role == r
  {
    var schemas := st.descriptors[s.index].schemas;
    OpeningsOf(o, cfg, st, proof, s);
    hide Listed, Bound, RecordMap, WireRoot, ColumnsFor, SelectedHolds;
    forall r | r in s.openings ensures exists n :: 0 <= n < |schemas| && schemas[n].role == r { assert r in RolesOf(schemas); }
  }

  lemma RolesAreOpened(o: Oracles, cfg: Config, st: Statement, proof: AuditProof, s: Selected)
    requires st.params.Ok() && RecordsHold(o, st, proof) && s.index < |st.descriptors| && SelectedHolds(o, cfg, st, proof, s)
    ensures RolesOpened(o, cfg, st, proof, s, st.descriptors[s.index].schemas)
  {
    hide RecordsHold, RoleFound, SelectedHolds;
    RolesAreNamed(o, cfg, st, proof, s);
    var schemas := st.descriptors[s.index].schemas;
    forall n | 0 <= n < |schemas|
      ensures RoleFound(o, cfg, st, proof, s, schemas[n])
    {
      RoleIsOpened(o, cfg, st, proof, s, n);
    }
  }

  lemma LocalIsSound(o: Oracles, kind: Kind, s: Selected, com: Bytes, w: Wires)
    requires Shaped(kind, w) && LocalHolds(kind, s.local, w, Coined(o.field, o.rounds, s.challenge, s.index, com))
    ensures LocalSound(o, kind, s, com, w)
  {
    var c := Coined(o.field, o.rounds, s.challenge, s.index, com);
    match kind {
      case MatmulKind =>
        hide Mix, Inner, Defect;
        assert c.Stream("freivalds-rho", |w["w"]|) == Coefficients(o, s, "freivalds-rho", |w["w"]|);
        FreivaldsExact(w["x"], w["w"], w["y"], Coefficients(o, s, "freivalds-rho", |w["w"]|));
      case RelationKind(_, terms) =>
        hide RelationShaped, RelationHolds, WidthLog;
        assert c.Stream("relation-eq", WidthLog(terms, w)) == Coefficients(o, s, "relation-eq", WidthLog(terms, w));
      case LookupKind(id, table) =>
        hide ProductsAgree, Prints, Expanded, Tree, Shift, AddedUp;
        var z := Coefficients(o, s, "lookup-beta-alpha", 2);
        assert c.Stream("lookup-beta-alpha", 2) == z;
        PassedLookup(s.local, id, table, w["queries"], w["multiplicities"][0], z[0], z[1]);
    }
  }

  lemma BlockIsSound(o: Oracles, cfg: Config, st: Statement, proof: AuditProof, s: Selected)
    requires st.params.Ok() && proof.digest == o.statement(st) && RecordsHold(o, st, proof) && CommitmentsHold(o, st, proof)
    requires SelectedHolds(o, cfg, st, proof, s)
    ensures BlockSound(o, cfg, st, proof, s)
  {
    hide RecordsHold, CommitmentsHold, OpeningsHold, LocalHolds, Shaped, LocalSound, RolesOpened, CommittedTo, WindowRoot, WireRoot, RecordMap;
    BlockCommitted(o, cfg, st, proof, s.index);
    RolesAreOpened(o, cfg, st, proof, s);
    assert OpenedWires(s.openings) == map r | r in s.openings :: Wire(s.openings[r].id, s.openings[r].messages);
    assert MessagesIn(OpenedWires(s.openings)) == map r | r in s.openings :: s.openings[r].messages;
    LocalIsSound(o, st.descriptors[s.index].kind, s, proof.blockComs[s.index], MessagesIn(OpenedWires(s.openings)));
  }

  /** An accepted audit: every selected block is the statement's, its wires are opened from the records its
      commitment names, and its local relation holds on what was opened. */
  lemma AuditSound(o: Oracles, cfg: Config, st: Statement, proof: AuditProof)
    requires Accepted(o, cfg, st, proof)
    ensures forall k :: 0 <= k < |proof.selected| ==> BlockSound(o, cfg, st, proof, proof.selected[k])
  {
    hide RecordsHold, CommitmentsHold, SelectedHolds, BlockSound, Sample;
    forall k | 0 <= k < |proof.selected| ensures BlockSound(o, cfg, st, proof, proof.selected[k]) {
      BlockIsSound(o, cfg, st, proof, proof.selected[k]);
    }
  }

  // --------------------------------------------------------- against committed wires

  /** The same rows, entry for entry modulo P. */
  ghost predicate Repeats(a: Matrix, b: Matrix) {
    |a| == |b| && forall i, j: nat :: 0 <= i < |a| ==> At(a[i], j) % P == At(b[i], j) % P
  }

  /** The wires behind the records' roots. */
  ghost predicate Honest(o: Oracles, cfg: Config, records: seq<WireRecord>, wires: map<string, Matrix>, coms: map<string, Commitment<Bytes>>) {
    forall m :: 0 <= m < |records| ==>
      && records[m].id in wires && records[m].id in coms
      && HonestWire(o, cfg, records[m], wires[records[m].id], coms[records[m].id])
  }

  ghost predicate HonestWire(o: Oracles, cfg: Config, rec: WireRecord, messages: Matrix, c: Commitment<Bytes>) {
    Commit.AllFit(messages, cfg.ELL) && Built(o.h, cfg, c) && c.rows == Encoded(cfg, messages) && rec.root == c.root
  }

  lemma WireOpened(o: Oracles, cfg: Config, rec: WireRecord, op: WireOpening, messages: Matrix, c: Commitment<Bytes>)
    requires cfg.Valid() && Binding(o.h) && HonestWire(o, cfg, rec, messages, c)
    requires Bound(o, cfg, rec, op.columns, op) && NoDuplicates(op.columns) && |op.columns| >= cfg.K()
    ensures Repeats(op.messages, messages)
  {
    hide Checks, Codeword, Widths, Built, NoDuplicates;
    KIsUnit(cfg);
    assert BoundAt(o, cfg, rec.root, op, 0);
    OpeningBinds(o.h, cfg, c, op.columns[0], op.values[0], op.paths[0]);
    forall i, j: nat | 0 <= i < |op.messages| ensures At(op.messages[i], j) % P == At(messages[i], j) % P {
      if Codeword(cfg, op.messages[i]) != Codeword(cfg, messages[i]) {
        FalseMessageExposed(o, cfg, c, rec, op, messages, i);
        assert false;
      }
      EncodingInjective(cfg, op.messages[i], messages[i], j);
    }
  }

  lemma RoleRepeats(o: Oracles, cfg: Config, st: Statement, proof: AuditProof, s: Selected, n: nat,
                    wires: map<string, Matrix>, coms: map<string, Commitment<Bytes>>)
    requires cfg.Valid() && Binding(o.h) && st.params.Ok() && st.params.rsColumns >= cfg.K() && Honest(o, cfg, proof.records, wires, coms)
    requires RecordsHold(o, st, proof) && SelectedHolds(o, cfg, st, proof, s) && n < |st.descriptors[s.index].schemas|
    ensures var sch := st.descriptors[s.index].schemas[n];
      sch.role in s.openings && sch.id in wires && Repeats(s.openings[sch.role].messages, wires[sch.id])
  {
    hide RecordsHold, Bound, AllSchemas, RecordMap, WireRoot, LocalHolds, Shaped, WindowRoot, HonestWire, Repeats, NoDuplicates;
    var sch := st.descriptors[s.index].schemas[n];
    assert sch.role in RolesOf(st.descriptors[s.index].schemas);
    var op := s.openings[sch.role];
    UniqueRecords(o, st, proof);
    RecordMapIs(proof.records);
    var rec := RecordMap(proof.records)[sch.id];
    var m :| 0 <= m < |proof.records| && Ids(proof.records)[m] == sch.id;
    assert proof.records[m].id == sch.id && rec == proof.records[m];
    BoundColumns(o, cfg, rec, ColumnsFor(o, proof.digest, s), op);
    WireOpened(o, cfg, rec, op, wires[sch.id], coms[sch.id]);
  }

  lemma BoundColumns(o: Oracles, cfg: Config, rec: WireRecord, columns: seq<int>, op: WireOpening)
    requires Bound(o, cfg, rec, columns, op)
    ensures op.columns == columns && Bound(o, cfg, rec, op.columns, op)
  {
    hide BoundAt, Widths;
  }

  /** With as many columns as the code has dimensions and a binding hash, every selected block of an accepted
      audit was checked on the wires that were committed: each opened message is the wire's own, modulo P. */
  lemma CommittedWiresChecked(o: Oracles, cfg: Config, st: Statement, proof: AuditProof,
                              wires: map<string, Matrix>, coms: map<string, Commitment<Bytes>>)
    requires cfg.Valid() && Binding(o.h) && st.params.rsColumns >= cfg.K() && Honest(o, cfg, proof.records, wires, coms)
    requires Accepted(o, cfg, st, proof)
    ensures forall k, n :: 0 <= k < |proof.selected| && 0 <= n < |st.descriptors[proof.selected[k].index].schemas| ==>
      var sch := st.descriptors[proof.selected[k].index].schemas[n]; var s := proof.selected[k];
      sch.role in s.openings && sch.id in wires && Repeats(s.openings[sch.role].messages, wires[sch.id])
  {
    hide RecordsHold, CommitmentsHold, OpeningsHold, LocalHolds, Shaped, WindowRoot, Sample, Honest, Repeats;
    forall k, n | 0 <= k < |proof.selected| && 0 <= n < |st.descriptors[proof.selected[k].index].schemas|
      ensures var sch := st.descriptors[proof.selected[k].index].schemas[n]; var s := proof.selected[k];
        sch.role in s.openings && sch.id in wires && Repeats(s.openings[sch.role].messages, wires[sch.id])
    {
      RoleRepeats(o, cfg, st, proof, proof.selected[k], n, wires, coms);
    }
  }
}
