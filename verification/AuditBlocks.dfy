/** The blocks, manifest and statement of layergkr/sampled_audit.py: wires with global names, blocks
    that refer to them by role, and the public description of both. */
module AuditBlocks {
  import opened NumberTheory
  import opened Field
  import opened Polynomial
  import opened Domain
  import opened Rows
  import opened Rs
  import opened Merkle
  import opened Commit
  import opened Protocol
  import opened Prover
  import opened AuditRelation
  import opened AuditPlan
  import opened AuditLocal

  // -------------------------------------------------------------------- the data

  datatype Wire = Wire(id: string, messages: Matrix)
  datatype Named = Named(role: string, wire: Wire)
  datatype Block = Block(index: nat, name: string, kind: Kind, wires: seq<Named>)

  datatype RoleSchema = RoleSchema(role: string, id: string, widths: seq<nat>)
  datatype Descriptor = Descriptor(index: nat, name: string, kind: Kind, schemas: seq<RoleSchema>)
  datatype Statement = Statement(params: AuditParams, io: Bytes, descriptors: seq<Descriptor>)

  function Widths(m: Matrix): (w: seq<nat>)
    ensures |w| == |m| && forall i :: 0 <= i < |m| ==> w[i] == |m[i]|
  {
    seq(|m|, i requires 0 <= i < |m| => |m[i]|)
  }

  function Schemas(wires: seq<Named>): (s: seq<RoleSchema>)
    ensures |s| == |wires|
    ensures forall k :: 0 <= k < |s| ==> s[k] == RoleSchema(wires[k].role, wires[k].wire.id, Widths(wires[k].wire.messages))
  {
    seq(|wires|, k requires 0 <= k < |wires| => RoleSchema(wires[k].role, wires[k].wire.id, Widths(wires[k].wire.messages)))
  }

  function ReducedTerms(terms: seq<RelTerm>): (ts: seq<RelTerm>)
    ensures |ts| == |terms| && forall k :: 0 <= k < |ts| ==> ts[k] == RelTerm(terms[k].coeff % P, terms[k].roles)
  {
    seq(|terms|, k requires 0 <= k < |terms| => RelTerm(terms[k].coeff % P, terms[k].roles))
  }

  /** The kind as the descriptor publishes it: coefficients reduced. */
  function Public(kind: Kind): Kind {
    match kind case RelationKind(f, terms) => RelationKind(f, ReducedTerms(terms)) case _ => kind
  }

  function Describe(b: Block): Descriptor {
    Descriptor(b.index, b.name, Public(b.kind), Schemas(b.wires))
  }

  /** The dictionary of a block's wires. */
  function ByRole(wires: seq<Named>): map<string, Wire> {
    if wires == [] then map[]
    else
      var n := |wires| - 1;
      ByRole(wires[..n])[wires[n].role := wires[n].wire]
  }

  function MessagesIn(m: map<string, Wire>): (ms: Wires)
    ensures ms.Keys == m.Keys && forall r <- m :: ms[r] == m[r].messages
  {
    map r | r in m :: m[r].messages
  }

  ghost predicate DistinctRoles(wires: seq<Named>) {
    forall i, k :: 0 <= i < k < |wires| ==> wires[i].role != wires[k].role
  }

  lemma {:induction false} RoleIs(wires: seq<Named>)
    requires DistinctRoles(wires)
    ensures forall k :: 0 <= k < |wires| ==> wires[k].role in ByRole(wires) && ByRole(wires)[wires[k].role] == wires[k].wire
    ensures forall r <- ByRole(wires) :: exists k :: 0 <= k < |wires| && wires[k].role == r
  {
    if wires != [] {
      var n := |wires| - 1;
      RoleIs(wires[..n]);
      forall k | 0 <= k < |wires|
        ensures wires[k].role in ByRole(wires) && ByRole(wires)[wires[k].role] == wires[k].wire
      {
        if k < n { assert wires[..n][k] == wires[k]; }
      }
      forall r | r in ByRole(wires) ensures exists k :: 0 <= k < |wires| && wires[k].role == r {
        if r in ByRole(wires[..n]) {
          var k :| 0 <= k < n && wires[..n][k].role == r;
          assert wires[k].role == r;
        } else {
          assert wires[n].role == r;
        }
      }
    }
  }

  /** A block its constructor lets through. */
  ghost predicate BlockOk(b: Block) {
    DistinctRoles(b.wires) && Shaped(b.kind, MessagesIn(ByRole(b.wires)))
  }

  // ----------------------------------------------------------- shapes from widths

  ghost predicate SameWidths(a: Wires, b: Wires) {
    a.Keys == b.Keys && forall r <- a :: Widths(a[r]) == Widths(b[r])
  }

  lemma WidthAt(a: Wires, b: Wires, r: string, i: nat)
    requires SameWidths(a, b) && r in a && i < |a[r]|
    ensures r in b && i < |b[r]| && |a[r][i]| == |b[r][i]|
  {
    assert Widths(a[r])[i] == Widths(b[r])[i];
  }

  lemma SizesAgree(a: Wires, b: Wires, r: string)
    requires SameWidths(a, b) && r in a
    ensures r in b && |a[r]| == |b[r]| && forall i :: 0 <= i < |a[r]| ==> |a[r][i]| == |b[r][i]|
  {
    assert |Widths(a[r])| == |Widths(b[r])|;
    forall i | 0 <= i < |a[r]| ensures |a[r][i]| == |b[r][i]| { WidthAt(a, b, r, i); }
  }

  /** The constructor's checks look at widths only. */
  lemma ShapeIsWidths(kind: Kind, a: Wires, b: Wires)
    requires SameWidths(a, b) && Shaped(kind, a)
    ensures Shaped(kind, b)
  {
    hide SameWidths, Widths;
    match kind
    case MatmulKind =>
      assert b.Keys == a.Keys by { KeysAgree(a, b); }
      assert "x" in a.Keys && "w" in a.Keys && "y" in a.Keys;
      SizesAgree(a, b, "x");
      SizesAgree(a, b, "w");
      SizesAgree(a, b, "y");
    case RelationKind(_, terms) =>
      RelationWidths(terms, a, b);
    case LookupKind(_, table) =>
      assert b.Keys == a.Keys by { KeysAgree(a, b); }
      assert "multiplicities" in a.Keys && "queries" in a.Keys;
      SizesAgree(a, b, "multiplicities");
      SizesAgree(a, b, "queries");
  }

  lemma KeysAgree(a: Wires, b: Wires)
    requires SameWidths(a, b)
    ensures a.Keys == b.Keys
  {}

  lemma RelationWidths(terms: seq<RelTerm>, a: Wires, b: Wires)
    requires SameWidths(a, b) && RelationShaped(terms, a, WidthLog(terms, a))
    ensures RelationShaped(terms, b, WidthLog(terms, b)) && WidthLog(terms, b) == WidthLog(terms, a)
  {
    hide SameWidths, Widths, Log2, Pow2;
    KeysAgree(a, b);
    var first := terms[0].roles;
    assert Known(terms[0], a);
    SizesAgree(a, b, first[0]);
    var n := WidthLog(terms, a);
    forall r | r in b ensures |b[r]| == 1 && |b[r][0]| == Pow2(n) { SizesAgree(a, b, r); }
    forall k | 0 <= k < |terms| ensures Known(terms[k], b) { assert Known(terms[k], a); }
  }

  // --------------------------------------------------------------- the manifest

  function AllSchemas(ds: seq<Descriptor>): seq<RoleSchema> {
    if ds == [] then [] else AllSchemas(ds[..|ds| - 1]) + ds[|ds| - 1].schemas
  }

  /** The wire ids in order of first mention. */
  function Mentioned(ss: seq<RoleSchema>): seq<string> {
    if ss == [] then []
    else
      var before := Mentioned(ss[..|ss| - 1]);
      var id := ss[|ss| - 1].id;
      if id in before then before else before + [id]
  }

  /** One schema per wire. */
  ghost predicate Agreeing(ss: seq<RoleSchema>) {
    forall i, k :: 0 <= i < k < |ss| && ss[i].id == ss[k].id ==> ss[i].widths == ss[k].widths
  }

  lemma {:induction false} MentionedIs(ss: seq<RoleSchema>)
    ensures forall i, k :: 0 <= i < k < |Mentioned(ss)| ==> Mentioned(ss)[i] != Mentioned(ss)[k]
    ensures forall id :: id in Mentioned(ss) <==> exists k :: 0 <= k < |ss| && ss[k].id == id
  {
    if ss != [] {
      var n := |ss| - 1;
      MentionedIs(ss[..n]);
      forall id ensures id in Mentioned(ss) <==> exists k :: 0 <= k < |ss| && ss[k].id == id {
        if id in Mentioned(ss[..n]) {
          var k :| 0 <= k < n && ss[..n][k].id == id;
          assert ss[k].id == id;
        }
        if exists k :: 0 <= k < |ss| && ss[k].id == id {
          var k :| 0 <= k < |ss| && ss[k].id == id;
          if k < n { assert ss[..n][k].id == id; }
        }
      }
    }
  }

  /** The schemas read so far, by id. */
  ghost predicate Read(widths: map<string, seq<nat>>, ss: seq<RoleSchema>) {
    && (forall k :: 0 <= k < |ss| ==> ss[k].id in widths && widths[ss[k].id] == ss[k].widths)
    && forall id <- widths :: exists k :: 0 <= k < |ss| && ss[k].id == id
  }

  lemma ReadAgrees(widths: map<string, seq<nat>>, ss: seq<RoleSchema>)
    requires Read(widths, ss)
    ensures Agreeing(ss)
  {}

  lemma ReadNext(widths: map<string, seq<nat>>, ss: seq<RoleSchema>, s: RoleSchema)
    requires Read(widths, ss)
    ensures s.id in widths && widths[s.id] != s.widths ==> !Agreeing(ss + [s])
    ensures s.id in widths && widths[s.id] == s.widths ==> Read(widths, ss + [s])
    ensures s.id !in widths ==> Read(widths[s.id := s.widths], ss + [s])
    ensures s.id in widths <==> s.id in Mentioned(ss)
  {
    var all := ss + [s];
    MentionedIs(ss);
    if s.id in widths {
      var k :| 0 <= k < |ss| && ss[k].id == s.id;
      assert all[k].id == all[|ss|].id;
    }
    forall id | id in widths ensures exists k :: 0 <= k < |all| && all[k].id == id {
      var k :| 0 <= k < |ss| && ss[k].id == id;
      assert all[k].id == id;
    }
    assert all[|ss|].id == s.id;
  }

  lemma PrefixDisagrees(ss: seq<RoleSchema>, n: nat)
    requires n <= |ss| && !Agreeing(ss[..n])
    ensures !Agreeing(ss)
  {}

  /** The public schemas in order, refused where a wire is described twice differently. */
  method ReadManifest(ds: seq<Descriptor>) returns (ok: bool, order: seq<string>, widths: map<string, seq<nat>>)
    ensures ok <==> Agreeing(AllSchemas(ds))
    ensures ok ==> order == Mentioned(AllSchemas(ds)) && Read(widths, AllSchemas(ds))
  {
    hide Agreeing, Read;
    var ss := AllSchemas(ds);
    order, widths := [], map[];
    NothingRead();
    assert ss[..0] == [];
    for k := 0 to |ss|
      invariant order == Mentioned(ss[..k]) && Read(widths, ss[..k])
    {
      var s := ss[k];
      assert ss[..k + 1] == ss[..k] + [s] && ss[..k + 1][..k] == ss[..k];
      ReadNext(widths, ss[..k], s);
      if s.id in widths {
        if widths[s.id] != s.widths {
          PrefixDisagrees(ss, k + 1);
          return false, order, widths;
        }
      } else {
        widths := widths[s.id := s.widths];
        order := order + [s.id];
      }
    }
    assert ss[..|ss|] == ss;
    ReadAgrees(widths, ss);
    ok := true;
  }

  lemma NothingRead()
    ensures Read(map[], [])
  {}

  // -------------------------------------------------------------- the statement

  function DescribeAll(blocks: seq<Block>): (ds: seq<Descriptor>)
    ensures |ds| == |blocks| && forall i :: 0 <= i < |ds| ==> ds[i] == Describe(blocks[i])
  {
    seq(|blocks|, i requires 0 <= i < |blocks| => Describe(blocks[i]))
  }

  ghost predicate Canonical(blocks: seq<Block>) {
    forall i :: 0 <= i < |blocks| ==> blocks[i].index == i
  }

  method CheckCanonical(blocks: seq<Block>) returns (ok: bool)
    ensures ok <==> Canonical(blocks)
  {
    ok := forall i :: 0 <= i < |blocks| ==> blocks[i].index == i;
  }

  /** from_blocks: refused for bad parameters, a wrong count, or indices other than 0..n-1. */
  method FromBlocks(params: AuditParams, io: Bytes, blocks: seq<Block>) returns (r: Result<Statement>)
    ensures r.Ok? <==> params.Ok() && |blocks| == params.totalBlocks && Canonical(blocks)
    ensures r.Ok? ==> r.value == Statement(params, io, DescribeAll(blocks))
  {
    if !params.Ok() || |blocks| != params.totalBlocks {
      return ValueError;
    }
    var ok := CheckCanonical(blocks);
    if !ok {
      return ValueError;
    }
    r := Ok(Statement(params, io, DescribeAll(blocks)));
  }

  /** A descriptor some block could have: distinct roles, widths its kind allows. */
  ghost predicate DescriptorOk(d: Descriptor) {
    && (forall i, k :: 0 <= i < k < |d.schemas| ==> d.schemas[i].role != d.schemas[k].role)
    && exists w :: HasWidths(d.schemas, w) && Shaped(d.kind, w)
  }

  ghost predicate HasWidths(schemas: seq<RoleSchema>, w: Wires) {
    && (forall k :: 0 <= k < |schemas| ==> schemas[k].role in w && Widths(w[schemas[k].role]) == schemas[k].widths)
    && forall r <- w :: exists k :: 0 <= k < |schemas| && schemas[k].role == r
  }

  ghost predicate StatementOk(st: Statement) {
    && st.params.Ok() && |st.descriptors| == st.params.totalBlocks
    && forall i :: 0 <= i < |st.descriptors| ==> DescriptorOk(st.descriptors[i]) && st.descriptors[i].index == i
  }

  lemma WidthsDetermine(schemas: seq<RoleSchema>, v: Wires, w: Wires)
    requires HasWidths(schemas, v) && HasWidths(schemas, w)
    ensures SameWidths(v, w)
  {
    forall r | r in v ensures r in w && Widths(v[r]) == Widths(w[r]) {
      var k :| 0 <= k < |schemas| && schemas[k].role == r;
    }
    forall r | r in w ensures r in v {
      var k :| 0 <= k < |schemas| && schemas[k].role == r;
    }
    assert v.Keys == w.Keys;
  }

  /** Opened messages of the published widths have the published shape. */
  lemma OpenedShape(d: Descriptor, w: Wires)
    requires DescriptorOk(d) && HasWidths(d.schemas, w)
    ensures Shaped(d.kind, w)
  {
    hide Shaped, HasWidths, SameWidths;
    var v :| HasWidths(d.schemas, v) && Shaped(d.kind, v);
    WidthsDetermine(d.schemas, v, w);
    ShapeIsWidths(d.kind, v, w);
  }

  // ------------------------------------------------------ publishing changes nothing

  lemma PublicTerms(terms: seq<RelTerm>, w: Wires, e: seq<int>)
    ensures Weighted(ReducedTerms(terms), w, e) == Weighted(terms, w, e) && Bare(ReducedTerms(terms), w) == Bare(terms, w)
    ensures WidthLog(ReducedTerms(terms), w) == WidthLog(terms, w)
  {
    forall k | 0 <= k < |terms| ensures ReducedTerms(terms)[k].coeff % P == terms[k].coeff % P {
      ModMod(terms[k].coeff, P);
    }
  }

  lemma PublicShaped(kind: Kind, w: Wires)
    ensures Shaped(Public(kind), w) <==> Shaped(kind, w)
  {
    match kind
    case RelationKind(_, terms) =>
      PublicTerms(terms, w, []);
      PublicRelation(terms, w, WidthLog(terms, w));
    case _ =>
  }

  lemma PublicRelation(terms: seq<RelTerm>, w: Wires, n: nat)
    ensures RelationShaped(ReducedTerms(terms), w, n) <==> RelationShaped(terms, w, n)
    ensures FewRoles(ReducedTerms(terms)) <==> FewRoles(terms)
  {
    hide Pow2;
    var rs := ReducedTerms(terms);
    forall k | 0 <= k < |terms| ensures Known(rs[k], w) <==> Known(terms[k], w) {}
    forall k | 0 <= k < |terms| ensures |rs[k].roles| == |terms[k].roles| {}
  }

  /** Prover and verifier work on the same argument. */
  lemma PublicLocal(kind: Kind, w: Wires, l: Local, c: Coined)
    requires Shaped(kind, w)
    ensures Shaped(Public(kind), w) && HonestLocal(Public(kind), w, c) == HonestLocal(kind, w, c)
    ensures LocalHolds(Public(kind), l, w, c) <==> LocalHolds(kind, l, w, c)
  {
    PublicShaped(kind, w);
    match kind
    case RelationKind(f, terms) =>
      hide Prove, Weighted, RelationShaped, FewRoles, Log2, Coins, WidthLog;
      var z := c.Stream("relation-eq", WidthLog(terms, w));
      PublicTerms(terms, w, EqWeights.Eq(z));
    case _ =>
  }

  /** A well-formed block's description is one a statement may hold. */
  lemma DescribeOk(b: Block)
    requires BlockOk(b)
    ensures DescriptorOk(Describe(b)) && HasWidths(Describe(b).schemas, MessagesIn(ByRole(b.wires)))
  {
    hide *;
    var w := MessagesIn(ByRole(b.wires));
    BlockParts(b);
    OwnWidths(b.wires);
    PublicShaped(b.kind, w);
    DescriptorIs(b, w);
  }

  lemma BlockParts(b: Block)
    requires BlockOk(b)
    ensures DistinctRoles(b.wires) && Shaped(b.kind, MessagesIn(ByRole(b.wires)))
  {
    hide Shaped, ByRole;
  }

  lemma OwnWidths(wires: seq<Named>)
    requires DistinctRoles(wires)
    ensures HasWidths(Schemas(wires), MessagesIn(ByRole(wires)))
  {
    RoleIs(wires);
    hide ByRole, Widths, DistinctRoles;
    var w, ss := MessagesIn(ByRole(wires)), Schemas(wires);
    forall k | 0 <= k < |ss| ensures ss[k].role in w && Widths(w[ss[k].role]) == ss[k].widths {
      assert wires[k].role in ByRole(wires);
    }
    forall r | r in w ensures exists k :: 0 <= k < |ss| && ss[k].role == r {
      var k :| 0 <= k < |wires| && wires[k].role == r;
      assert ss[k].role == r;
    }
  }

  lemma DescriptorIs(b: Block, w: Wires)
    requires DistinctRoles(b.wires) && HasWidths(Schemas(b.wires), w) && Shaped(Public(b.kind), w)
    ensures DescriptorOk(Describe(b)) && HasWidths(Describe(b).schemas, w)
  {
    hide Shaped, HasWidths, Widths;
  }
}
