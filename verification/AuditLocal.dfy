/** _prove_local and _verify_local of layergkr/sampled_audit.py. */
module AuditLocal {
  // The three kinds of block, each with its local argument under the block's own coins.

  import opened NumberTheory
  import opened Field
  import opened Polynomial
  import opened Sumcheck
  import opened Protocol
  import opened Prover
  import opened Rows
  import opened Rs
  import opened EqWeights
  import opened Contraction
  import opened Permutation
  import opened Freivalds
  import opened ProductTree
  import opened AuditRelation
  import opened Confusion
  import T = Transcript

  datatype Kind = MatmulKind | RelationKind(family: string, terms: seq<RelTerm>) | LookupKind(tableId: int, table: seq<Tuple>)

  datatype Local = MatmulLocal(w: seq<int>, y: seq<int>) | RelationLocal(sumcheck: SumcheckProof)
                 | LookupLocal(queryTree: Matrix, tableTree: Matrix)

  /** The hash as a field stream and as round coins, and what this block's coins are bound to. */
  datatype Coined = Coined(field: (Bytes, string, nat) -> int, rounds: RoundOracle, challenge: Bytes, index: nat, commitment: Bytes) {
    function Stream(name: string, n: nat): (s: seq<int>)
      ensures |s| == n && InField(s)
    {
      seq(n, i requires 0 <= i < n => field(challenge, name, i) % P)
    }

    function Context(): seq<Bytes> {
      ["verinf/audit/relation/v1", challenge, T.Little(index, 8), commitment]
    }
  }

  // ------------------------------------------------------------------- the blocks

  function WidthLog(terms: seq<RelTerm>, wires: Wires): nat {
    if terms == [] || terms[0].roles == [] then 0 else Log2(|RowOf(wires, terms[0].roles[0])|)
  }

  /** A table of equally wide, nonempty rows; queries of that width; one multiplicity a row. */
  ghost predicate LookupShaped(table: seq<Tuple>, queries: Matrix, mult: Matrix) {
    && table != [] && |table[0]| > 0 && AllWide(table, |table[0]|) && AllWide(queries, |table[0]|)
    && |mult| == 1 && |mult[0]| == |table|
  }

  /** The checks of the block constructors. */
  ghost predicate Shaped(kind: Kind, wires: Wires) {
    match kind
    case MatmulKind => wires.Keys == {"x", "w", "y"} && MatmulShaped(wires["x"], wires["w"], wires["y"])
    case RelationKind(_, terms) => RelationShaped(terms, wires, WidthLog(terms, wires)) && FewRoles(terms)
    case LookupKind(_, table) =>
      wires.Keys == {"queries", "multiplicities"} && LookupShaped(table, wires["queries"], wires["multiplicities"])
  }

  /** The block is right: Y is the product, the relation is zero everywhere, the multiplicities are
      the exact counts. */
  ghost predicate IsTrue(kind: Kind, wires: Wires)
    requires Shaped(kind, wires)
  {
    match kind
    case MatmulKind => IsOutput(wires["y"], wires["x"], wires["w"], |wires["w"][0]|)
    case RelationKind(_, terms) => AllZero(Residual(terms, wires, Pow2(WidthLog(terms, wires))))
    case LookupKind(_, table) => ExactCounts(table, wires["queries"], wires["multiplicities"][0])
  }

  ghost predicate ExactCounts(table: seq<Tuple>, queries: seq<Tuple>, mult: seq<int>) {
    (forall k :: 0 <= k < |mult| ==> mult[k] >= 0) && multiset(queries) == multiset(Expanded(table, mult))
  }

  // -------------------------------------------------------------------- the proof

  ghost function HonestLocal(kind: Kind, wires: Wires, c: Coined): Local
    requires Shaped(kind, wires)
  {
    match kind
    case MatmulKind =>
      var rho := c.Stream("freivalds-rho", |wires["w"]|);
      MatmulLocal(Mixed(wires["w"], rho, |wires["w"][0]|), OutputSums(wires["y"], rho))
    case RelationKind(_, terms) =>
      var z := c.Stream("relation-eq", WidthLog(terms, wires));
      RelationLocal(Prove(Weighted(terms, wires, Eq(z)), |z|, Coins(c.rounds, c.Context()), false, [], 0))
    case LookupKind(id, table) =>
      var s := c.Stream("lookup-beta-alpha", 2);
      LookupLocal(Tree(Shift(s[1], Prints(id, wires["queries"], s[0]))),
                  Tree(Shift(s[1], Prints(id, Expanded(table, wires["multiplicities"][0]), s[0]))))
  }

  method ProveLocal(kind: Kind, wires: Wires, c: Coined) returns (l: Local)
    requires Shaped(kind, wires)
    ensures l == HonestLocal(kind, wires, c)
  {
    hide Mix, Prove, Weighted, Eq, Coins, Tree, Shift, Prints, Expanded, RelationShaped, FewRoles, Log2;
    match kind {
      case MatmulKind =>
        var rho := c.Stream("freivalds-rho", |wires["w"]|);
        l := MatmulLocal(Mixed(wires["w"], rho, |wires["w"][0]|), OutputSums(wires["y"], rho));
      case RelationKind(_, terms) =>
        var z := c.Stream("relation-eq", WidthLog(terms, wires));
        var proof := ProveRelation(terms, wires, z, c.rounds, c.Context());
        l := RelationLocal(proof);
      case LookupKind(id, table) =>
        var s := c.Stream("lookup-beta-alpha", 2);
        var q := TuplePrints(id, wires["queries"], s[0]);
        var t := ExpandPrints(id, table, wires["multiplicities"][0], s[0]);
        var qt := ProductLevels(Shift(s[1], q));
        var tt := ProductLevels(Shift(s[1], t));
        l := LookupLocal(qt, tt);
    }
  }

  // ------------------------------------------------------------------- the check

  ghost predicate LookupHolds(l: Local, id: int, table: seq<Tuple>, queries: seq<Tuple>, mult: seq<int>, beta: int, alpha: int) {
    && l.LookupLocal? && (forall k :: 0 <= k < |mult| ==> mult[k] >= 0) && AddedUp(mult) == |queries|
    && ReducedTree(l.queryTree) == Tree(Shift(alpha, Prints(id, queries, beta)))
    && ReducedTree(l.tableTree) == Tree(Shift(alpha, Prints(id, Expanded(table, mult), beta)))
    && RootOf(l.queryTree) == RootOf(l.tableTree)
  }

  ghost predicate MatmulHolds(l: Local, X: Matrix, W: Matrix, Y: Matrix, rho: seq<int>)
    requires MatmulShaped(X, W, Y)
  {
    l.MatmulLocal? && l.w == Mixed(W, rho, |W[0]|) && l.y == OutputSums(Y, rho) && RowsAgree(X, l.w, l.y)
  }

  ghost predicate LocalHolds(kind: Kind, l: Local, wires: Wires, c: Coined)
    requires Shaped(kind, wires)
  {
    match kind
    case MatmulKind => MatmulHolds(l, wires["x"], wires["w"], wires["y"], c.Stream("freivalds-rho", |wires["w"]|))
    case RelationKind(_, terms) =>
      l.RelationLocal?
      && RelationHolds(l.sumcheck, terms, wires, c.Stream("relation-eq", WidthLog(terms, wires)), c.rounds, c.Context())
    case LookupKind(id, table) =>
      var s := c.Stream("lookup-beta-alpha", 2);
      LookupHolds(l, id, table, wires["queries"], wires["multiplicities"][0], s[0], s[1])
  }

  method CheckLookup(l: Local, id: int, table: seq<Tuple>, queries: seq<Tuple>, mult: seq<int>, beta: int, alpha: int)
    returns (ok: bool)
    requires |table| == |mult|
    ensures ok <==> LookupHolds(l, id, table, queries, mult, beta, alpha)
  {
    hide Tree, Shift, Prints, Expanded, AddedUp;
    if !l.LookupLocal? {
      return false;
    }
    var total, negative := AddUp(mult);
    if negative || total != |queries| {
      return false;
    }
    var q := TuplePrints(id, queries, beta);
    var t := ExpandPrints(id, table, mult, beta);
    var good := CheckProductTree(l.queryTree, Shift(alpha, q));
    if !good {
      return false;
    }
    good := CheckProductTree(l.tableTree, Shift(alpha, t));
    ok := good && RootOf(l.queryTree) == RootOf(l.tableTree);
  }

  method VerifyLocal(kind: Kind, l: Local, wires: Wires, c: Coined) returns (ok: bool)
    requires Shaped(kind, wires)
    ensures ok <==> LocalHolds(kind, l, wires, c)
  {
    hide Mix, LookupHolds, RelationHolds, RelationShaped, FewRoles, RowsAgree, Log2;
    match kind {
      case MatmulKind =>
        var rho := c.Stream("freivalds-rho", |wires["w"]|);
        var wp := Mixed(wires["w"], rho, |wires["w"][0]|);
        var yp := OutputSums(wires["y"], rho);
        if !l.MatmulLocal? || wp != l.w || yp != l.y {
          return false;
        }
        ok := CheckRows(wires["x"], wp, yp);
      case RelationKind(_, terms) =>
        if !l.RelationLocal? {
          return false;
        }
        ok := VerifyRelation(l.sumcheck, terms, wires, c.Stream("relation-eq", WidthLog(terms, wires)), c.rounds, c.Context());
      case LookupKind(id, table) =>
        var s := c.Stream("lookup-beta-alpha", 2);
        ok := CheckLookup(l, id, table, wires["queries"], wires["multiplicities"][0], s[0], s[1]);
    }
  }

  // ------------------------------------------------------------------ the results

  /** The honest lookup argument passes exactly when the counts add up and the products agree. */
  lemma LookupExact(id: int, table: seq<Tuple>, queries: seq<Tuple>, mult: seq<int>, beta: int, alpha: int)
    ensures LookupHolds(LookupLocal(Tree(Shift(alpha, Prints(id, queries, beta))),
                                    Tree(Shift(alpha, Prints(id, Expanded(table, mult), beta)))),
                        id, table, queries, mult, beta, alpha)
            <==> (forall k :: 0 <= k < |mult| ==> mult[k] >= 0) && AddedUp(mult) == |queries|
                 && ProductsAgree(Prints(id, queries, beta), Prints(id, Expanded(table, mult), beta), alpha)
  {
    var q, t := Prints(id, queries, beta), Prints(id, Expanded(table, mult), beta);
    HonestTree(Shift(alpha, q));
    HonestTree(Shift(alpha, t));
    RootsAgree(alpha, q, t);
    hide Tree, Shift, Prints, Expanded, ProductsAgree;
  }

  /** A wrong multiset of query fingerprints passes at fewer alphas than there are queries,
      whatever trees are sent. */
  lemma WrongLookupPassesRarely(id: int, table: seq<Tuple>, queries: seq<Tuple>, mult: seq<int>, beta: int, alphas: set<int>)
    requires |table| == |mult|
    requires multiset(Prints(id, queries, beta)) != multiset(Prints(id, Expanded(table, mult), beta))
    requires forall a :: a in alphas ==> 0 <= a < P && exists l :: LookupHolds(l, id, table, queries, mult, beta, a)
    ensures alphas != {} ==> |alphas| < |queries|
  {
    hide Tree, Shift, Prints, Expanded, ProductsAgree, AddedUp, RootOf;
    var q, t := Prints(id, queries, beta), Prints(id, Expanded(table, mult), beta);
    if alphas != {} {
      forall a | a in alphas ensures 0 <= a < P && ProductsAgree(q, t, a) && |q| == |t| {
        var l :| LookupHolds(l, id, table, queries, mult, beta, a);
        PassedLookup(l, id, table, queries, mult, beta, a);
      }
      var a :| a in alphas;
      assert |q| == |t|;
      PrintsInField(id, queries, beta);
      PrintsInField(id, Expanded(table, mult), beta);
      WrongCountsAgreeRarely(q, t, alphas);
      assert |q| == |queries|;
    }
  }

  // ------------------------------------------------------- the lookup, over both coins

  lemma TaggedPrints(id: int, rows: seq<Tuple>, beta: int)
    ensures Prints(id, rows, beta) == PrintsOf(Behind(id, rows), beta)
  {
    hide Compress;
  }

  lemma {:induction false} TaggedCount(id: int, rows: seq<Tuple>, u: seq<int>)
    ensures multiset(AllResidues(Behind(id, rows)))[[id % P] + u] == multiset(AllResidues(rows))[u]
  {
    if rows != [] {
      var n := |rows| - 1;
      var t, r := AllResidues(Behind(id, rows)), AllResidues(rows);
      TaggedCount(id, rows[..n], u);
      assert Residue([id] + rows[n]) == [id % P] + Residue(rows[n]);
      assert t == AllResidues(Behind(id, rows[..n])) + [[id % P] + r[n]] && r == AllResidues(rows[..n]) + [r[n]];
      assert [id % P] + r[n] == [id % P] + u <==> r[n] == u by {
        if [id % P] + r[n] == [id % P] + u { assert ([id % P] + r[n])[1..] == r[n] && ([id % P] + u)[1..] == u; }
      }
    }
  }

  lemma TaggedDiffer(id: int, a: seq<Tuple>, b: seq<Tuple>)
    requires |a| == |b| && multiset(AllResidues(a)) != multiset(AllResidues(b))
    ensures multiset(AllResidues(Behind(id, a))) != multiset(AllResidues(Behind(id, b)))
  {
    hide AllResidues, Behind;
    assert |AllResidues(a)| == |AllResidues(b)| by { AsMany(a); AsMany(b); }
    var u := Heavier(AllResidues(a), AllResidues(b));
    TaggedCount(id, a, u);
    TaggedCount(id, b, u);
  }

  lemma AsMany(ts: seq<seq<int>>)
    ensures |AllResidues(ts)| == |ts|
  {}

  lemma {:induction false} ExpandedWide(table: seq<Tuple>, mult: seq<int>, w: nat)
    requires AllWide(table, w)
    ensures AllWide(Expanded(table, mult), w)
  {
    if table != [] && mult != [] {
      var n := if |table| <= |mult| then |table| else |mult|;
      ExpandedWide(table[..n - 1], mult[..n - 1], w);
    }
  }

  /** The coins under which a lookup passes although, modulo P, its queries are not the table's rows
      as often as its multiplicities say: for n queries of width w at most (w + 1) n - 1 in P of all
      pairs (beta, alpha), whatever trees are sent. */
  lemma ForgedLookupPairs(id: int, table: seq<Tuple>, queries: seq<Tuple>, mult: seq<int>, w: nat, pairs: set<(int, int)>)
    requires |table| == |mult| && AllWide(table, w) && AllWide(queries, w)
    requires multiset(AllResidues(queries)) != multiset(AllResidues(Expanded(table, mult)))
    requires forall p :: p in pairs ==>
      0 <= p.0 < P && 0 <= p.1 < P && exists l :: LookupHolds(l, id, table, queries, mult, p.0, p.1)
    ensures pairs != {} ==> |pairs| <= ((w + 1) * |queries| - 1) * P
  {
    hide LookupHolds, Expanded, AllResidues, AllWide, Over;
    if pairs != {} {
      var p :| p in pairs;
      var l :| LookupHolds(l, id, table, queries, mult, p.0, p.1);
      AsManyRows(l, id, table, queries, mult, p.0, p.1);
      NotAllEmpty(queries, Expanded(table, mult));
      var bad := ConfusedBetas(id, table, queries, mult);
      LookupBetas(id, queries, Expanded(table, mult), w, bad, table, mult);
      forall b | 0 <= b < P && b !in bad ensures |Over(pairs, b)| <= |queries| - 1 {
        LookupAlphas(id, table, queries, mult, b, pairs);
      }
      hide *;
      TwoCoins(pairs, bad, |queries| * w, |queries| - 1);
      PairAlgebra(|queries|, w);
    }
  }

  lemma AsManyRows(l: Local, id: int, table: seq<Tuple>, queries: seq<Tuple>, mult: seq<int>, beta: int, alpha: int)
    requires |table| == |mult| && LookupHolds(l, id, table, queries, mult, beta, alpha)
    ensures |Expanded(table, mult)| == |queries|
  {
    hide *;
    PassedLookup(l, id, table, queries, mult, beta, alpha);
    PrintsInField(id, queries, beta);
    PrintsInField(id, Expanded(table, mult), beta);
  }

  lemma ConfusedBetas(id: int, table: seq<Tuple>, queries: seq<Tuple>, mult: seq<int>) returns (bad: set<int>)
    ensures forall b :: b in bad
              <==> 0 <= b < P && multiset(Prints(id, queries, b)) == multiset(Prints(id, Expanded(table, mult), b))
  {
    hide Prints, Expanded;
    var all := Residues();
    bad := set b | b in all && multiset(Prints(id, queries, b)) == multiset(Prints(id, Expanded(table, mult), b));
  }

  lemma PairAlgebra(n: int, w: int)
    ensures n * w + (n - 1) == (w + 1) * n - 1
  {}

  lemma NotAllEmpty(a: seq<Tuple>, b: seq<Tuple>)
    requires |a| == |b| && multiset(AllResidues(a)) != multiset(AllResidues(b))
    ensures |a| > 0
  {
    assert a == [] ==> a == b;
  }

  lemma LookupBetas(id: int, queries: seq<Tuple>, rows: seq<Tuple>, w: nat, bad: set<int>, table: seq<Tuple>, mult: seq<int>)
    requires |queries| == |rows| && rows == Expanded(table, mult) && AllWide(table, w) && AllWide(queries, w)
    requires multiset(AllResidues(queries)) != multiset(AllResidues(rows))
    requires forall b :: b in bad ==> 0 <= b < P && multiset(Prints(id, queries, b)) == multiset(Prints(id, rows, b))
    ensures |bad| <= |queries| * w
  {
    hide Prints, PrintsOf, AllResidues, Expanded;
    ExpandedWide(table, mult, w);
    TaggedDiffer(id, queries, rows);
    forall b | b in bad
      ensures 0 <= b < P && multiset(PrintsOf(Behind(id, queries), b)) == multiset(PrintsOf(Behind(id, rows), b))
    {
      TaggedPrints(id, queries, b);
      TaggedPrints(id, rows, b);
    }
    ListsConfusedRarely(Behind(id, queries), Behind(id, rows), w + 1, bad);
  }

  lemma LookupAlphas(id: int, table: seq<Tuple>, queries: seq<Tuple>, mult: seq<int>, b: int, pairs: set<(int, int)>)
    requires |table| == |mult| && queries != [] && multiset(Prints(id, queries, b)) != multiset(Prints(id, Expanded(table, mult), b))
    requires forall p :: p in pairs ==> 0 <= p.1 < P && exists l :: LookupHolds(l, id, table, queries, mult, p.0, p.1)
    ensures |Over(pairs, b)| <= |queries| - 1
  {
    hide LookupHolds, Prints, Expanded;
    var alphas := Over(pairs, b);
    forall a | a in alphas ensures 0 <= a < P && exists l :: LookupHolds(l, id, table, queries, mult, b, a) {
      assert (b, a) in pairs;
    }
    WrongLookupPassesRarely(id, table, queries, mult, b, alphas);
  }

  lemma PrintsInField(id: int, rows: seq<Tuple>, beta: int)
    ensures InField(Prints(id, rows, beta)) && |Prints(id, rows, beta)| == |rows|
  {}

  lemma PassedLookup(l: Local, id: int, table: seq<Tuple>, queries: seq<Tuple>, mult: seq<int>, beta: int, alpha: int)
    requires |table| == |mult| && LookupHolds(l, id, table, queries, mult, beta, alpha)
    ensures ProductsAgree(Prints(id, queries, beta), Prints(id, Expanded(table, mult), beta), alpha)
    ensures |Prints(id, queries, beta)| == |Prints(id, Expanded(table, mult), beta)|
  {
    var q, t := Prints(id, queries, beta), Prints(id, Expanded(table, mult), beta);
    ExpandedSize(table, mult);
    RootsAgree(alpha, q, t);
    ReducedRoot(l.queryTree);
    ReducedRoot(l.tableTree);
    hide Tree, Shift, Prints, Expanded, ProductsAgree;
  }

  lemma ReducedRoot(tree: Matrix)
    ensures RootOf(ReducedTree(tree)) == RootOf(tree) % P
  {
    ModSmall(0, P);
  }

  /** A right block passes under any coins. */
  lemma TrueBlockPasses(kind: Kind, wires: Wires, c: Coined)
    requires Shaped(kind, wires) && IsTrue(kind, wires)
    ensures LocalHolds(kind, HonestLocal(kind, wires, c), wires, c)
  {
    match kind
    case MatmulKind =>
      TrueMatmul(wires, c);
    case RelationKind(_, terms) =>
      hide *;
      TrueRelation(kind, terms, wires, c);
    case LookupKind(id, table) =>
      hide *;
      TrueLookup(kind, id, table, wires, c);
  }

  lemma TrueMatmul(wires: Wires, c: Coined)
    requires Shaped(MatmulKind, wires) && IsTrue(MatmulKind, wires)
    ensures LocalHolds(MatmulKind, HonestLocal(MatmulKind, wires, c), wires, c)
  {
    hide Mix, RowsAgree, IsOutput;
    RightMatmulPasses(wires["x"], wires["w"], wires["y"], c.Stream("freivalds-rho", |wires["w"]|));
  }

  lemma TrueRelation(kind: Kind, terms: seq<RelTerm>, wires: Wires, c: Coined)
    requires kind.RelationKind? && kind.terms == terms && Shaped(kind, wires) && IsTrue(kind, wires)
    ensures LocalHolds(kind, HonestLocal(kind, wires, c), wires, c)
  {
    hide RelationShaped, FewRoles, AllZero, Residual, Prove, Weighted, Eq, Coins, RelationHolds, Log2, Pow2;
    TrueRelationPasses(terms, wires, c.Stream("relation-eq", WidthLog(terms, wires)), c.rounds, c.Context());
  }

  lemma TrueLookup(kind: Kind, id: int, table: seq<Tuple>, wires: Wires, c: Coined)
    requires kind == LookupKind(id, table) && Shaped(kind, wires) && IsTrue(kind, wires)
    ensures LocalHolds(kind, HonestLocal(kind, wires, c), wires, c)
  {
    hide LookupHolds, Tree, Shift, Prints, Expanded, ProductsAgree, AddedUp;
    var s, q, mult := c.Stream("lookup-beta-alpha", 2), wires["queries"], wires["multiplicities"][0];
    ExpandedSize(table, mult);
    assert |q| == |multiset(q)| == |multiset(Expanded(table, mult))| == |Expanded(table, mult)|;
    ExactCountsAgree(id, q, Expanded(table, mult), s[0], s[1]);
    LookupExact(id, table, q, mult, s[0], s[1]);
  }
}
