/** rs.Commit: a column-Merkle commitment to a list of codewords. The hash is a parameter. */
module Commit {
  import opened NumberTheory
  import opened Domain
  import opened Rs
  import opened Merkle
  import opened Rows

  /** merkle_leaf and the two-to-one node hash. */
  datatype Hash<!T> = Hash(leaf: seq<int> -> T, node: (T, T) -> T)

  ghost predicate Binding<T(!new)>(h: Hash<T>) {
    Injective(h.node) && forall u, v :: h.leaf(u) == h.leaf(v) ==> u == v
  }

  datatype Commitment<T> = Commitment(rows: seq<seq<int>>, levels: seq<seq<T>>, root: T)

  function Column(rows: seq<seq<int>>, width: nat, j: nat): (c: seq<int>)
    requires AllWide(rows, width) && j < width
    ensures |c| == |rows| && forall i :: 0 <= i < |rows| ==> c[i] == rows[i][j]
  {
    seq(|rows|, i requires 0 <= i < |rows| => rows[i][j])
  }

  function Leaves<T>(h: Hash<T>, rows: seq<seq<int>>, width: nat): (leaves: seq<T>)
    requires AllWide(rows, width)
    ensures |leaves| == width
  {
    seq(width, j requires 0 <= j < width => h.leaf(Column(rows, width, j)))
  }

  ghost predicate Built<T>(h: Hash<T>, cfg: Config, c: Commitment<T>) {
    && AllWide(c.rows, cfg.N())
    && c.levels == Levels(h.node, Leaves(h, c.rows, cfg.N()))
    && c.root == TreeRoot(h.node, Leaves(h, c.rows, cfg.N()))
  }

  method CommitRows<T>(h: Hash<T>, cfg: Config, codewords: seq<seq<int>>) returns (c: Commitment<T>)
    requires AllWide(codewords, cfg.N())
    ensures Built(h, cfg, c) && c.rows == codewords
  {
    var leaves := Leaves(h, codewords, cfg.N());
    var levels := BuildTree(h.node, leaves);
    RootIsLast(h.node, leaves);
    c := Commitment(codewords, levels, levels[|levels| - 1][0]);
  }

  ghost predicate AllFit(messages: seq<seq<int>>, ell: nat) {
    forall i :: 0 <= i < |messages| ==> |messages[i]| <= ell
  }

  /** Every message is encoded; one longer than ELL refuses the whole commitment. */
  method FromMessages<T>(h: Hash<T>, cfg: Config, L: seq<seq<int>>, messages: seq<seq<int>>)
    returns (r: Result<Commitment<T>>)
    requires cfg.Valid() && IsLagrangeMatrix(cfg, L)
    ensures r.Ok? <==> AllFit(messages, cfg.ELL)
    ensures r.Ok? ==> Built(h, cfg, r.value) && r.value.rows == Encoded(cfg, messages)
  {
    var rows := [];
    for i := 0 to |messages|
      invariant AllFit(messages[..i], cfg.ELL) && rows == Encoded(cfg, messages[..i])
    {
      var row := EncodeRow(cfg, L, messages[i]);
      match row
      case ValueError =>
        return ValueError;
      case Ok(w) =>
        assert messages[..i + 1] == messages[..i] + [messages[i]];
        rows := rows + [w];
    }
    assert messages[..|messages|] == messages;
    var c := CommitRows(h, cfg, rows);
    r := Ok(c);
  }

  function OpenPath<T>(h: Hash<T>, cfg: Config, c: Commitment<T>, col: nat): Path<T>
    requires AllWide(c.rows, cfg.N()) && col < cfg.N()
  {
    PathFor(h.node, Leaves(h, c.rows, cfg.N()), col)
  }

  method Open<T>(h: Hash<T>, cfg: Config, c: Commitment<T>, col: nat) returns (values: seq<int>, path: Path<T>)
    requires Built(h, cfg, c) && col < cfg.N()
    ensures values == Column(c.rows, cfg.N(), col) && path == OpenPath(h, cfg, c, col)
  {
    values := Column(c.rows, cfg.N(), col);
    path := MerklePath(h.node, Leaves(h, c.rows, cfg.N()), c.levels, col);
  }

  ghost predicate Checks<T>(h: Hash<T>, cfg: Config, root: T, col: int, values: seq<int>, path: Path<T>) {
    Opens(h.node, h.leaf(values), path, root, col, cfg.N())
  }

  method CheckOpen<T(==)>(h: Hash<T>, cfg: Config, root: T, col: int, values: seq<int>, path: Path<T>)
    returns (ok: bool)
    ensures ok <==> Checks(h, cfg, root, col, values, path)
  {
    ok := MerkleVerify(h.node, h.leaf(values), path, root, col, cfg.N());
  }

  /** Every column a commitment opens is accepted against its root. */
  lemma OpeningAccepted<T>(h: Hash<T>, cfg: Config, c: Commitment<T>, col: nat)
    requires Built(h, cfg, c) && col < cfg.N()
    ensures Checks(h, cfg, c.root, col, Column(c.rows, cfg.N(), col), OpenPath(h, cfg, c, col))
  {
    HonestPathOpens(h.node, Leaves(h, c.rows, cfg.N()), col);
  }

  /** Whatever a binding hash accepts at a column is that column. */
  lemma OpeningBinds<T(!new)>(h: Hash<T>, cfg: Config, c: Commitment<T>, col: int, values: seq<int>, path: Path<T>)
    requires Binding(h) && Built(h, cfg, c) && Checks(h, cfg, c.root, col, values, path)
    ensures 0 <= col < cfg.N() && values == Column(c.rows, cfg.N(), col)
  {
    OnlyHonestOpens(h.node, Leaves(h, c.rows, cfg.N()), h.leaf(values), path, col);
    assert h.leaf(values) == h.leaf(Column(c.rows, cfg.N(), col));
  }
}
