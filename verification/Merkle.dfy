/** Merkle trees as layergkr/rs.py and layergkr/sampled_audit.py build and open them. */
module Merkle {
  // The path check is that of prover/protocol.py. A lone last node is paired with itself at every level.
  // The hash is a parameter; where binding is claimed it is injective.

  import opened NumberTheory
  import opened PowerOfTwo

  // ------------------------------------------------------------------ the tree

  /** One level up. */
  function Next<T>(node: (T, T) -> T, cur: seq<T>): (up: seq<T>)
    ensures |up| == (|cur| + 1) / 2
  {
    seq((|cur| + 1) / 2, i requires 0 <= i < (|cur| + 1) / 2 =>
      node(cur[2 * i], if 2 * i + 1 < |cur| then cur[2 * i + 1] else cur[2 * i]))
  }

  function Levels<T>(node: (T, T) -> T, leaves: seq<T>): (levels: seq<seq<T>>)
    ensures |levels| > 0 && levels[0] == leaves
    ensures leaves != [] ==> |levels[|levels| - 1]| == 1
    decreases |leaves|
  {
    if |leaves| <= 1 then [leaves] else [leaves] + Levels(node, Next(node, leaves))
  }

  function TreeRoot<T>(node: (T, T) -> T, leaves: seq<T>): T
    requires leaves != []
    decreases |leaves|
  {
    if |leaves| == 1 then leaves[0] else TreeRoot(node, Next(node, leaves))
  }

  lemma {:induction false} RootIsLast<T>(node: (T, T) -> T, leaves: seq<T>)
    requires leaves != []
    ensures var levels := Levels(node, leaves); levels[|levels| - 1] == [TreeRoot(node, leaves)]
    decreases |leaves|
  {
    if |leaves| > 1 { RootIsLast(node, Next(node, leaves)); }
  }

  method NextLevel<T>(node: (T, T) -> T, cur: seq<T>) returns (nxt: seq<T>)
    ensures nxt == Next(node, cur)
  {
    nxt := [];
    var i := 0;
    while i < |cur|
      invariant i == 2 * |nxt| && |nxt| <= (|cur| + 1) / 2
      invariant nxt == Next(node, cur)[..|nxt|]
    {
      nxt := nxt + [node(cur[i], if i + 1 < |cur| then cur[i + 1] else cur[i])];
      i := i + 2;
    }
  }

  method BuildTree<T>(node: (T, T) -> T, leaves: seq<T>) returns (levels: seq<seq<T>>)
    ensures levels == Levels(node, leaves)
  {
    hide Levels, Next;
    levels := [leaves];
    assert levels[..0] + Levels(node, leaves) == Levels(node, leaves);
    while |levels[|levels| - 1]| > 1
      invariant |levels| > 0
      invariant levels[..|levels| - 1] + Levels(node, levels[|levels| - 1]) == Levels(node, leaves)
      decreases |levels[|levels| - 1]|
    {
      var nxt := NextLevel(node, levels[|levels| - 1]);
      ghost var before := levels;
      levels := levels + [nxt];
      assert levels[..|levels| - 1] == before[..|before| - 1] + [before[|before| - 1]];
      LevelsUnfold(node, before[|before| - 1]);
    }
    LevelsUnfold(node, levels[|levels| - 1]);
    assert levels == levels[..|levels| - 1] + [levels[|levels| - 1]];
  }

  lemma LevelsUnfold<T>(node: (T, T) -> T, cur: seq<T>)
    ensures Levels(node, cur) == if |cur| <= 1 then [cur] else [cur] + Levels(node, Next(node, cur))
    ensures |Next(node, cur)| == (|cur| + 1) / 2
  {
    hide Next;
  }

  // ------------------------------------------------------------------ the path

  /** idx ^ 1, or idx itself past the end of the level. */
  function Sibling(idx: nat, width: nat): (s: nat)
    requires idx < width
    ensures s < width
  {
    var s := if idx % 2 == 0 then idx + 1 else idx - 1;
    if s >= width then idx else s
  }

  /** (sibling, 1 if the sibling stands on the right else 0), leaf to root. */
  type Path<T> = seq<(T, int)>

  function PathFor<T>(node: (T, T) -> T, leaves: seq<T>, idx: nat): Path<T>
    requires idx < |leaves|
    decreases |leaves|
  {
    if |leaves| == 1 then []
    else [(leaves[Sibling(idx, |leaves|)], if idx % 2 == 0 then 1 else 0)]
         + PathFor(node, Next(node, leaves), idx / 2)
  }

  method MerklePath<T>(ghost node: (T, T) -> T, ghost leaves: seq<T>, levels: seq<seq<T>>, index: nat)
    returns (path: Path<T>)
    requires levels == Levels(node, leaves) && index < |leaves|
    ensures path == PathFor(node, leaves, index)
  {
    path := [];
    var idx: nat := index;
    hide Next, Levels, PathFor;
    for k := 0 to |levels| - 1
      invariant levels[k..] == Levels(node, levels[k])
      invariant idx < |levels[k]|
      invariant path + PathFor(node, levels[k], idx) == PathFor(node, leaves, index)
    {
      var level := levels[k];
      assert levels[k..] == [level] + levels[k + 1..];
      LevelStep(node, level, idx);
      assert levels[k + 1..] == levels[k..][1..];
      path := path + [(level[Sibling(idx, |level|)], if idx % 2 == 0 then 1 else 0)];
      idx := idx / 2;
    }
    LastLevel(node, levels[|levels| - 1], idx);
  }

  lemma LevelStep<T>(node: (T, T) -> T, level: seq<T>, idx: nat)
    requires idx < |level| && |Levels(node, level)| > 1
    ensures Levels(node, level)[1..] == Levels(node, Next(node, level)) && idx / 2 < |Next(node, level)|
    ensures PathFor(node, level, idx)
            == [(level[Sibling(idx, |level|)], if idx % 2 == 0 then 1 else 0)]
               + PathFor(node, Next(node, level), idx / 2)
  {}

  lemma LastLevel<T>(node: (T, T) -> T, level: seq<T>, idx: nat)
    requires idx < |level| && |Levels(node, level)| == 1
    ensures PathFor(node, level, idx) == []
  {}

  /** _path_root: any nonzero side bit puts the sibling on the right. */
  function Climb<T>(node: (T, T) -> T, leaf: T, path: Path<T>): T {
    if path == [] then leaf
    else Climb(node, if path[0].1 != 0 then node(leaf, path[0].0) else node(path[0].0, leaf), path[1..])
  }

  method PathRoot<T>(node: (T, T) -> T, leaf: T, path: Path<T>) returns (cur: T)
    ensures cur == Climb(node, leaf, path)
  {
    cur := leaf;
    for k := 0 to |path|
      invariant Climb(node, cur, path[k..]) == Climb(node, leaf, path)
    {
      assert path[k..][1..] == path[k + 1..];
      cur := if path[k].1 != 0 then node(cur, path[k].0) else node(path[k].0, cur);
    }
  }

  /** Every leaf climbs its own path to the root. */
  lemma {:induction false} RoundTrip<T>(node: (T, T) -> T, leaves: seq<T>, idx: nat)
    requires idx < |leaves|
    ensures Climb(node, leaves[idx], PathFor(node, leaves, idx)) == TreeRoot(node, leaves)
    decreases |leaves|
  {
    if |leaves| > 1 {
      var up := Next(node, leaves);
      RoundTrip(node, up, idx / 2);
      assert PathFor(node, leaves, idx)[1..] == PathFor(node, up, idx / 2);
      StepUp(node, leaves, idx);
    }
  }

  lemma StepUp<T>(node: (T, T) -> T, leaves: seq<T>, idx: nat)
    requires idx < |leaves|
    ensures var s := leaves[Sibling(idx, |leaves|)];
      Next(node, leaves)[idx / 2] == if idx % 2 == 0 then node(leaves[idx], s) else node(s, leaves[idx])
  {
    assert idx % 2 == 0 ==> 2 * (idx / 2) == idx;
    assert idx % 2 == 1 ==> 2 * (idx / 2) + 1 == idx;
  }

  ghost predicate Injective<T(!new)>(node: (T, T) -> T) {
    forall a, b, c, d :: node(a, b) == node(c, d) ==> a == c && b == d
  }

  predicate SameSides<T>(p: Path<T>, q: Path<T>) {
    |p| == |q| && forall k :: 0 <= k < |p| ==> (p[k].1 != 0) == (q[k].1 != 0)
  }

  /** Equal sides and an equal root leave one starting leaf. */
  lemma {:induction false} PathBinds<T(!new)>(node: (T, T) -> T, x: T, p: Path<T>, y: T, q: Path<T>)
    requires Injective(node) && SameSides(p, q) && Climb(node, x, p) == Climb(node, y, q)
    ensures x == y && forall k :: 0 <= k < |p| ==> p[k].0 == q[k].0
  {
    if p != [] {
      var x', y' := if p[0].1 != 0 then node(x, p[0].0) else node(p[0].0, x),
                    if q[0].1 != 0 then node(y, q[0].0) else node(q[0].0, y);
      assert SameSides(p[1..], q[1..]) by {
        forall k | 0 <= k < |p[1..]| ensures (p[1..][k].1 != 0) == (q[1..][k].1 != 0) {
          assert p[1..][k] == p[k + 1] && q[1..][k] == q[k + 1];
        }
      }
      PathBinds(node, x', p[1..], y', q[1..]);
      forall k | 0 <= k < |p| ensures p[k].0 == q[k].0 {
        if k > 0 { assert p[1..][k - 1] == p[k] && q[1..][k - 1] == q[k]; }
      }
    }
  }

  // -------------------------------------------------------------- verification

  method MerkleDepth(nLeaves: nat) returns (d: nat)
    ensures d == CeilLog(nLeaves)
  {
    var n := nLeaves;
    d := 0;
    while n > 1
      invariant d + CeilLog(n) == CeilLog(nLeaves)
    {
      n, d := (n + 1) / 2, d + 1;
    }
  }

  /** The side bits are the index's own and a lone last node is its own sibling. */
  ghost predicate Ordered<T>(node: (T, T) -> T, h: T, path: Path<T>, idx: nat, width: nat) {
    path == [] ||
    (path[0].1 == (if idx % 2 == 1 then 0 else 1)
     && (idx % 2 == 0 && idx + 1 >= width ==> path[0].0 == h)
     && Ordered(node, if idx % 2 == 1 then node(path[0].0, h) else node(h, path[0].0), path[1..],
                idx / 2, (width + 1) / 2))
  }

  ghost predicate Opens<T>(node: (T, T) -> T, leaf: T, path: Path<T>, root: T, index: int, nLeaves: nat) {
    && 0 <= index < nLeaves && |path| == CeilLog(nLeaves)
    && Ordered(node, leaf, path, index, nLeaves) && Climb(node, leaf, path) == root
  }

  method MerkleVerify<T(==)>(node: (T, T) -> T, leaf: T, path: Path<T>, root: T, index: int, nLeaves: nat)
    returns (ok: bool)
    ensures ok <==> Opens(node, leaf, path, root, index, nLeaves)
  {
    var depth := MerkleDepth(nLeaves);
    if !(0 <= index < nLeaves) || |path| != depth {
      return false;
    }
    var h, idx: nat, width := leaf, index, nLeaves;
    for k := 0 to |path|
      invariant Climb(node, h, path[k..]) == Climb(node, leaf, path)
      invariant Ordered(node, h, path[k..], idx, width) <==> Ordered(node, leaf, path, index, nLeaves)
    {
      var (sibling, side) := path[k];
      var right := idx % 2 == 1;
      assert path[k..][1..] == path[k + 1..];
      if side != (if right then 0 else 1) {
        return false;
      }
      if !right && idx + 1 >= width && sibling != h {
        return false;
      }
      h := if right then node(sibling, h) else node(h, sibling);
      idx, width := idx / 2, (width + 1) / 2;
    }
    ok := h == root;
  }

  lemma {:induction false} PathLength<T>(node: (T, T) -> T, leaves: seq<T>, idx: nat)
    requires idx < |leaves|
    ensures |PathFor(node, leaves, idx)| == CeilLog(|leaves|)
    decreases |leaves|
  {
    if |leaves| > 1 { PathLength(node, Next(node, leaves), idx / 2); }
  }

  lemma {:induction false} PathOrdered<T>(node: (T, T) -> T, leaves: seq<T>, idx: nat)
    requires idx < |leaves|
    ensures Ordered(node, leaves[idx], PathFor(node, leaves, idx), idx, |leaves|)
    decreases |leaves|
  {
    if |leaves| > 1 {
      var up := Next(node, leaves);
      PathOrdered(node, up, idx / 2);
      assert PathFor(node, leaves, idx)[1..] == PathFor(node, up, idx / 2);
      StepUp(node, leaves, idx);
    }
  }

  /** The honest path of any leaf of any nonempty tree is accepted. */
  lemma HonestPathOpens<T>(node: (T, T) -> T, leaves: seq<T>, idx: nat)
    requires idx < |leaves|
    ensures Opens(node, leaves[idx], PathFor(node, leaves, idx), TreeRoot(node, leaves), idx, |leaves|)
  {
    RoundTrip(node, leaves, idx);
    PathLength(node, leaves, idx);
    PathOrdered(node, leaves, idx);
  }

  lemma {:induction false} OrderedSides<T>(node: (T, T) -> T, x: T, p: Path<T>, y: T, q: Path<T>, idx: nat, width: nat)
    requires |p| == |q| && Ordered(node, x, p, idx, width) && Ordered(node, y, q, idx, width)
    ensures forall k :: 0 <= k < |p| ==> p[k].1 == q[k].1
  {
    if p != [] {
      OrderedSides(node, if idx % 2 == 1 then node(p[0].0, x) else node(x, p[0].0), p[1..],
                   if idx % 2 == 1 then node(q[0].0, y) else node(y, q[0].0), q[1..], idx / 2, (width + 1) / 2);
      forall k | 0 <= k < |p| ensures p[k].1 == q[k].1 {
        if k > 0 { assert p[1..][k - 1] == p[k] && q[1..][k - 1] == q[k]; }
      }
    }
  }

  /** One root over as many leaves: the same leaves. */
  lemma RootBinds<T(!new)>(node: (T, T) -> T, a: seq<T>, b: seq<T>)
    requires Injective(node) && |a| == |b| > 0 && TreeRoot(node, a) == TreeRoot(node, b)
    ensures a == b
  {
    forall i | 0 <= i < |a| ensures a[i] == b[i] {
      HonestPathOpens(node, b, i);
      OnlyHonestOpens(node, a, b[i], PathFor(node, b, i), i);
    }
  }

  /** Against a tree's root, position idx opens to its own leaf by its own path and to
      nothing else. */
  lemma OnlyHonestOpens<T(!new)>(node: (T, T) -> T, leaves: seq<T>, leaf: T, path: Path<T>, idx: int)
    requires leaves != [] && Injective(node)
    ensures Opens(node, leaf, path, TreeRoot(node, leaves), idx, |leaves|)
            <==> 0 <= idx < |leaves| && leaf == leaves[idx] && path == PathFor(node, leaves, idx)
  {
    if 0 <= idx < |leaves| {
      HonestPathOpens(node, leaves, idx);
      if Opens(node, leaf, path, TreeRoot(node, leaves), idx, |leaves|) {
        var honest := PathFor(node, leaves, idx);
        OrderedSides(node, leaf, path, leaves[idx], honest, idx, |leaves|);
        PathBinds(node, leaf, path, leaves[idx], honest);
        forall k | 0 <= k < |path| ensures path[k] == honest[k] {
          assert path[k].0 == honest[k].0 && path[k].1 == honest[k].1;
        }
      }
    }
  }
}
