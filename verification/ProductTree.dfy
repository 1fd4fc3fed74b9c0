/** The lookup check of layergkr/sampled_audit.py: two product trees over fingerprints shifted by
    alpha, with the table side expanded by its multiplicities. */
module ProductTree {
  import opened NumberTheory
  import opened Field
  import opened Polynomial
  import opened Interpolation
  import opened Rows
  import opened PowerOfTwo
  import opened Permutation

  type Tuple = seq<int>

  // -------------------------------------------------------------------- the tree

  function PairUp(cur: seq<int>): (up: seq<int>)
    ensures |up| == |cur| / 2
  {
    seq(|cur| / 2, i requires 0 <= i < |cur| / 2 => (cur[2 * i] * cur[2 * i + 1]) % P)
  }

  /** Level after level of pairwise products, from 2^n leaves. */
  function Above(cur: seq<int>): (levels: Matrix)
    ensures |levels| > 0
    decreases |cur|
  {
    if |cur| <= 1 then [cur] else [cur] + Above(PairUp(cur))
  }

  /** The values, padded with ones to a power of two, and the levels above. */
  function Tree(values: seq<int>): (levels: Matrix)
    ensures |levels| > 0
  {
    Above(Ones(values))
  }

  function Ones(values: seq<int>): (v: seq<int>)
    ensures |v| == Pow2(CeilLog(|values|)) && values <= v && forall i :: |values| <= i < |v| ==> v[i] == 1
  {
    CeilLogExact(|values|);
    values + seq(Pow2(CeilLog(|values|)) - |values|, _ => 1)
  }

  method ProductLevels(values: seq<int>) returns (levels: Matrix)
    ensures levels == Tree(values)
  {
    var n := NextPow2(|values|);
    CeilLogExact(|values|);
    levels := [values + seq(n - |values|, _ => 1)];
    assert levels[0] == Ones(values) && levels[..0] == [];
    while |levels[|levels| - 1]| > 1
      invariant |levels| > 0 && levels[..|levels| - 1] + Above(levels[|levels| - 1]) == Tree(values)
      decreases |levels[|levels| - 1]|
    {
      var cur := levels[|levels| - 1];
      var up := NextProducts(cur);
      ghost var before := levels;
      levels := levels + [up];
      assert levels[..|levels| - 1] == before[..|before| - 1] + [cur];
    }
    assert levels == levels[..|levels| - 1] + [levels[|levels| - 1]];
  }

  /** [cur[i] * cur[i + 1] for i in range(0, len, 2)]: the lengths are even. */
  function NextProducts(cur: seq<int>): (up: seq<int>)
    ensures up == PairUp(cur)
  {
    PairUp(cur)
  }

  function RootOf(levels: Matrix): int {
    if levels == [] then 0 else At(levels[|levels| - 1], 0)
  }

  lemma {:induction false} PairProduct(cur: seq<int>, n: nat)
    requires |cur| == n + n
    ensures Product(PairUp(cur)) % P == Product(cur) % P
  {
    if n > 0 {
      var rest := cur[2..];
      PairProduct(rest, n - 1);
      assert PairUp(cur)[1..] == PairUp(rest);
      assert cur[1..][1..] == rest;
      ProductFront(cur);
      ModMod(cur[0] * cur[1], P);
      ModMul((cur[0] * cur[1]) % P, cur[0] * cur[1], Product(PairUp(rest)), Product(rest), P);
    } else {
      assert PairUp(cur) == cur;
    }
  }

  lemma ProductFront(cur: seq<int>)
    requires |cur| >= 2 && cur[1..][1..] == cur[2..]
    ensures Product(cur) == cur[0] * cur[1] * Product(cur[2..])
  {
    assert Product(cur) == cur[0] * (cur[1] * Product(cur[2..]));
    MulAssoc(cur[0], cur[1], Product(cur[2..]));
  }

  lemma MulAssoc(a: int, b: int, c: int)
    ensures a * (b * c) == a * b * c
  {}

  lemma {:induction false} RootIsProductOf(cur: seq<int>, n: nat)
    requires |cur| == Pow2(n) && InField(cur)
    ensures RootOf(Above(cur)) == Product(cur) % P
    decreases n
  {
    if n > 0 {
      Pow2Unfold(n);
      PairProduct(cur, Pow2(n - 1));
      RootIsProductOf(PairUp(cur), n - 1);
      assert RootOf(Above(cur)) == RootOf(Above(PairUp(cur)));
    } else {
      assert Pow2(0) == 1;
      assert cur == [cur[0]] && Product(cur[1..]) == 1;
      ModSmall(cur[0], P);
    }
  }

  lemma {:induction false} OnesAreFree(values: seq<int>, k: nat)
    ensures Product(values + seq(k, _ => 1)) == Product(values)
  {
    if values == [] {
      OnlyOnes(k);
      assert values + seq(k, _ => 1) == seq(k, _ => 1);
    } else {
      OnesAreFree(values[1..], k);
      assert (values + seq(k, _ => 1))[1..] == values[1..] + seq(k, _ => 1);
    }
  }

  lemma {:induction false} OnlyOnes(k: nat)
    ensures Product(seq(k, _ => 1)) == 1
  {
    if k > 0 {
      OnlyOnes(k - 1);
      assert seq(k, _ => 1)[1..] == seq(k - 1, _ => 1);
    }
  }

  /** The root is the product of the leaves, padded or not. */
  lemma RootIsProduct(values: seq<int>)
    requires InField(values)
    ensures RootOf(Tree(values)) == Product(values) % P
  {
    RootIsProductOf(Ones(values), CeilLog(|values|));
    OnesAreFree(values, |Ones(values)| - |values|);
  }

  function ReducedTree(tree: Matrix): (r: Matrix)
    ensures |r| == |tree| && forall l :: 0 <= l < |r| ==> |r[l]| == |tree[l]|
    ensures forall l, i :: 0 <= l < |r| && 0 <= i < |r[l]| ==> r[l][i] == tree[l][i] % P
  {
    seq(|tree|, l requires 0 <= l < |tree| => seq(|tree[l]|, i requires 0 <= i < |tree[l]| => tree[l][i] % P))
  }

  method CheckProductTree(tree: Matrix, leaves: seq<int>) returns (ok: bool)
    ensures ok <==> ReducedTree(tree) == Tree(leaves)
  {
    var expected := ProductLevels(leaves);
    ok := ReducedTree(tree) == expected;
  }

  lemma {:induction false} AboveReduced(cur: seq<int>)
    requires InField(cur)
    ensures ReducedTree(Above(cur)) == Above(cur)
    decreases |cur|
  {
    ReducedRow(cur);
    if |cur| > 1 {
      AboveReduced(PairUp(cur));
      ReducedCons(cur, Above(PairUp(cur)));
    } else {
      ReducedCons(cur, []);
    }
  }

  lemma ReducedRow(cur: seq<int>)
    requires InField(cur)
    ensures ReducedTree([cur]) == [cur]
  {
    assert ReducedTree([cur])[0] == cur;
  }

  lemma ReducedCons(cur: seq<int>, rest: Matrix)
    requires InField(cur)
    ensures ReducedTree([cur] + rest) == [cur] + ReducedTree(rest)
  {
    assert ReducedTree([cur] + rest)[0] == cur;
  }

  /** An honest tree passes its own check. */
  lemma HonestTree(values: seq<int>)
    requires InField(values)
    ensures ReducedTree(Tree(values)) == Tree(values)
  {
    AboveReduced(Ones(values));
  }

  // ------------------------------------------------------------------- the leaves

  /** _tuple_fp */
  method TupleFp(tableId: int, values: Tuple, beta: int) returns (acc: int)
    ensures acc == Compress([tableId] + values, beta)
  {
    CompressSnoc([], tableId, beta);
    acc := tableId % P;
    FirstStep(tableId, beta);
    for i := 0 to |values|
      invariant acc == Compress([tableId] + values[..i], beta)
    {
      CompressSnoc([tableId] + values[..i], values[i], beta);
      assert [tableId] + values[..i] + [values[i]] == [tableId] + values[..i + 1];
      ModMod(values[i], P);
      ModAdd(acc * beta, acc * beta, values[i], values[i] % P, P);
      acc := (acc * beta + values[i]) % P;
    }
    assert values[..|values|] == values;
  }

  lemma FirstStep(tableId: int, beta: int)
    ensures Compress([tableId] + [], beta) == tableId % P
  {
    CompressSnoc([], tableId, beta);
    assert [] + [tableId] == [tableId] + [];
    assert Reverse([]) == [];
    assert Compress([], beta) == 0 by { ModSmall(0, P); }
    TimesZero(beta);
    ModMod(tableId, P);
  }

  function Prints(tableId: int, rows: seq<Tuple>, beta: int): (f: seq<int>)
    ensures |f| == |rows| && forall i :: 0 <= i < |rows| ==> f[i] == Compress([tableId] + rows[i], beta)
  {
    seq(|rows|, i requires 0 <= i < |rows| => Compress([tableId] + rows[i], beta))
  }

  method TuplePrints(tableId: int, rows: seq<Tuple>, beta: int) returns (f: seq<int>)
    ensures f == Prints(tableId, rows, beta)
  {
    f := [];
    for i := 0 to |rows|
      invariant |f| == i && forall k :: 0 <= k < i ==> f[k] == Compress([tableId] + rows[k], beta)
    {
      var v := TupleFp(tableId, rows[i], beta);
      f := f + [v];
    }
  }

  /** [row] * count for each row in turn; a negative count gives none. */
  function Expanded(table: seq<Tuple>, mult: seq<int>): seq<Tuple> {
    if table == [] || mult == [] then []
    else
      var n := if |table| <= |mult| then |table| else |mult|;
      Expanded(table[..n - 1], mult[..n - 1]) + seq(if mult[n - 1] > 0 then mult[n - 1] else 0, _ => table[n - 1])
  }

  method ExpandPrints(tableId: int, table: seq<Tuple>, mult: seq<int>, beta: int) returns (f: seq<int>)
    requires |table| == |mult|
    ensures f == Prints(tableId, Expanded(table, mult), beta)
  {
    f := [];
    for k := 0 to |table|
      invariant f == Prints(tableId, Expanded(table[..k], mult[..k]), beta)
    {
      var v := TupleFp(tableId, table[k], beta);
      var count := if mult[k] > 0 then mult[k] else 0;
      assert table[..k + 1][..k] == table[..k] && mult[..k + 1][..k] == mult[..k];
      assert Expanded(table[..k + 1], mult[..k + 1]) == Expanded(table[..k], mult[..k]) + seq(count, _ => table[k]);
      f := f + seq(count, _ => v);
    }
    assert table[..|table|] == table && mult[..|mult|] == mult;
  }

  function AddedUp(s: seq<int>): int {
    if s == [] then 0 else AddedUp(s[..|s| - 1]) + s[|s| - 1]
  }

  method AddUp(s: seq<int>) returns (total: int, negative: bool)
    ensures total == AddedUp(s) && (negative <==> exists i :: 0 <= i < |s| && s[i] < 0)
  {
    total, negative := 0, false;
    for i := 0 to |s|
      invariant total == AddedUp(s[..i]) && (negative <==> exists k :: 0 <= k < i && s[k] < 0)
    {
      assert s[..i + 1][..i] == s[..i];
      total := total + s[i];
      negative := negative || s[i] < 0;
    }
    assert s[..|s|] == s;
  }

  lemma {:induction false} ExpandedSize(table: seq<Tuple>, mult: seq<int>)
    requires |table| == |mult| && forall k :: 0 <= k < |mult| ==> mult[k] >= 0
    ensures |Expanded(table, mult)| == AddedUp(mult)
  {
    if mult != [] {
      var n := |mult| - 1;
      ExpandedSize(table[..n], mult[..n]);
    }
  }

  /** (alpha - x) % P */
  function Shift(alpha: int, f: seq<int>): (s: seq<int>)
    ensures |s| == |f| && InField(s) && forall i :: 0 <= i < |f| ==> s[i] == (alpha - f[i]) % P
  {
    seq(|f|, i requires 0 <= i < |f| => (alpha - f[i]) % P)
  }

  lemma {:induction false} ShiftProduct(alpha: int, f: seq<int>)
    ensures Product(Shift(alpha, f)) % P == Product(Shifted(f, alpha)) % P
  {
    if f != [] {
      ShiftProduct(alpha, f[1..]);
      assert Shift(alpha, f)[1..] == Shift(alpha, f[1..]) && Shifted(f, alpha)[1..] == Shifted(f[1..], alpha);
      ModMod(alpha - f[0], P);
      ModMul((alpha - f[0]) % P, alpha - f[0], Product(Shift(alpha, f[1..])), Product(Shifted(f[1..], alpha)), P);
    }
  }

  /** Both roots agree exactly when the two characteristic products do at alpha. */
  lemma RootsAgree(alpha: int, q: seq<int>, t: seq<int>)
    ensures RootOf(Tree(Shift(alpha, q))) == RootOf(Tree(Shift(alpha, t))) <==> ProductsAgree(q, t, alpha)
  {
    RootIsProduct(Shift(alpha, q));
    RootIsProduct(Shift(alpha, t));
    ShiftProduct(alpha, q);
    ShiftProduct(alpha, t);
  }

  lemma {:induction false} PrintsPermute(tableId: int, s: seq<Tuple>, t: seq<Tuple>, beta: int)
    requires multiset(s) == multiset(t)
    ensures multiset(Prints(tableId, s, beta)) == multiset(Prints(tableId, t, beta))
  {
    if s == [] {
      assert |s| == |multiset(s)| == |multiset(t)| == |t|;
    } else {
      var k := MultisetMatch(s, t);
      var t' := t[..k] + t[k + 1..];
      PrintsPermute(tableId, s[1..], t', beta);
      var a, b := Prints(tableId, s, beta), Prints(tableId, t, beta);
      assert a == [a[0]] + Prints(tableId, s[1..], beta);
      assert Prints(tableId, t', beta) == b[..k] + b[k + 1..];
      MultisetRemove(b, k);
    }
  }

  /** Exact multiplicities agree for every beta and alpha. */
  lemma ExactCountsAgree(tableId: int, queries: seq<Tuple>, rows: seq<Tuple>, beta: int, alpha: int)
    requires multiset(queries) == multiset(rows)
    ensures ProductsAgree(Prints(tableId, queries, beta), Prints(tableId, rows, beta), alpha)
  {
    PrintsPermute(tableId, queries, rows, beta);
    ShiftedPermutes(Prints(tableId, queries, beta), Prints(tableId, rows, beta), alpha);
    ProductPermutation(Shifted(Prints(tableId, queries, beta), alpha), Shifted(Prints(tableId, rows, beta), alpha));
  }

  /** Different fingerprint multisets of one size agree at fewer alphas than there are queries. */
  lemma WrongCountsAgreeRarely(q: seq<int>, t: seq<int>, alphas: set<int>)
    requires InField(q) && InField(t) && |q| == |t| && multiset(q) != multiset(t)
    requires forall a :: a in alphas ==> 0 <= a < P && ProductsAgree(q, t, a)
    ensures |alphas| < |q|
  {
    if |alphas| >= |q| { SameProductSameMultiset(q, t, alphas); }
  }
}
