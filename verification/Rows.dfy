/** Matrices as lists of equally wide rows, and their row-major flattening. */
module Rows {
  import opened NumberTheory
  import opened Polynomial

  type Matrix = seq<seq<int>>

  predicate AllWide(rows: Matrix, width: nat) {
    forall i :: 0 <= i < |rows| ==> |rows[i]| == width
  }

  /** Exactly rows x cols. */
  predicate Sides(W: Matrix, rows: nat, cols: nat) {
    |W| == rows && AllWide(W, cols)
  }

  ghost predicate Rectangular(W: Matrix) {
    |W| > 0 && AllWide(W, |W[0]|)
  }

  lemma SameMatrix(A: Matrix, B: Matrix, n: nat)
    requires |A| == |B| && AllWide(A, n) && AllWide(B, n)
    requires forall t, i :: 0 <= t < |A| && 0 <= i < n ==> A[t][i] == B[t][i]
    ensures A == B
  {
    forall t | 0 <= t < |A| ensures A[t] == B[t] {}
  }

  /** Where row b begins among rows of n entries. */
  function Base(b: nat, n: nat): nat { b * n }

  lemma BaseNext(b: nat, n: nat)
    ensures Base(b + 1, n) == Base(b, n) + n && Base(0, n) == 0
  {}

  lemma BaseMonotone(b: nat, c: nat, n: nat)
    requires b < c
    ensures Base(b, n) + n <= Base(c, n)
  {
    MulMonotone(b + 1, c, n, n);
  }

  function Reverse(s: seq<int>): (r: seq<int>)
    ensures |r| == |s| && forall i :: 0 <= i < |s| ==> r[i] == s[|s| - 1 - i]
  {
    seq(|s|, i requires 0 <= i < |s| => s[|s| - 1 - i])
  }

  /** The first n products, added up. */
  function Inner(a: seq<int>, b: seq<int>, n: nat): int {
    if n == 0 then 0 else Inner(a, b, n - 1) + At(a, n - 1) * At(b, n - 1)
  }

  function Flat(rows: Matrix): seq<int> {
    if rows == [] then [] else Flat(rows[..|rows| - 1]) + rows[|rows| - 1]
  }

  lemma {:induction false} FlatSize(rows: Matrix, n: nat)
    requires AllWide(rows, n)
    ensures |Flat(rows)| == Base(|rows|, n)
  {
    hide Base;
    BaseNext(0, n);
    if rows != [] {
      FlatSize(rows[..|rows| - 1], n);
      BaseNext(|rows| - 1, n);
    }
  }

  lemma {:induction false} FlatRow(rows: Matrix, n: nat, i: nat)
    requires AllWide(rows, n) && i < |rows|
    ensures Base(i, n) + n <= |Flat(rows)| && Flat(rows)[Base(i, n)..Base(i, n) + n] == rows[i]
  {
    var k := |rows| - 1;
    FlatSize(rows, n);
    FlatSize(rows[..k], n);
    BaseMonotone(i, |rows|, n);
    if i < k {
      FlatRow(rows[..k], n, i);
      BaseMonotone(i, k, n);
      var lo := Base(i, n);
      assert Flat(rows)[lo..lo + n] == Flat(rows[..k])[lo..lo + n];
    }
  }
}
