/** Python's sorted, for any strict weak order: insertion in arrival order, so it is stable. */
module Sorting {

  ghost predicate WeakOrder<T(!new)>(less: (T, T) -> bool) {
    && (forall a, b :: less(a, b) ==> !less(b, a))
    && forall a, b, c :: !less(b, a) && !less(c, b) ==> !less(c, a)
  }

  ghost predicate Ascending<T>(less: (T, T) -> bool, s: seq<T>) {
    forall i, k :: 0 <= i < k < |s| ==> !less(s[k], s[i])
  }

  /** After everything that does not come later. */
  function Insert<T>(less: (T, T) -> bool, s: seq<T>, r: T): (out: seq<T>)
    ensures |out| == |s| + 1
  {
    if s == [] then [r]
    else if less(r, s[0]) then [r] + s
    else [s[0]] + Insert(less, s[1..], r)
  }

  function SortBy<T>(less: (T, T) -> bool, s: seq<T>): (out: seq<T>)
    ensures |out| == |s|
  {
    if s == [] then [] else Insert(less, SortBy(less, s[..|s| - 1]), s[|s| - 1])
  }

  lemma {:induction false} InsertKeeps<T>(less: (T, T) -> bool, s: seq<T>, r: T)
    ensures multiset(Insert(less, s, r)) == multiset(s) + multiset{r}
  {
    if s != [] && !less(r, s[0]) {
      InsertKeeps(less, s[1..], r);
    }
    if s != [] { assert s == [s[0]] + s[1..]; }
  }

  lemma {:induction false} InsertAscends<T(!new)>(less: (T, T) -> bool, s: seq<T>, r: T)
    requires WeakOrder(less) && Ascending(less, s)
    ensures Ascending(less, Insert(less, s, r))
  {
    if s == [] {
    } else if less(r, s[0]) {
      FrontAscends(less, s, r);
    } else {
      InsertAscends(less, s[1..], r);
      InsertKeeps(less, s[1..], r);
      RestAscends(less, s, r, Insert(less, s[1..], r));
    }
  }

  lemma FrontAscends<T(!new)>(less: (T, T) -> bool, s: seq<T>, r: T)
    requires WeakOrder(less) && Ascending(less, s) && s != [] && less(r, s[0])
    ensures Ascending(less, [r] + s)
  {
    var out := [r] + s;
    forall i, k | 0 <= i < k < |out| ensures !less(out[k], out[i]) {
      if i == 0 && k > 1 { assert !less(s[k - 1], s[0]); }
    }
  }

  lemma RestAscends<T(!new)>(less: (T, T) -> bool, s: seq<T>, r: T, rest: seq<T>)
    requires s != [] && Ascending(less, s) && !less(r, s[0]) && Ascending(less, rest)
    requires multiset(rest) == multiset(s[1..]) + multiset{r}
    ensures Ascending(less, [s[0]] + rest)
  {
    var out := [s[0]] + rest;
    forall i, k | 0 <= i < k < |out| ensures !less(out[k], out[i]) {
      if i == 0 {
        assert rest[k - 1] in multiset(rest);
        if rest[k - 1] in s[1..] {
          var m :| 0 <= m < |s[1..]| && s[1..][m] == rest[k - 1];
          assert !less(s[m + 1], s[0]);
        }
      }
    }
  }

  /** A rearrangement in ascending order. */
  lemma {:induction false} SortedIs<T(!new)>(less: (T, T) -> bool, s: seq<T>)
    requires WeakOrder(less)
    ensures multiset(SortBy(less, s)) == multiset(s) && Ascending(less, SortBy(less, s))
  {
    if s != [] {
      var n := |s| - 1;
      SortedIs(less, s[..n]);
      InsertKeeps(less, SortBy(less, s[..n]), s[n]);
      InsertAscends(less, SortBy(less, s[..n]), s[n]);
      assert s == s[..n] + [s[n]];
    }
  }

  /** Nothing twice. */
  ghost predicate Once<T>(s: seq<T>) {
    forall i, k :: 0 <= i < k < |s| ==> s[i] != s[k]
  }

  lemma {:induction false} OnceMultiset<T>(s: seq<T>)
    ensures Once(s) <==> forall x :: multiset(s)[x] <= 1
  {
    if s != [] {
      var n := |s| - 1;
      OnceMultiset(s[..n]);
      assert s == s[..n] + [s[n]];
      if Once(s) {
        assert s[n] !in s[..n];
        assert multiset(s[..n])[s[n]] == 0;
      } else {
        var i, k :| 0 <= i < k < |s| && s[i] == s[k];
        if k == n {
          assert s[..n][i] in multiset(s[..n]);
          assert multiset(s)[s[n]] == multiset(s[..n])[s[n]] + 1 >= 2;
        } else {
          assert s[..n][i] == s[..n][k];
          var x :| multiset(s[..n])[x] > 1;
          assert multiset(s)[x] >= multiset(s[..n])[x];
        }
      }
    }
  }

  lemma OncePermutes<T>(s: seq<T>, t: seq<T>)
    requires multiset(s) == multiset(t) && Once(s)
    ensures Once(t)
  {
    OnceMultiset(s);
    OnceMultiset(t);
  }
}
