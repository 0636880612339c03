/** The list operations behind the SQL queries and the screens: `WHERE` as a filter,
    `ORDER BY` as a sort on an integer column, and Kotlin's `take(n)`. */
module Collections {

  /** `s` lists its elements in non-decreasing order of `key`. */
  predicate SortedByKey<T>(s: seq<T>, key: T -> int)
  {
    forall i, j :: 0 <= i < j < |s| ==> key(s[i]) <= key(s[j])
  }

  /** The elements of `s` that satisfy `p`, in their original order (a `WHERE` clause
      over a table scan). */
  function Filter<T(==,!new)>(s: seq<T>, p: T -> bool): (r: seq<T>)
    ensures |r| <= |s|
    ensures forall x :: x in r <==> x in s && p(x)
    ensures forall x :: multiset(r)[x] == if p(x) then multiset(s)[x] else 0
  {
    if s == [] then []
    else
      var rest := Filter(s[1..], p);
      assert s == [s[0]] + s[1..];
      if p(s[0]) then [s[0]] + rest else rest
  }

  /** Places `x` into the sorted `s` before the first element whose key is not smaller. */
  function InsertByKey<T(==)>(x: T, s: seq<T>, key: T -> int): (r: seq<T>)
    requires SortedByKey(s, key)
    ensures SortedByKey(r, key)
    ensures multiset(r) == multiset(s) + multiset{x}
    ensures forall y :: y in r ==> y == x || y in s
  {
    if s == [] || key(x) <= key(s[0]) then [x] + s
    else
      var rest := InsertByKey(x, s[1..], key);
      assert s == [s[0]] + s[1..];
      SortedHeadLeast(s, key);
      PrependSorted(s[0], rest, key);
      [s[0]] + rest
  }

  /** The head of a sorted sequence has the least key. */
  lemma SortedHeadLeast<T>(s: seq<T>, key: T -> int)
    requires s != [] && SortedByKey(s, key)
    ensures forall y :: y in s ==> key(s[0]) <= key(y)
  {
    forall y | y in s
      ensures key(s[0]) <= key(y)
    {
      var m :| 0 <= m < |s| && s[m] == y;
      if m > 0 {
        assert key(s[0]) <= key(s[m]);
      }
    }
  }

  /** A sorted sequence stays sorted behind an element whose key is no larger than
      any of its elements'. */
  lemma PrependSorted<T>(x: T, s: seq<T>, key: T -> int)
    requires SortedByKey(s, key)
    requires forall y :: y in s ==> key(x) <= key(y)
    ensures SortedByKey([x] + s, key)
  {
    var r := [x] + s;
    forall i, j | 0 <= i < j < |r|
      ensures key(r[i]) <= key(r[j])
    {
      assert r[j] == s[j - 1];
      if i > 0 {
        assert r[i] == s[i - 1];
      }
    }
  }

  /** The elements of `s` rearranged into non-decreasing order of `key` (an
      `ORDER BY` clause; the order among equal keys is not part of the promise). */
  function SortByKey<T(==)>(s: seq<T>, key: T -> int): (r: seq<T>)
    ensures SortedByKey(r, key)
    ensures multiset(r) == multiset(s)
  {
    if s == [] then []
    else
      assert s == [s[0]] + s[1..];
      InsertByKey(s[0], SortByKey(s[1..], key), key)
  }

  /** Kotlin `List.take(n)`. */
  function Take<T>(s: seq<T>, n: nat): (r: seq<T>)
    ensures |r| == if n < |s| then n else |s|
    ensures r == s[..|r|]
  {
    if n < |s| then s[..n] else s
  }
}
