/**
 * Sorting a list of values into a list without repeats, as the pages do with
 * `[...new Set(xs)].sort(cmp)`: the result is strictly increasing in the chosen
 * order and holds exactly the values of the input.
 */
module Sorting {

  ghost predicate IsStrictTotalOrder<T(!new)>(lt: (T, T) -> bool) {
    && (forall x :: !lt(x, x))
    && (forall x, y, z :: lt(x, y) && lt(y, z) ==> lt(x, z))
    && (forall x, y :: x == y || lt(x, y) || lt(y, x))
  }

  ghost predicate StrictlySorted<T>(s: seq<T>, lt: (T, T) -> bool) {
    forall i, j :: 0 <= i < j < |s| ==> lt(s[i], s[j])
  }

  /** Inserts x into a strictly sorted list unless it is already there. */
  function InsertDistinct<T(==,!new)>(x: T, s: seq<T>, lt: (T, T) -> bool): (r: seq<T>)
    requires IsStrictTotalOrder(lt) && StrictlySorted(s, lt)
    ensures StrictlySorted(r, lt)
    ensures forall y :: y in r <==> y == x || y in s
  {
    if s == [] then [x]
    else if x == s[0] then s
    else if lt(x, s[0]) then [x] + s
    else
      var rest := InsertDistinct(x, s[1..], lt);
      assert forall y :: y in s <==> y == s[0] || y in s[1..];
      assert forall i :: 0 <= i < |rest| ==> lt(s[0], rest[i]) by {
        forall i | 0 <= i < |rest|
          ensures lt(s[0], rest[i])
        {
          assert rest[i] in rest;
          if rest[i] != x {
            var k :| 1 <= k < |s| && s[k] == rest[i];
          }
        }
      }
      [s[0]] + rest
  }

  /** The distinct values of xs in strictly increasing order. */
  function SortDistinct<T(==,!new)>(xs: seq<T>, lt: (T, T) -> bool): (r: seq<T>)
    requires IsStrictTotalOrder(lt)
    ensures StrictlySorted(r, lt)
    ensures forall y :: y in r <==> y in xs
  {
    if xs == [] then []
    else
      var prefix := xs[..|xs| - 1];
      assert forall y :: y in xs <==> y in prefix || y == xs[|xs| - 1] by {
        assert xs == prefix + [xs[|xs| - 1]];
      }
      InsertDistinct(xs[|xs| - 1], SortDistinct(prefix, lt), lt)
  }

  /** A strictly sorted list has no repeated element. */
  lemma SortedDistinctElements<T(!new)>(s: seq<T>, lt: (T, T) -> bool)
    requires IsStrictTotalOrder(lt) && StrictlySorted(s, lt)
    ensures forall i, j :: 0 <= i < j < |s| ==> s[i] != s[j]
  {
  }

  /** Two strictly sorted lists with the same elements are equal: the sorted list of
      distinct values is determined by the set of values. */
  lemma {:induction false} SortedUnique<T(!new)>(a: seq<T>, b: seq<T>, lt: (T, T) -> bool)
    requires IsStrictTotalOrder(lt) && StrictlySorted(a, lt) && StrictlySorted(b, lt)
    requires forall y :: y in a <==> y in b
    ensures a == b
  {
    assert a != [] ==> a[0] in b;
    assert b != [] ==> b[0] in a;
    if a != [] && b != [] {
      // The first element of each is the least element of the common set.
      assert b[0] in a;
      assert a[0] in b;
      assert a[0] == b[0];
      forall y
        ensures y in a[1..] <==> y in b[1..]
      {
        if y in a[1..] {
          var i :| 1 <= i < |a| && a[i] == y;
          assert y != a[0];
          assert y in b;
        }
        if y in b[1..] {
          var j :| 1 <= j < |b| && b[j] == y;
          assert y != b[0];
          assert y in a;
        }
      }
      SortedUnique(a[1..], b[1..], lt);
      assert a == [a[0]] + a[1..] && b == [b[0]] + b[1..];
    }
  }
}
