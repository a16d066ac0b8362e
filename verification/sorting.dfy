/**
 * `sorted(set(xs))` for a strict total order: the distinct elements of a
 * sequence in increasing order. Insertion into an increasing, duplicate-free
 * sequence serves as the reference definition; any strictly increasing
 * sequence with the same elements is equal to it.
 */
module Sorting {

  ghost predicate StrictTotalOrder<T(!new)>(less: (T, T) -> bool)
  {
    && (forall a :: !less(a, a))
    && (forall a, b, c :: less(a, b) && less(b, c) ==> less(a, c))
    && (forall a, b :: a == b || less(a, b) || less(b, a))
  }

  predicate Increasing<T>(r: seq<T>, less: (T, T) -> bool)
  {
    forall i, j :: 0 <= i < j < |r| ==> less(r[i], r[j])
  }

  /** Places `x` into the increasing sequence `r`, unless it is already there. */
  function Insert<T(==,!new)>(x: T, r: seq<T>, less: (T, T) -> bool): (s: seq<T>)
    requires StrictTotalOrder(less) && Increasing(r, less)
    ensures Increasing(s, less)
    ensures forall y :: y in s <==> y == x || y in r
  {
    if |r| == 0 then [x]
    else if x == r[0] then r
    else if less(x, r[0]) then [x] + r
    else
      assert Increasing(r[1..], less);
      var rest := Insert(x, r[1..], less);
      assert forall y :: y in rest ==> less(r[0], y) by {
        forall y | y in rest ensures less(r[0], y) {
          if y != x {
            var j :| 0 <= j < |r[1..]| && r[1..][j] == y;
            assert r[j + 1] == y;
          }
        }
      }
      [r[0]] + rest
  }

  /** `sorted(set(xs))` */
  function SortedSet<T(==,!new)>(xs: seq<T>, less: (T, T) -> bool): (r: seq<T>)
    requires StrictTotalOrder(less)
    ensures Increasing(r, less)
    ensures forall y :: y in r <==> y in xs
  {
    if |xs| == 0 then []
    else
      var r := Insert(xs[|xs| - 1], SortedSet(xs[..|xs| - 1], less), less);
      assert forall y :: y in xs <==> y == xs[|xs| - 1] || y in xs[..|xs| - 1] by {
        assert xs == xs[..|xs| - 1] + [xs[|xs| - 1]];
      }
      r
  }

  /** An increasing sequence is determined by its elements: whatever way `sorted(set(xs))` is computed, it is `SortedSet`. */
  lemma {:induction false} IncreasingUnique<T(!new)>(r: seq<T>, s: seq<T>, less: (T, T) -> bool)
    requires StrictTotalOrder(less)
    requires Increasing(r, less) && Increasing(s, less)
    requires forall y :: y in r <==> y in s
    ensures r == s
    decreases |r|
  {
    SameElementsEmpty(r, s);
    if |r| > 0 {
      assert r[0] == s[0] by {
        assert r[0] in s && s[0] in r;
      }
      assert Increasing(r[1..], less) && Increasing(s[1..], less);
      forall y ensures y in r[1..] <==> y in s[1..] {
        if y in r[1..] {
          var j :| 0 <= j < |r[1..]| && r[1..][j] == y;
          assert less(r[0], y);
          assert y != s[0];
          assert y in s;
          var i :| 0 <= i < |s| && s[i] == y;
          assert i > 0 && s[1..][i - 1] == y;
        }
        if y in s[1..] {
          var j :| 0 <= j < |s[1..]| && s[1..][j] == y;
          assert less(s[0], y);
          assert y != r[0];
          assert y in r;
          var i :| 0 <= i < |r| && r[i] == y;
          assert i > 0 && r[1..][i - 1] == y;
        }
      }
      IncreasingUnique(r[1..], s[1..], less);
      assert r == [r[0]] + r[1..] && s == [s[0]] + s[1..];
    }
  }

  lemma SameElementsEmpty<T>(r: seq<T>, s: seq<T>)
    requires forall y :: y in r <==> y in s
    ensures |r| == 0 <==> |s| == 0
  {
    if |r| > 0 {
      assert r[0] in r;
    }
    if |s| > 0 {
      assert s[0] in s;
    }
  }

  /** An increasing sequence holds no element twice. */
  lemma IncreasingDistinct<T(!new)>(r: seq<T>, less: (T, T) -> bool)
    requires StrictTotalOrder(less) && Increasing(r, less)
    ensures forall i, j :: 0 <= i < j < |r| ==> r[i] != r[j]
  {
  }
}
