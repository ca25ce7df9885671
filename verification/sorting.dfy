/**
 * Sorting by a total preorder, used wherever the source calls `sorted()`,
 * `np.percentile`/`np.median` (which sort first), `DataFrame.sort_values`
 * or `groupby` (which orders its groups by key).
 */
module Sorting {

  ghost predicate TotalPreorder<T(!new)>(le: (T, T) -> bool) {
    && (forall x, y :: le(x, y) || le(y, x))
    && (forall x, y, z :: le(x, y) && le(y, z) ==> le(x, z))
  }

  ghost predicate SortedBy<T>(le: (T, T) -> bool, s: seq<T>) {
    forall i, j :: 0 <= i < j < |s| ==> le(s[i], s[j])
  }

  /** Inserts `x` in front of the first element it does not exceed. */
  function Insert<T>(le: (T, T) -> bool, x: T, s: seq<T>): seq<T> {
    if s == [] then [x]
    else if le(x, s[0]) then [x] + s
    else [s[0]] + Insert(le, x, s[1..])
  }

  /** Insertion adds exactly `x`. */
  lemma {:induction false} InsertPermutes<T>(le: (T, T) -> bool, x: T, s: seq<T>)
    ensures multiset(Insert(le, x, s)) == multiset(s) + multiset{x}
  {
    if s == [] {
      assert Insert(le, x, s) == [x];
    } else if le(x, s[0]) {
      assert Insert(le, x, s) == [x] + s;
      assert multiset([x] + s) == multiset([x]) + multiset(s);
    } else {
      var t := Insert(le, x, s[1..]);
      InsertPermutes(le, x, s[1..]);
      assert multiset(s) == multiset([s[0]]) + multiset(s[1..]) by {
        assert s == [s[0]] + s[1..];
      }
      assert Insert(le, x, s) == [s[0]] + t;
      assert multiset([s[0]] + t) == multiset([s[0]]) + multiset(t);
    }
  }

  /** Insertion adds one element. */
  lemma {:induction false} InsertLength<T>(le: (T, T) -> bool, x: T, s: seq<T>)
    ensures |Insert(le, x, s)| == |s| + 1
  {
    if s != [] && !le(x, s[0]) {
      InsertLength(le, x, s[1..]);
    }
  }

  /** A lower bound of `x` and of every element of `s` bounds the insertion too. */
  lemma {:induction false} InsertLowerBound<T>(le: (T, T) -> bool, b: T, x: T, s: seq<T>)
    requires le(b, x) && forall k :: 0 <= k < |s| ==> le(b, s[k])
    ensures forall k :: 0 <= k < |Insert(le, x, s)| ==> le(b, Insert(le, x, s)[k])
  {
    if s != [] && !le(x, s[0]) {
      InsertLowerBound(le, b, x, s[1..]);
    }
  }

  /** Inserting into a sorted sequence keeps it sorted. */
  lemma {:induction false} InsertSorted<T(!new)>(le: (T, T) -> bool, x: T, s: seq<T>)
    requires TotalPreorder(le) && SortedBy(le, s)
    ensures SortedBy(le, Insert(le, x, s))
  {
    if s != [] && !le(x, s[0]) {
      InsertSorted(le, x, s[1..]);
      InsertLowerBound(le, s[0], x, s[1..]);
    }
  }

  /** Insertion sort: a sorted permutation of the input. */
  function Sort<T(!new)>(le: (T, T) -> bool, s: seq<T>): (r: seq<T>)
    requires TotalPreorder(le)
    ensures multiset(r) == multiset(s)
    ensures |r| == |s|
    ensures SortedBy(le, r)
  {
    if s == [] then []
    else
      var t := Sort(le, s[1..]);
      InsertPermutes(le, s[0], t);
      InsertSorted(le, s[0], t);
      InsertLength(le, s[0], t);
      assert multiset(s) == multiset(t) + multiset{s[0]} by {
        assert s == [s[0]] + s[1..];
      }
      Insert(le, s[0], t)
  }
}
