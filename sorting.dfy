/**
 * `Array.prototype.sort` and SQL `ORDER BY` as a stable insertion sort over a
 * "comes no later than" relation `le`. The result is always a permutation of the
 * input; it is ordered by `le` whenever `le` is a total preorder.
 */
module Sorting {

  ghost predicate TotalPreorder<T(!new)>(le: (T, T) -> bool)
  {
    && (forall a, b :: le(a, b) || le(b, a))
    && (forall a, b, c :: le(a, b) && le(b, c) ==> le(a, c))
  }

  predicate SortedBy<T>(s: seq<T>, le: (T, T) -> bool)
  {
    forall i, j :: 0 <= i < j < |s| ==> le(s[i], s[j])
  }

  /** Inserts `x` before the first element it comes no later than. */
  function InsertBy<T>(x: T, s: seq<T>, le: (T, T) -> bool): (r: seq<T>)
    ensures multiset(r) == multiset(s) + multiset{x}
    ensures |r| == |s| + 1
  {
    if s == [] then [x]
    else if le(x, s[0]) then [x] + s
    else
      assert s == [s[0]] + s[1..];
      [s[0]] + InsertBy(x, s[1..], le)
  }

  function SortBy<T>(s: seq<T>, le: (T, T) -> bool): (r: seq<T>)
    ensures multiset(r) == multiset(s)
    ensures |r| == |s|
  {
    if s == [] then []
    else
      assert s == [s[0]] + s[1..];
      InsertBy(s[0], SortBy(s[1..], le), le)
  }

  /** `le` is total and transitive on the elements of `s`: a comparator that is
   *  only consistent on the values actually being sorted. */
  ghost predicate PreorderOn<T>(s: seq<T>, le: (T, T) -> bool)
  {
    && (forall a, b :: a in s && b in s ==> le(a, b) || le(b, a))
    && (forall a, b, c :: a in s && b in s && c in s && le(a, b) && le(b, c) ==> le(a, c))
  }

  lemma PreorderOnSub<T>(s: seq<T>, t: seq<T>, le: (T, T) -> bool)
    requires PreorderOn(s, le)
    requires forall a :: a in t ==> a in s
    ensures PreorderOn(t, le)
  {
  }

  /** A head that comes no later than every element of a sorted tail keeps it sorted. */
  lemma ConsSorted<T>(h: T, tail: seq<T>, le: (T, T) -> bool)
    requires SortedBy(tail, le)
    requires forall a :: a in tail ==> le(h, a)
    ensures SortedBy([h] + tail, le)
  {
    var r := [h] + tail;
    forall i, j | 0 <= i < j < |r| ensures le(r[i], r[j]) {
      assert r[j] == tail[j - 1];
      if i > 0 {
        assert r[i] == tail[i - 1];
      }
    }
  }

  /** The first element of a sorted `s` comes no later than the elements of `s`. */
  lemma HeadFirst<T>(s: seq<T>, le: (T, T) -> bool, a: T)
    requires SortedBy(s, le) && s != [] && a in s[1..]
    ensures le(s[0], a)
  {
    var k :| 0 <= k < |s[1..]| && s[1..][k] == a;
    assert s[k + 1] == a;
  }

  lemma {:induction false} InsertBySorted<T>(x: T, s: seq<T>, le: (T, T) -> bool)
    requires PreorderOn([x] + s, le)
    requires SortedBy(s, le)
    ensures SortedBy(InsertBy(x, s, le), le)
  {
    if s == [] {
    } else if !le(x, s[0]) {
      assert x in [x] + s && s[0] in [x] + s;
      assert le(s[0], x);
      PreorderOnSub([x] + s, [x] + s[1..], le);
      assert SortedBy(s[1..], le) by {
        forall i, j | 0 <= i < j < |s[1..]| ensures le(s[1..][i], s[1..][j]) {
          assert s[1..][i] == s[i + 1] && s[1..][j] == s[j + 1];
        }
      }
      InsertBySorted(x, s[1..], le);
      var tail := InsertBy(x, s[1..], le);
      forall a | a in tail ensures le(s[0], a) {
        assert a in multiset(tail);
        if a != x {
          assert a in multiset(s[1..]);
          HeadFirst(s, le, a);
        }
      }
      ConsSorted(s[0], tail, le);
    } else {
      forall a | a in s ensures le(x, a) {
        if a != s[0] {
          assert a in s[1..] by {
            assert s == [s[0]] + s[1..];
          }
          HeadFirst(s, le, a);
          assert x in [x] + s && s[0] in [x] + s && a in [x] + s;
        }
      }
      ConsSorted(x, s, le);
    }
  }

  /** Sorting by a relation that is a total preorder on the input yields an
   *  ordered permutation. */
  lemma {:induction false} SortBySortedOn<T>(s: seq<T>, le: (T, T) -> bool)
    requires PreorderOn(s, le)
    ensures SortedBy(SortBy(s, le), le)
  {
    if s != [] {
      var rest := SortBy(s[1..], le);
      PreorderOnSub(s, s[1..], le);
      SortBySortedOn(s[1..], le);
      forall a | a in [s[0]] + rest ensures a in s {
        if a != s[0] {
          assert a in multiset(rest);
          assert a in multiset(s[1..]);
        }
      }
      PreorderOnSub(s, [s[0]] + rest, le);
      InsertBySorted(s[0], rest, le);
    }
  }

  /** Sorting by a total preorder yields an ordered permutation. */
  lemma SortBySorted<T(!new)>(s: seq<T>, le: (T, T) -> bool)
    requires TotalPreorder(le)
    ensures SortedBy(SortBy(s, le), le)
  {
    SortBySortedOn(s, le);
  }

  /** Membership is unchanged by sorting. */
  lemma SortByMembers<T>(s: seq<T>, le: (T, T) -> bool, x: T)
    ensures x in SortBy(s, le) <==> x in s
  {
    assert x in multiset(SortBy(s, le)) <==> x in multiset(s);
  }
}
