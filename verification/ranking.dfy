/**
 * Stable ordering by descending rank, the discipline the core uses in three
 * places: the queue's priority insertion (a message goes immediately before
 * the first message ranked strictly below it), the rule list sorted by
 * priority with Python's stable `sorted(..., reverse=True)`, and the queue's
 * eviction sort by `(priority, created_at)`.
 *
 * A rank is a pair compared lexicographically; a plain priority is the pair
 * `(priority, 0)`.
 */
module Ranking {

  datatype Rank = Rank(major: int, minor: int)

  /** `a` ranks strictly below `b`. */
  predicate Below(a: Rank, b: Rank) {
    a.major < b.major || (a.major == b.major && a.minor < b.minor)
  }

  /** Highest rank first: no element ranks strictly below a later one. */
  predicate SortedByRank<T>(q: seq<T>, rank: T -> Rank) {
    forall i, j :: 0 <= i < j < |q| ==> !Below(rank(q[i]), rank(q[j]))
  }

  /** The elements of `q` whose rank is exactly `r`, in their order in `q`. */
  function Only<T>(q: seq<T>, r: Rank, rank: T -> Rank): seq<T> {
    if q == [] then []
    else (if rank(q[0]) == r then [q[0]] else []) + Only(q[1..], r, rank)
  }

  /** The index of the first element ranked strictly below `x`, or `|q|`. */
  function InsertionPoint<T>(q: seq<T>, x: T, rank: T -> Rank): (k: nat)
    ensures k <= |q|
    ensures forall i :: 0 <= i < k ==> !Below(rank(q[i]), rank(x))
    ensures k < |q| ==> Below(rank(q[k]), rank(x))
  {
    if q == [] then 0
    else if Below(rank(q[0]), rank(x)) then 0
    else 1 + InsertionPoint(q[1..], x, rank)
  }

  /** The insertion point is the first index whose element ranks strictly
      below `x`. */
  lemma InsertionPointIs<T>(q: seq<T>, x: T, rank: T -> Rank, k: nat)
    requires k <= |q|
    requires forall i :: 0 <= i < k ==> !Below(rank(q[i]), rank(x))
    requires k < |q| ==> Below(rank(q[k]), rank(x))
    ensures InsertionPoint(q, x, rank) == k
  {
  }

  /** `x` placed immediately before the first element ranked strictly below
      it, or at the end when there is none. */
  function InsertByRank<T>(q: seq<T>, x: T, rank: T -> Rank): seq<T> {
    var k := InsertionPoint(q, x, rank);
    q[..k] + [x] + q[k..]
  }

  /** Stable sort by descending rank: each element in turn is inserted after
      every element already placed that does not rank below it. */
  function SortByRank<T>(q: seq<T>, rank: T -> Rank): seq<T> {
    if q == [] then []
    else InsertByRank(SortByRank(q[..|q| - 1], rank), q[|q| - 1], rank)
  }

  // ---------------------------------------------------------------------

  lemma {:induction false} OnlyAppend<T>(a: seq<T>, b: seq<T>, r: Rank, rank: T -> Rank)
    ensures Only(a + b, r, rank) == Only(a, r, rank) + Only(b, r, rank)
    decreases |a|
  {
    if a == [] {
      assert a + b == b;
    } else {
      var head := if rank(a[0]) == r then [a[0]] else [];
      assert (a + b)[0] == a[0];
      assert (a + b)[1..] == a[1..] + b;
      OnlyAppend(a[1..], b, r, rank);
      assert Only(a + b, r, rank) == head + (Only(a[1..], r, rank) + Only(b, r, rank));
      assert Only(a, r, rank) == head + Only(a[1..], r, rank);
    }
  }

  lemma {:induction false} OnlyNone<T>(q: seq<T>, r: Rank, rank: T -> Rank)
    requires forall i :: 0 <= i < |q| ==> rank(q[i]) != r
    ensures Only(q, r, rank) == []
    decreases |q|
  {
    if q != [] {
      OnlyNone(q[1..], r, rank);
    }
  }

  /** Insertion adds exactly the new element. */
  lemma InsertMultiset<T>(q: seq<T>, x: T, rank: T -> Rank)
    ensures multiset(InsertByRank(q, x, rank)) == multiset(q) + multiset{x}
    ensures |InsertByRank(q, x, rank)| == |q| + 1
  {
    var k := InsertionPoint(q, x, rank);
    assert q == q[..k] + q[k..];
  }

  /** Insertion into a sorted queue keeps it sorted. */
  lemma InsertKeepsSorted<T>(q: seq<T>, x: T, rank: T -> Rank)
    requires SortedByRank(q, rank)
    ensures SortedByRank(InsertByRank(q, x, rank), rank)
  {
    var k := InsertionPoint(q, x, rank);
    var r := InsertByRank(q, x, rank);
    assert |r| == |q| + 1;
    forall i, j | 0 <= i < j < |r|
      ensures !Below(rank(r[i]), rank(r[j]))
    {
      if j < k {
        assert r[i] == q[i] && r[j] == q[j];
      } else if j == k {
        assert r[i] == q[i] && r[j] == x;
      } else if i < k {
        assert r[i] == q[i] && r[j] == q[j - 1];
      } else if i == k {
        assert r[i] == x && r[j] == q[j - 1];
        assert Below(rank(q[k]), rank(x));
        if j - 1 > k {
          assert !Below(rank(q[k]), rank(q[j - 1]));
        }
      } else {
        assert r[i] == q[i - 1] && r[j] == q[j - 1];
      }
    }
  }

  /** Insertion into a sorted queue is stable: among elements of one rank
      the new element comes last, after all those already there. */
  lemma InsertStable<T>(q: seq<T>, x: T, r: Rank, rank: T -> Rank)
    requires SortedByRank(q, rank)
    ensures Only(InsertByRank(q, x, rank), r, rank)
         == Only(q, r, rank) + (if rank(x) == r then [x] else [])
  {
    var k := InsertionPoint(q, x, rank);
    assert q == q[..k] + q[k..];
    OnlyAppend(q[..k] + [x], q[k..], r, rank);
    OnlyAppend(q[..k], [x], r, rank);
    OnlyAppend(q[..k], q[k..], r, rank);
    assert Only([x], r, rank) == (if rank(x) == r then [x] else []) + Only([x][1..], r, rank);
    if rank(x) == r {
      forall i | 0 <= i < |q[k..]|
        ensures rank(q[k..][i]) != r
      {
        assert Below(rank(q[k]), rank(x));
        if i > 0 {
          assert !Below(rank(q[k]), rank(q[k + i]));
        }
      }
      OnlyNone(q[k..], r, rank);
    }
  }

  /** Inserting an element that no element of `q` ranks below appends it. */
  lemma InsertAtEnd<T>(q: seq<T>, x: T, rank: T -> Rank)
    requires forall i :: 0 <= i < |q| ==> !Below(rank(q[i]), rank(x))
    ensures InsertByRank(q, x, rank) == q + [x]
  {
    var k := InsertionPoint(q, x, rank);
    assert k == |q|;
  }

  /** The stable sort orders by descending rank, loses and adds nothing, and
      keeps the original order within each rank. */
  lemma {:induction false} SortByRankCorrect<T>(q: seq<T>, rank: T -> Rank)
    ensures SortedByRank(SortByRank(q, rank), rank)
    ensures multiset(SortByRank(q, rank)) == multiset(q)
    ensures forall r :: Only(SortByRank(q, rank), r, rank) == Only(q, r, rank)
    decreases |q|
  {
    if q != [] {
      var init, last := q[..|q| - 1], q[|q| - 1];
      assert q == init + [last];
      SortByRankCorrect(init, rank);
      var s := SortByRank(init, rank);
      InsertKeepsSorted(s, last, rank);
      InsertMultiset(s, last, rank);
      forall r
        ensures Only(SortByRank(q, rank), r, rank) == Only(q, r, rank)
      {
        InsertStable(s, last, r, rank);
        OnlyAppend(init, [last], r, rank);
        assert Only([last], r, rank) == (if rank(last) == r then [last] else []) + Only([last][1..], r, rank);
      }
    }
  }

  /** Sorting a sequence that is already sorted changes nothing. */
  lemma {:induction false} SortSortedIsIdentity<T>(q: seq<T>, rank: T -> Rank)
    requires SortedByRank(q, rank)
    ensures SortByRank(q, rank) == q
    decreases |q|
  {
    if q != [] {
      var init, last := q[..|q| - 1], q[|q| - 1];
      assert SortedByRank(init, rank);
      SortSortedIsIdentity(init, rank);
      InsertAtEnd(init, last, rank);
      assert init + [last] == q;
    }
  }
}
