/**
 * `[x for x in q if p(x)]`, the list comprehension the managers use to
 * filter their lists, and `len(...)`/`sum(1 for ...)` over it.
 */
module Subseq {
  import opened Ranking

  /** The elements of `q` that satisfy `p`, in their order in `q`. */
  function Keep<T>(q: seq<T>, p: T -> bool): (r: seq<T>)
    ensures |r| <= |q|
  {
    if q == [] then []
    else Keep(q[..|q| - 1], p) + (if p(q[|q| - 1]) then [q[|q| - 1]] else [])
  }

  /** How many elements of `q` satisfy `p`. */
  function Count<T>(q: seq<T>, p: T -> bool): nat {
    |Keep(q, p)|
  }

  lemma {:induction false} KeepMembers<T>(q: seq<T>, p: T -> bool, x: T)
    ensures x in Keep(q, p) <==> x in q && p(x)
    decreases |q|
  {
    if q != [] {
      var init := q[..|q| - 1];
      assert q == init + [q[|q| - 1]];
      KeepMembers(init, p, x);
    }
  }

  /** The kept elements are exactly the elements that satisfy the condition. */
  lemma KeepExactly<T>(q: seq<T>, p: T -> bool)
    ensures forall x :: x in Keep(q, p) <==> x in q && p(x)
  {
    forall x
      ensures x in Keep(q, p) <==> x in q && p(x)
    {
      KeepMembers(q, p, x);
    }
  }

  /** Two conditions that agree keep the same elements. */
  lemma {:induction false} KeepSame<T>(q: seq<T>, p: T -> bool, p2: T -> bool)
    requires forall x :: p(x) == p2(x)
    ensures Keep(q, p) == Keep(q, p2)
    decreases |q|
  {
    if q != [] {
      KeepSame(q[..|q| - 1], p, p2);
    }
  }

  /** Every element kept satisfies the condition. */
  lemma KeepAll<T>(q: seq<T>, p: T -> bool)
    ensures forall i :: 0 <= i < |Keep(q, p)| ==> p(Keep(q, p)[i])
  {
    forall i | 0 <= i < |Keep(q, p)|
      ensures p(Keep(q, p)[i])
    {
      KeepMembers(q, p, Keep(q, p)[i]);
    }
  }

  /** Keeping everything changes nothing; keeping nothing leaves nothing. */
  lemma {:induction false} KeepTrivial<T>(q: seq<T>, p: T -> bool)
    ensures (forall i :: 0 <= i < |q| ==> p(q[i])) ==> Keep(q, p) == q
    ensures (forall i :: 0 <= i < |q| ==> !p(q[i])) ==> Keep(q, p) == []
    decreases |q|
  {
    if q != [] {
      var init := q[..|q| - 1];
      KeepTrivial(init, p);
      assert init + [q[|q| - 1]] == q;
    }
  }

  /** A filtered sequence keeps the order of the sequence it comes from. */
  lemma {:induction false} KeepSorted<T>(q: seq<T>, p: T -> bool, rank: T -> Rank)
    requires SortedByRank(q, rank)
    ensures SortedByRank(Keep(q, p), rank)
    decreases |q|
  {
    if q != [] {
      var init, last := q[..|q| - 1], q[|q| - 1];
      assert SortedByRank(init, rank);
      KeepSorted(init, p, rank);
      var k := Keep(init, p);
      forall i | 0 <= i < |k|
        ensures !Below(rank(k[i]), rank(last))
      {
        KeepMembers(init, p, k[i]);
        var j :| 0 <= j < |init| && init[j] == k[i];
        assert q[j] == init[j];
      }
    }
  }

  /** Each element satisfies exactly one of `p` and `np`, its negation. */
  lemma {:induction false} KeepSplit<T>(q: seq<T>, p: T -> bool, np: T -> bool)
    requires forall x :: np(x) == !p(x)
    ensures |Keep(q, p)| + |Keep(q, np)| == |q|
    decreases |q|
  {
    if q != [] {
      KeepSplit(q[..|q| - 1], p, np);
    }
  }

  lemma {:induction false} KeepAppend<T>(a: seq<T>, b: seq<T>, p: T -> bool)
    ensures Keep(a + b, p) == Keep(a, p) + Keep(b, p)
    decreases |b|
  {
    if b == [] {
      assert a + b == a;
    } else {
      var init := b[..|b| - 1];
      assert (a + b)[..|a + b| - 1] == a + init;
      KeepAppend(a, init, p);
    }
  }
}
