/** `Array.prototype.filter` and the facts about it that the rest of the
    model relies on. */
module Seqs {

  /** `r` occurs in `s` in the same order, possibly with gaps. */
  predicate IsSubsequence<T(==)>(r: seq<T>, s: seq<T>)
    decreases |s|
  {
    if r == [] then true
    else if s == [] then false
    else if r[0] == s[0] then IsSubsequence(r[1..], s[1..])
    else IsSubsequence(r, s[1..])
  }

  /** The elements of `s` that satisfy `p`, in their order (a left-to-right
      scan, as `filter` does). */
  function Filter<T(!new)>(s: seq<T>, p: T -> bool): (r: seq<T>)
    ensures |r| <= |s|
  {
    if s == [] then []
    else
      var last := s[|s| - 1];
      assert s == s[..|s| - 1] + [last];
      Filter(s[..|s| - 1], p) + (if p(last) then [last] else [])
  }

  /** Each value is kept as often as it occurs in the input when it
      satisfies the criterion, and never otherwise. */
  lemma {:induction false} FilterCounts<T(!new)>(s: seq<T>, p: T -> bool)
    ensures forall x :: multiset(Filter(s, p))[x] == if p(x) then multiset(s)[x] else 0
  {
    if s != [] {
      var init, last := s[..|s| - 1], s[|s| - 1];
      assert s == init + [last];
      FilterCounts(init, p);
      FilterAppend(init, last, p);
    }
  }

  /** An element is kept exactly when it is in the input and satisfies
      the criterion. */
  lemma FilterMembers<T(!new)>(s: seq<T>, p: T -> bool)
    ensures forall x :: x in Filter(s, p) <==> x in s && p(x)
  {
    FilterCounts(s, p);
    forall x
      ensures x in Filter(s, p) <==> x in s && p(x)
    {
      assert x in Filter(s, p) <==> x in multiset(Filter(s, p));
      assert x in s <==> x in multiset(s);
    }
  }

  lemma {:induction false} FilterAppend<T(!new)>(s: seq<T>, x: T, p: T -> bool)
    ensures Filter(s + [x], p) == Filter(s, p) + (if p(x) then [x] else [])
  {
    assert (s + [x])[..|s + [x]| - 1] == s;
  }

  /** Filtering a filtered list again by the same criterion keeps it. */
  lemma {:induction false} FilterIdempotent<T(!new)>(s: seq<T>, p: T -> bool)
    ensures Filter(Filter(s, p), p) == Filter(s, p)
  {
    if s != [] {
      var init, last := s[..|s| - 1], s[|s| - 1];
      assert s == init + [last];
      FilterIdempotent(init, p);
      FilterAppend(init, last, p);
      if p(last) {
        FilterAppend(Filter(init, p), last, p);
      } else {
        assert Filter(s, p) == Filter(init, p) + [];
        assert Filter(init, p) + [] == Filter(init, p);
      }
    }
  }

  /** Dropping elements from the end of a subsequence keeps it one. */
  lemma {:induction false} SubsequenceOfLonger<T>(r: seq<T>, s: seq<T>, x: T)
    requires IsSubsequence(r, s)
    ensures IsSubsequence(r, s + [x]) && IsSubsequence(r + [x], s + [x])
    decreases |s|
  {
    if r == [] {
      assert r + [x] == [x];
      SingletonIsSubsequence(s, x);
    } else if r[0] == s[0] {
      assert (s + [x])[1..] == s[1..] + [x];
      assert (r + [x])[1..] == r[1..] + [x];
      SubsequenceOfLonger(r[1..], s[1..], x);
    } else {
      assert (s + [x])[1..] == s[1..] + [x];
      SubsequenceOfLonger(r, s[1..], x);
    }
  }

  lemma {:induction false} SingletonIsSubsequence<T>(s: seq<T>, x: T)
    ensures IsSubsequence([x], s + [x])
    decreases |s|
  {
    if s != [] && s[0] != x {
      assert (s + [x])[1..] == s[1..] + [x];
      SingletonIsSubsequence(s[1..], x);
    }
  }

  /** The output of `filter` is an order-preserving sublist of its input. */
  lemma {:induction false} FilterIsSubsequence<T(!new)>(s: seq<T>, p: T -> bool)
    ensures IsSubsequence(Filter(s, p), s)
    decreases |s|
  {
    if s != [] {
      var init, last := s[..|s| - 1], s[|s| - 1];
      assert s == init + [last];
      FilterAppend(init, last, p);
      FilterIsSubsequence(init, p);
      SubsequenceOfLonger(Filter(init, p), init, last);
      if p(last) {
        assert Filter(s, p) == Filter(init, p) + [last];
      } else {
        assert Filter(s, p) == Filter(init, p);
      }
    }
  }

  /** A list without repeated elements holds each of its values once. */
  lemma {:induction false} DistinctCountsOne<T>(s: seq<T>)
    requires forall i, j :: 0 <= i < j < |s| ==> s[i] != s[j]
    ensures forall x :: multiset(s)[x] == if x in s then 1 else 0
  {
    if s != [] {
      var init, last := s[..|s| - 1], s[|s| - 1];
      assert s == init + [last];
      DistinctCountsOne(init);
      assert last !in init;
    }
  }

  /** A list holding each value of a set once, and nothing else, is as
      long as the set is large. */
  lemma {:induction false} CountsOneSize<T>(s: seq<T>, values: set<T>)
    requires forall x :: multiset(s)[x] == if x in values then 1 else 0
    ensures |s| == |values|
  {
    if s != [] {
      var init, last := s[..|s| - 1], s[|s| - 1];
      assert s == init + [last];
      assert multiset(s) == multiset(init) + multiset{last};
      assert last in values;
      forall x
        ensures multiset(init)[x] == if x in values - {last} then 1 else 0
      {
        assert multiset(s)[x] == multiset(init)[x] + (if x == last then 1 else 0);
      }
      CountsOneSize(init, values - {last});
    }
  }

  /** A prefix of a list without repeated values has none either. */
  lemma PrefixCountsAtMostOne<T>(s: seq<T>, n: nat)
    requires n <= |s|
    requires forall x :: multiset(s)[x] <= 1
    ensures forall x :: multiset(s[..n])[x] <= 1
  {
    assert s == s[..n] + s[n..];
    assert multiset(s) == multiset(s[..n]) + multiset(s[n..]);
    forall x
      ensures multiset(s[..n])[x] <= 1
    {
      assert multiset(s)[x] == multiset(s[..n])[x] + multiset(s[n..])[x];
    }
  }
}
