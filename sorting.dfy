/** `Array.prototype.sort` with a comparator, specified by an insertion
    sort. `le(a, b)` stands for "the comparator of a and b is not
    positive", the order the sorted array must respect. */
module Sorting {

  /** Every element is `le` every later element. */
  predicate SortedBy<T>(s: seq<T>, le: (T, T) -> bool) {
    forall i, j :: 0 <= i < j < |s| ==> le(s[i], s[j])
  }

  /** The comparator is consistent on the elements of `s`: any two of them
      compare, and the order is transitive. */
  predicate ConsistentOn<T(==)>(le: (T, T) -> bool, s: seq<T>) {
    && (forall a, b :: a in s && b in s ==> le(a, b) || le(b, a))
    && (forall a, b, c :: a in s && b in s && c in s && le(a, b) && le(b, c) ==> le(a, c))
  }

  /** Puts `x` in front of the first element it is `le` to. */
  function Insert<T>(x: T, s: seq<T>, le: (T, T) -> bool): (r: seq<T>)
    ensures multiset(r) == multiset(s) + multiset{x}
  {
    if s == [] then [x]
    else if le(x, s[0]) then [x] + s
    else
      assert s == [s[0]] + s[1..];
      [s[0]] + Insert(x, s[1..], le)
  }

  /** The sorted array: a rearrangement of the input. */
  function InsertionSort<T>(s: seq<T>, le: (T, T) -> bool): (r: seq<T>)
    ensures multiset(r) == multiset(s) && |r| == |s|
  {
    if s == [] then []
    else
      assert s == [s[0]] + s[1..];
      Insert(s[0], InsertionSort(s[1..], le), le)
  }

  /** Consistency on a list carries over to any list of its elements. */
  lemma ConsistentOnPart<T>(le: (T, T) -> bool, s: seq<T>, t: seq<T>)
    requires ConsistentOn(le, s)
    requires forall x :: x in t ==> x in s
    ensures ConsistentOn(le, t)
  {
  }

  /** An element `le` every element of a sorted list can go in front. */
  lemma PrependSorted<T>(h: T, t: seq<T>, le: (T, T) -> bool)
    requires SortedBy(t, le)
    requires forall k :: 0 <= k < |t| ==> le(h, t[k])
    ensures SortedBy([h] + t, le)
  {
    forall i, j | 0 <= i < j < |[h] + t|
      ensures le(([h] + t)[i], ([h] + t)[j])
    {
      if i > 0 {
        assert ([h] + t)[i] == t[i - 1] && ([h] + t)[j] == t[j - 1];
      }
    }
  }

  /** When `x` goes after the head, everything after the head is one of
      the other elements or `x`, and the head is `le` all of them. */
  lemma HeadBeforeInserted<T>(x: T, s: seq<T>, le: (T, T) -> bool)
    requires s != [] && SortedBy(s, le)
    requires ConsistentOn(le, [x] + s)
    requires !le(x, s[0])
    ensures forall k :: 0 <= k < |Insert(x, s[1..], le)| ==> le(s[0], Insert(x, s[1..], le)[k])
  {
    var rest := Insert(x, s[1..], le);
    assert s[0] in [x] + s && x in [x] + s;
    forall k | 0 <= k < |rest|
      ensures le(s[0], rest[k])
    {
      assert rest[k] in multiset(rest);
      if rest[k] != x {
        var j :| 1 <= j < |s| && s[j] == rest[k];
      }
    }
  }

  lemma {:induction false} InsertSorted<T>(x: T, s: seq<T>, le: (T, T) -> bool)
    requires SortedBy(s, le)
    requires ConsistentOn(le, [x] + s)
    ensures SortedBy(Insert(x, s, le), le)
  {
    if s == [] {
    } else if le(x, s[0]) {
      forall j | 0 <= j < |s|
        ensures le(x, s[j])
      {
        assert x in [x] + s && s[0] in [x] + s && s[j] in [x] + s;
      }
      PrependSorted(x, s, le);
    } else {
      ConsistentOnPart(le, [x] + s, [x] + s[1..]);
      InsertSorted(x, s[1..], le);
      HeadBeforeInserted(x, s, le);
      PrependSorted(s[0], Insert(x, s[1..], le), le);
    }
  }

  /** With a comparator consistent on the input, the result is sorted. */
  lemma {:induction false} InsertionSortSorted<T>(s: seq<T>, le: (T, T) -> bool)
    requires ConsistentOn(le, s)
    ensures SortedBy(InsertionSort(s, le), le)
  {
    if s != [] {
      var rest := InsertionSort(s[1..], le);
      ConsistentOnPart(le, s, s[1..]);
      InsertionSortSorted(s[1..], le);
      forall y | y in [s[0]] + rest
        ensures y in s
      {
        if y != s[0] {
          assert y in multiset(rest);
        }
      }
      ConsistentOnPart(le, s, [s[0]] + rest);
      InsertSorted(s[0], rest, le);
    }
  }

  /** A value occurs in the sorted array as often as in the input. */
  lemma SortedMembers<T>(s: seq<T>, le: (T, T) -> bool)
    ensures forall x :: x in InsertionSort(s, le) <==> x in s
  {
    forall x
      ensures x in InsertionSort(s, le) <==> x in s
    {
      assert x in InsertionSort(s, le) <==> x in multiset(InsertionSort(s, le));
      assert x in s <==> x in multiset(s);
    }
  }
}
