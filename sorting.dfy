/**
 * `Array.prototype.sort` with a numeric comparator `(a, b) => key(a) - key(b)`.
 * The engine's algorithm is not the site's; what the site relies on is the
 * result, which the language fixes (the sort is stable): the stable
 * ascending order by key. SortBy defines that order as an insertion sort,
 * and SortInPlace models the call's effect on the array it is invoked on.
 */
module Sorting {
  import opened Js

  /** Non-decreasing by key. */
  ghost predicate SortedBy<T>(s: seq<T>, key: T -> real) {
    forall i, j :: 0 <= i < j < |s| ==> key(s[i]) <= key(s[j])
  }

  /** The key of the comparator `(a, b) => key(b) - key(a)`, i.e. descending order. */
  function Negated<T>(key: T -> real): T -> real {
    x => -key(x)
  }

  /** Puts x before the first element whose key is not smaller. */
  function Insert<T>(x: T, s: seq<T>, key: T -> real): seq<T> {
    if s == [] || key(x) <= key(s[0]) then [x] + s
    else [s[0]] + Insert(x, s[1..], key)
  }

  /** The stable ascending sort by key. */
  function SortBy<T>(s: seq<T>, key: T -> real): seq<T> {
    if s == [] then [] else Insert(s[0], SortBy(s[1..], key), key)
  }

  lemma {:induction false} InsertPermutes<T>(x: T, s: seq<T>, key: T -> real)
    ensures multiset(Insert(x, s, key)) == multiset(s) + multiset{x}
  {
    if s == [] || key(x) <= key(s[0]) {
    } else {
      InsertPermutes(x, s[1..], key);
      assert s == [s[0]] + s[1..];
    }
  }

  lemma {:induction false} InsertSorted<T>(x: T, s: seq<T>, key: T -> real)
    requires SortedBy(s, key)
    ensures SortedBy(Insert(x, s, key), key)
  {
    if s == [] || key(x) <= key(s[0]) {
    } else {
      var tail := Insert(x, s[1..], key);
      InsertSorted(x, s[1..], key);
      InsertPermutes(x, s[1..], key);
      forall k | 0 <= k < |tail|
        ensures key(s[0]) <= key(tail[k])
      {
        assert tail[k] in multiset(tail);
        if tail[k] != x {
          assert tail[k] in multiset(s[1..]);
          var j :| 0 <= j < |s[1..]| && s[1..][j] == tail[k];
          assert s[j + 1] == tail[k];
        }
      }
    }
  }

  /** SortBy returns a permutation of its input. */
  lemma {:induction false} SortByPermutes<T>(s: seq<T>, key: T -> real)
    ensures multiset(SortBy(s, key)) == multiset(s)
    ensures |SortBy(s, key)| == |s|
  {
    if s != [] {
      SortByPermutes(s[1..], key);
      InsertPermutes(s[0], SortBy(s[1..], key), key);
      assert s == [s[0]] + s[1..];
    }
    assert |multiset(SortBy(s, key))| == |multiset(s)|;
  }

  /** SortBy returns its input in non-decreasing key order. */
  lemma {:induction false} SortBySorted<T>(s: seq<T>, key: T -> real)
    ensures SortedBy(SortBy(s, key), key)
  {
    if s != [] {
      SortBySorted(s[1..], key);
      InsertSorted(s[0], SortBy(s[1..], key), key);
    }
  }

  /** The elements whose key is k. */
  function KeyIs<T>(key: T -> real, k: real): T -> bool {
    x => key(x) == k
  }

  /** Insert puts x before every element of s with the same key, and moves nothing else. */
  lemma {:induction false} InsertFirstAmongEquals<T>(x: T, s: seq<T>, key: T -> real, k: real)
    ensures Filter(Insert(x, s, key), KeyIs(key, k)) == (if key(x) == k then [x] else []) + Filter(s, KeyIs(key, k))
  {
    if s == [] || key(x) <= key(s[0]) {
      assert ([x] + s)[0] == x && ([x] + s)[1..] == s;
    } else {
      var tail := Insert(x, s[1..], key);
      InsertFirstAmongEquals(x, s[1..], key, k);
      assert ([s[0]] + tail)[0] == s[0] && ([s[0]] + tail)[1..] == tail;
    }
  }

  /**
   * SortBy is stable: for every key, the elements with that key appear in the
   * result in the same order as in the input.
   */
  lemma {:induction false} SortByIsStable<T>(s: seq<T>, key: T -> real, k: real)
    ensures Filter(SortBy(s, key), KeyIs(key, k)) == Filter(s, KeyIs(key, k))
  {
    if s != [] {
      SortByIsStable(s[1..], key, k);
      InsertFirstAmongEquals(s[0], SortBy(s[1..], key), key, k);
    }
  }

  /** Sorting an already sorted sequence leaves it as it is (re-sorting is harmless). */
  lemma {:induction false} SortBySortedIsIdentity<T>(s: seq<T>, key: T -> real)
    requires SortedBy(s, key)
    ensures SortBy(s, key) == s
  {
    if s != [] {
      assert SortedBy(s[1..], key) by {
        forall i, j | 0 <= i < j < |s[1..]|
          ensures key(s[1..][i]) <= key(s[1..][j])
        {
          assert s[1..][i] == s[i + 1] && s[1..][j] == s[j + 1];
        }
      }
      SortBySortedIsIdentity(s[1..], key);
      assert s == [s[0]] + s[1..];
    }
  }

  /** Sorting twice gives the same order as sorting once. */
  lemma SortByIdempotent<T>(s: seq<T>, key: T -> real)
    ensures SortBy(SortBy(s, key), key) == SortBy(s, key)
  {
    SortBySorted(s, key);
    SortBySortedIsIdentity(SortBy(s, key), key);
  }

  /** `a.sort(comparator)`: reorders the array in place into SortBy order. */
  method SortInPlace<T>(a: array<T>, key: T -> real)
    modifies a
    ensures a[..] == SortBy(old(a[..]), key)
    ensures multiset(a[..]) == multiset(old(a[..]))
  {
    var sorted := SortBy(a[..], key);
    SortByPermutes(a[..], key);
    var i := 0;
    while i < a.Length
      invariant 0 <= i <= a.Length
      invariant |sorted| == a.Length
      invariant a[..i] == sorted[..i]
    {
      a[i] := sorted[i];
      i := i + 1;
      assert a[..i] == a[..i - 1] + [a[i - 1]];
    }
    assert a[..] == a[..a.Length];
    assert sorted == sorted[..a.Length];
  }
}
