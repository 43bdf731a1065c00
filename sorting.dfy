/**
 * Python's built-in `sorted(xs, key=k)`: a stable sort by a key.
 * Modelled as insertion sort, whose three defining properties
 * (ordered, a permutation, stable) are proved below.
 */
module Sorting {

  /** Nondecreasing by `key`. */
  predicate SortedBy<T>(s: seq<T>, key: T -> real)
  {
    forall i, j :: 0 <= i < j < |s| ==> key(s[i]) <= key(s[j])
  }

  /** The elements of `s` whose key is `k`, in their order in `s`. */
  function KeyRun<T>(s: seq<T>, key: T -> real, k: real): (r: seq<T>)
    ensures |r| <= |s|
  {
    if s == [] then []
    else (if key(s[0]) == k then [s[0]] else []) + KeyRun(s[1..], key, k)
  }

  /** Puts `x` in front of the first element whose key is not smaller. */
  function Insert<T>(x: T, s: seq<T>, key: T -> real): (r: seq<T>)
    ensures |r| == |s| + 1
  {
    if s == [] || key(x) <= key(s[0]) then [x] + s
    else [s[0]] + Insert(x, s[1..], key)
  }

  function SortBy<T>(s: seq<T>, key: T -> real): (r: seq<T>)
    ensures |r| == |s|
  {
    if s == [] then [] else Insert(s[0], SortBy(s[1..], key), key)
  }

  lemma {:induction false} InsertPermutes<T>(x: T, s: seq<T>, key: T -> real)
    ensures multiset(Insert(x, s, key)) == multiset(s) + multiset{x}
    ensures |Insert(x, s, key)| == |s| + 1
  {
    if s == [] || key(x) <= key(s[0]) {
    } else {
      InsertPermutes(x, s[1..], key);
      assert s == [s[0]] + s[1..];
    }
  }

  lemma {:induction false} InsertSorted<T>(x: T, s: seq<T>, key: T -> real)
    requires SortedBy(s, key)
    ensures SortedBy(Insert(x, s, key), key)
  {
    if s == [] || key(x) <= key(s[0]) {
    } else {
      var rest := Insert(x, s[1..], key);
      InsertSorted(x, s[1..], key);
      InsertPermutes(x, s[1..], key);
      forall y | y in rest
        ensures key(s[0]) <= key(y)
      {
        assert y in multiset(rest);
        assert y == x || y in s[1..];
      }
    }
  }

  lemma {:induction false} InsertKeyRun<T>(x: T, s: seq<T>, key: T -> real, k: real)
    ensures KeyRun(Insert(x, s, key), key, k) == (if key(x) == k then [x] else []) + KeyRun(s, key, k)
  {
    if s == [] || key(x) <= key(s[0]) {
      assert ([x] + s)[1..] == s;
    } else {
      var t := [s[0]] + Insert(x, s[1..], key);
      assert t[1..] == Insert(x, s[1..], key);
      InsertKeyRun(x, s[1..], key, k);
    }
  }

  /** The sort is ordered, a permutation, and stable: for every key value the
      elements carrying it keep their relative order. */
  lemma SortByCorrect<T>(s: seq<T>, key: T -> real)
    ensures |SortBy(s, key)| == |s|
    ensures multiset(SortBy(s, key)) == multiset(s)
    ensures SortedBy(SortBy(s, key), key)
    ensures forall k :: KeyRun(SortBy(s, key), key, k) == KeyRun(s, key, k)
  {
    SortByOrdered(s, key);
    forall k
      ensures KeyRun(SortBy(s, key), key, k) == KeyRun(s, key, k)
    {
      SortByStable(s, key, k);
    }
  }

  lemma {:induction false} SortByOrdered<T>(s: seq<T>, key: T -> real)
    ensures multiset(SortBy(s, key)) == multiset(s)
    ensures SortedBy(SortBy(s, key), key)
  {
    if s != [] {
      SortByOrdered(s[1..], key);
      InsertPermutes(s[0], SortBy(s[1..], key), key);
      InsertSorted(s[0], SortBy(s[1..], key), key);
      assert s == [s[0]] + s[1..];
    }
  }

  lemma {:induction false} SortByStable<T>(s: seq<T>, key: T -> real, k: real)
    ensures KeyRun(SortBy(s, key), key, k) == KeyRun(s, key, k)
  {
    if s != [] {
      SortByStable(s[1..], key, k);
      InsertKeyRun(s[0], SortBy(s[1..], key), key, k);
    }
  }

  /** Concatenation is associative; stated once for the loops that append a block at a time. */
  lemma ConcatAssoc<T>(a: seq<T>, b: seq<T>, c: seq<T>)
    ensures (a + b) + c == a + (b + c)
  {
  }

  /** The reversal that Python's `reversed` produces. */
  function Reverse<T>(s: seq<T>): (r: seq<T>)
    ensures |r| == |s|
    ensures forall i :: 0 <= i < |s| ==> r[i] == s[|s| - 1 - i]
  {
    if s == [] then [] else Reverse(s[1..]) + [s[0]]
  }
}
