/**
 * A stable sort by an integer key, newest (largest key) first. It stands for
 * the database's `order(column, { ascending: false })` and for
 * `list.sort((a, b) => key(b) - key(a))`.
 */
module Sorting {

  predicate SortedDesc<T>(s: seq<T>, key: T -> int) {
    forall i, j :: 0 <= i < j < |s| ==> key(s[i]) >= key(s[j])
  }

  /** Prepending a key no smaller than every key of a sorted list keeps it sorted. */
  lemma ConsSorted<T>(h: T, t: seq<T>, key: T -> int)
    requires SortedDesc(t, key)
    requires forall k :: 0 <= k < |t| ==> key(t[k]) <= key(h)
    ensures SortedDesc([h] + t, key)
  {
    var r := [h] + t;
    forall i, j | 0 <= i < j < |r| ensures key(r[i]) >= key(r[j]) {
      assert r[j] == t[j - 1];
      if i > 0 {
        assert r[i] == t[i - 1];
      }
    }
  }

  /** Put `x` in front of the first element whose key is not larger than its own. */
  function InsertDesc<T(!new)>(x: T, s: seq<T>, key: T -> int): (r: seq<T>)
    requires SortedDesc(s, key)
    ensures |r| == |s| + 1
    ensures multiset(r) == multiset(s) + multiset{x}
    ensures SortedDesc(r, key)
    decreases |s|
  {
    if |s| == 0 then [x]
    else if key(s[0]) <= key(x) then
      ConsSorted(x, s, key);
      [x] + s
    else
      var rest := InsertDesc(x, s[1..], key);
      assert s == [s[0]] + s[1..];
      assert forall k :: 0 <= k < |rest| ==> key(rest[k]) <= key(s[0]) by {
        forall k | 0 <= k < |rest| ensures key(rest[k]) <= key(s[0]) {
          assert rest[k] in multiset(rest);
          if rest[k] != x {
            assert rest[k] in multiset(s[1..]);
            var m :| 0 <= m < |s[1..]| && s[1..][m] == rest[k];
            assert s[m + 1] == rest[k];
          }
        }
      }
      ConsSorted(s[0], rest, key);
      [s[0]] + rest
  }

  /** A permutation of `s` ordered by non-increasing key. */
  function SortDesc<T(!new)>(s: seq<T>, key: T -> int): (r: seq<T>)
    ensures |r| == |s|
    ensures multiset(r) == multiset(s)
    ensures SortedDesc(r, key)
    decreases |s|
  {
    if |s| == 0 then []
    else
      assert s == [s[0]] + s[1..];
      InsertDesc(s[0], SortDesc(s[1..], key), key)
  }

  /** The elements of `s` whose key is `k`, in their order in `s`. */
  function WithKey<T>(s: seq<T>, key: T -> int, k: int): (r: seq<T>)
    ensures |r| <= |s|
    ensures forall i :: 0 <= i < |r| ==> key(r[i]) == k
  {
    if |s| == 0 then [] else (if key(s[0]) == k then [s[0]] else []) + WithKey(s[1..], key, k)
  }

  /** Inserting `x` puts it ahead of every element with the same key. */
  lemma {:induction false} InsertDescStable<T(!new)>(x: T, s: seq<T>, key: T -> int, k: int)
    requires SortedDesc(s, key)
    ensures WithKey(InsertDesc(x, s, key), key, k) == WithKey([x] + s, key, k)
    decreases |s|
  {
    assert ([x] + s)[1..] == s;
    if |s| > 0 && key(s[0]) > key(x) {
      var rest := InsertDesc(x, s[1..], key);
      InsertDescStable(x, s[1..], key, k);
      assert InsertDesc(x, s, key)[1..] == rest;
      assert ([x] + s[1..])[1..] == s[1..];
    }
  }

  /**
   * The sort is stable: for every key, the elements with that key come out
   * in the order they went in.
   */
  lemma {:induction false} SortDescStable<T(!new)>(s: seq<T>, key: T -> int, k: int)
    ensures WithKey(SortDesc(s, key), key, k) == WithKey(s, key, k)
    decreases |s|
  {
    if |s| > 0 {
      var t := SortDesc(s[1..], key);
      InsertDescStable(s[0], t, key, k);
      SortDescStable(s[1..], key, k);
      assert ([s[0]] + t)[1..] == t;
    }
  }

  /** Sorting keeps every element and adds none. */
  lemma SortDescSameElements<T(!new)>(s: seq<T>, key: T -> int)
    ensures forall x :: x in SortDesc(s, key) <==> x in s
  {
    var r := SortDesc(s, key);
    forall x ensures x in r <==> x in s {
      assert x in r <==> x in multiset(r);
      assert x in s <==> x in multiset(s);
    }
  }

  /** Sorting an already sorted list changes nothing. */
  lemma {:induction false} SortDescSorted<T(!new)>(s: seq<T>, key: T -> int)
    requires SortedDesc(s, key)
    ensures SortDesc(s, key) == s
    decreases |s|
  {
    if |s| > 0 {
      SortDescSorted(s[1..], key);
      assert SortDesc(s[1..], key) == s[1..];
      if |s| > 1 {
        assert key(s[1]) <= key(s[0]);
      }
    }
  }
}
