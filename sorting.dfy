/**
 * Python's `list.sort(key=...)` / `sorted(..., key=...)`: a stable sort by
 * a real-valued key.  `reverse=True` keeps equal elements in their original
 * order too, so a descending sort is an ascending sort by the negated key.
 */
module Sorting {

  predicate SortedBy<T>(s: seq<T>, key: T -> real)
  {
    forall i, j :: 0 <= i < j < |s| ==> key(s[i]) <= key(s[j])
  }

  /** The elements of `s` whose key is `v`, in order. */
  function WithKey<T>(s: seq<T>, key: T -> real, v: real): (r: seq<T>)
    ensures |r| <= |s|
  {
    if |s| == 0 then []
    else (if key(s[0]) == v then [s[0]] else []) + WithKey(s[1..], key, v)
  }

  /** Puts `x` in front of the first element whose key is not smaller. */
  function Insert<T>(x: T, s: seq<T>, key: T -> real): (r: seq<T>)
    ensures |r| == |s| + 1
  {
    if |s| == 0 || key(x) <= key(s[0]) then [x] + s
    else [s[0]] + Insert(x, s[1..], key)
  }

  /** Insertion sort, stable. */
  function SortBy<T>(s: seq<T>, key: T -> real): (r: seq<T>)
    ensures |r| == |s|
  {
    if |s| == 0 then [] else Insert(s[0], SortBy(s[1..], key), key)
  }

  lemma {:induction false} InsertSorted<T>(x: T, s: seq<T>, key: T -> real)
    requires SortedBy(s, key)
    ensures SortedBy(Insert(x, s, key), key)
    decreases |s|
  {
    if |s| != 0 && key(s[0]) < key(x) {
      InsertSorted(x, s[1..], key);
      var r := Insert(x, s, key);
      var t := Insert(x, s[1..], key);
      assert r == [s[0]] + t;
      InsertMultiset(x, s[1..], key);
      forall j | 0 < j < |r| ensures key(r[0]) <= key(r[j]) {
        assert r[j] == t[j - 1];
        assert r[j] in multiset(t);
        assert r[j] == x || r[j] in multiset(s[1..]);
      }
    }
  }

  lemma {:induction false} InsertMultiset<T>(x: T, s: seq<T>, key: T -> real)
    ensures multiset(Insert(x, s, key)) == multiset{x} + multiset(s)
    decreases |s|
  {
    if |s| != 0 && key(s[0]) < key(x) {
      InsertMultiset(x, s[1..], key);
      assert s == [s[0]] + s[1..];
    }
  }

  lemma {:induction false} WithKeyAppend<T>(a: seq<T>, b: seq<T>, key: T -> real, v: real)
    ensures WithKey(a + b, key, v) == WithKey(a, key, v) + WithKey(b, key, v)
    decreases |a|
  {
    if |a| != 0 {
      assert (a + b)[1..] == a[1..] + b;
      WithKeyAppend(a[1..], b, key, v);
    } else {
      assert a + b == b;
    }
  }

  lemma {:induction false} InsertWithKey<T>(x: T, s: seq<T>, key: T -> real, v: real)
    requires SortedBy(s, key)
    ensures WithKey(Insert(x, s, key), key, v) ==
            (if key(x) == v then [x] else []) + WithKey(s, key, v)
    decreases |s|
  {
    if |s| != 0 && key(s[0]) < key(x) {
      assert SortedBy(s[1..], key);
      InsertWithKey(x, s[1..], key, v);
      assert Insert(x, s, key)[1..] == Insert(x, s[1..], key);
      if key(x) == v {
        // every element in front of the insertion point has a smaller key,
        // so s[0] is not kept by the filter
        assert key(s[0]) != v;
      }
    }
  }

  /** In a sorted sequence every element of a prefix has a key no larger than any element left out of it. */
  lemma SortedPrefixIsTop<T>(s: seq<T>, m: nat, key: T -> real)
    requires SortedBy(s, key) && m <= |s|
    ensures forall x, y :: x in s && y in s[..m] && x !in s[..m] ==> key(y) <= key(x)
  {
    forall x, y | x in s && y in s[..m] && x !in s[..m] ensures key(y) <= key(x) {
      var j :| 0 <= j < |s| && s[j] == x;
      var i :| 0 <= i < m && s[..m][i] == y;
    }
  }

  /**
   * The first `m` elements of the sorted sequence: sorted, drawn from `c`,
   * and none of them ranked after an element of `c` left out.
   */
  lemma SortByPrefix<T>(c: seq<T>, m: nat, key: T -> real)
    requires m <= |c|
    ensures var r := SortBy(c, key)[..m];
      && SortedBy(r, key)
      && multiset(r) <= multiset(c)
      && (forall x, y :: x in c && y in r && x !in r ==> key(y) <= key(x))
  {
    var s := SortBy(c, key);
    SortBySorted(c, key);
    SortByPermutation(c, key);
    SortedPrefixIsTop(s, m, key);
    PrefixMultiset(s, m);
    forall x | x in c ensures x in s {
      assert x in multiset(c);
    }
  }

  lemma PrefixMultiset<T>(s: seq<T>, m: nat)
    requires m <= |s|
    ensures multiset(s[..m]) <= multiset(s)
  {
    assert s == s[..m] + s[m..];
  }

  /** The sorted sequence is ordered by the key. */
  lemma {:induction false} SortBySorted<T>(s: seq<T>, key: T -> real)
    ensures SortedBy(SortBy(s, key), key)
    decreases |s|
  {
    if |s| != 0 {
      SortBySorted(s[1..], key);
      InsertSorted(s[0], SortBy(s[1..], key), key);
    }
  }

  /** Sorting only reorders. */
  lemma {:induction false} SortByPermutation<T>(s: seq<T>, key: T -> real)
    ensures multiset(SortBy(s, key)) == multiset(s)
    decreases |s|
  {
    if |s| != 0 {
      SortByPermutation(s[1..], key);
      InsertMultiset(s[0], SortBy(s[1..], key), key);
      assert s == [s[0]] + s[1..];
    }
  }

  /** Sorting is stable: elements with equal keys keep their relative order. */
  lemma {:induction false} SortByStable<T>(s: seq<T>, key: T -> real, v: real)
    ensures WithKey(SortBy(s, key), key, v) == WithKey(s, key, v)
    decreases |s|
  {
    if |s| != 0 {
      SortByStable(s[1..], key, v);
      SortBySorted(s[1..], key);
      InsertWithKey(s[0], SortBy(s[1..], key), key, v);
    }
  }
}
