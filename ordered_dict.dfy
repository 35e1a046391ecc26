/**
 * A Python dict whose iteration order matters: its entries in insertion
 * order.  Assigning to a present key replaces the value in place;
 * assigning to a new key appends an entry.
 */
module OrderedDict {
  import opened Wrappers

  type Dict<K, V> = seq<(K, V)>

  function Keys<K, V>(d: Dict<K, V>): (ks: seq<K>)
    ensures |ks| == |d|
    ensures forall i :: 0 <= i < |d| ==> ks[i] == d[i].0
  {
    seq(|d|, i requires 0 <= i < |d| => d[i].0)
  }

  predicate DistinctKeys<K(==), V>(d: Dict<K, V>)
  {
    forall i, j :: 0 <= i < j < |d| ==> d[i].0 != d[j].0
  }

  predicate HasKey<K(==), V>(d: Dict<K, V>, k: K)
  {
    exists i :: 0 <= i < |d| && d[i].0 == k
  }

  /** Position of the entry for `k`, if any. */
  function Find<K(==), V>(d: Dict<K, V>, k: K): (r: Option<nat>)
    ensures r.Some? ==> r.value < |d| && d[r.value].0 == k
    ensures r.Some? ==> forall j :: 0 <= j < r.value ==> d[j].0 != k
    ensures r.None? <==> !HasKey(d, k)
    decreases |d|
  {
    if |d| == 0 then None
    else if d[|d| - 1].0 == k && Find(d[..|d| - 1], k).None? then Some(|d| - 1)
    else
      var r := Find(d[..|d| - 1], k);
      assert r.None? ==> !HasKey(d, k) by {
        if r.None? {
          forall i | 0 <= i < |d| ensures d[i].0 != k {
            if i < |d| - 1 { assert d[i] == d[..|d| - 1][i]; }
          }
        }
      }
      r
  }

  /** `d.get(k)`. */
  function Get<K(==), V>(d: Dict<K, V>, k: K): (r: Option<V>)
    ensures r.Some? <==> HasKey(d, k)
  {
    match Find(d, k)
    case Some(i) => Some(d[i].1)
    case None => None
  }

  /** `d[k] = v`. */
  function Set<K(==), V>(d: Dict<K, V>, k: K, v: V): (r: Dict<K, V>)
    ensures HasKey(d, k) ==> Keys(r) == Keys(d)
    ensures !HasKey(d, k) ==> Keys(r) == Keys(d) + [k]
  {
    match Find(d, k)
    case Some(i) => d[i := (k, v)]
    case None => d + [(k, v)]
  }

  /** A key of a dict with distinct keys is found at its only entry. */
  lemma FindDistinct<K, V>(d: Dict<K, V>, i: nat)
    requires DistinctKeys(d) && i < |d|
    ensures Find(d, d[i].0) == Some(i)
  {
  }

  /** After `d[k] = v`, `d[k]` is `v`. */
  lemma GetSetSame<K, V>(d: Dict<K, V>, k: K, v: V)
    requires DistinctKeys(d)
    ensures Get(Set(d, k, v), k) == Some(v)
  {
    var r := Set(d, k, v);
    SetDistinct(d, k, v);
    var i := if Find(d, k).Some? then Find(d, k).value else |d|;
    assert r[i] == (k, v);
    FindDistinct(r, i);
  }

  /** After `d[k] = v`, every other key keeps its value. */
  lemma GetSetOther<K, V>(d: Dict<K, V>, k: K, v: V, k': K)
    requires DistinctKeys(d) && k' != k
    ensures Get(Set(d, k, v), k') == Get(d, k')
  {
    var r := Set(d, k, v);
    SetDistinct(d, k, v);
    if HasKey(d, k') {
      var j :| 0 <= j < |d| && d[j].0 == k';
      FindDistinct(d, j);
      assert r[j] == d[j];
      FindDistinct(r, j);
    } else {
      forall j | 0 <= j < |r| ensures r[j].0 != k' {
        if j < |d| { assert Keys(r)[j] == Keys(d)[j]; }
      }
    }
  }

  /** Assignment keeps the keys distinct. */
  lemma SetDistinct<K, V>(d: Dict<K, V>, k: K, v: V)
    requires DistinctKeys(d)
    ensures DistinctKeys(Set(d, k, v))
  {
    var r := Set(d, k, v);
    assert Keys(r) == Keys(d) || Keys(r) == Keys(d) + [k];
    forall i, j | 0 <= i < j < |r| ensures r[i].0 != r[j].0 {
      assert Keys(r)[i] == r[i].0 && Keys(r)[j] == r[j].0;
    }
  }

  /** The entries whose key fails `drop`, in their order (`del d[k]` for every such `k`). */
  function RemoveWhere<K, V>(d: Dict<K, V>, drop: K -> bool): (r: Dict<K, V>)
    ensures |r| <= |d|
    ensures forall i :: 0 <= i < |r| ==> !drop(r[i].0)
    decreases |d|
  {
    if |d| == 0 then []
    else if drop(d[|d| - 1].0) then RemoveWhere(d[..|d| - 1], drop)
    else RemoveWhere(d[..|d| - 1], drop) + [d[|d| - 1]]
  }

  /** Removing keeps every other entry and its value. */
  lemma {:induction false} GetRemoveWhere<K, V>(d: Dict<K, V>, drop: K -> bool, k: K)
    ensures Get(RemoveWhere(d, drop), k) == if drop(k) then None else Get(d, k)
    decreases |d|
  {
    if |d| != 0 {
      var init := d[..|d| - 1];
      GetRemoveWhere(init, drop, k);
      GetAppend(init, d[|d| - 1], k);
      if !drop(d[|d| - 1].0) {
        GetAppend(RemoveWhere(init, drop), d[|d| - 1], k);
      }
      assert d == init + [d[|d| - 1]];
    }
  }

  /** Looking up in a dict extended by one entry. */
  lemma GetAppend<K, V>(d: Dict<K, V>, e: (K, V), k: K)
    ensures Get(d + [e], k) == if Get(d, k).Some? then Get(d, k) else if e.0 == k then Some(e.1) else None
  {
    assert (d + [e])[..|d|] == d;
  }

  /** The keys that satisfy `p`, in order: `[k for k in d.keys() if p(k)]`. */
  function KeysWhere<K, V>(d: Dict<K, V>, p: K -> bool): (ks: seq<K>)
    ensures |ks| <= |d|
    decreases |d|
  {
    if |d| == 0 then []
    else KeysWhere(d[..|d| - 1], p) + (if p(d[|d| - 1].0) then [d[|d| - 1].0] else [])
  }

  /** A key is selected exactly when the dict has it and it satisfies `p`. */
  lemma {:induction false} KeysWhereMembers<K, V>(d: Dict<K, V>, p: K -> bool, k: K)
    ensures k in KeysWhere(d, p) <==> HasKey(d, k) && p(k)
    decreases |d|
  {
    if |d| != 0 {
      var init := d[..|d| - 1];
      KeysWhereMembers(init, p, k);
      if HasKey(d, k) && d[|d| - 1].0 != k {
        var i :| 0 <= i < |d| && d[i].0 == k;
        assert init[i].0 == k;
      }
      if HasKey(init, k) {
        var i :| 0 <= i < |init| && init[i].0 == k;
        assert d[i].0 == k;
      }
    }
  }

  /** Every entry is either kept by `RemoveWhere` or has its key selected by `KeysWhere`. */
  lemma {:induction false} RemoveWhereCount<K, V>(d: Dict<K, V>, p: K -> bool)
    ensures |RemoveWhere(d, p)| + |KeysWhere(d, p)| == |d|
    decreases |d|
  {
    if |d| != 0 {
      RemoveWhereCount(d[..|d| - 1], p);
    }
  }

  /** Removing by `p` and then by `q` removes by their disjunction `r`. */
  lemma {:induction false} RemoveWhereCompose<K, V>(d: Dict<K, V>, p: K -> bool, q: K -> bool, r: K -> bool)
    requires forall k :: r(k) == (p(k) || q(k))
    ensures RemoveWhere(RemoveWhere(d, p), q) == RemoveWhere(d, r)
    decreases |d|
  {
    if |d| != 0 {
      var init := d[..|d| - 1];
      var e := d[|d| - 1];
      RemoveWhereCompose(init, p, q, r);
      if !p(e.0) {
        var x := RemoveWhere(init, p);
        assert (x + [e])[..|x|] == x;
      }
    }
  }

  /** Removing by a test no key passes removes nothing. */
  lemma {:induction false} RemoveWhereNothing<K, V>(d: Dict<K, V>, p: K -> bool)
    requires forall i :: 0 <= i < |d| ==> !p(d[i].0)
    ensures RemoveWhere(d, p) == d
    decreases |d|
  {
    if |d| != 0 {
      var init := d[..|d| - 1];
      assert forall i :: 0 <= i < |init| ==> init[i] == d[i];
      RemoveWhereNothing(init, p);
      assert init + [d[|d| - 1]] == d;
    }
  }

  /** Only the verdicts on the dict's own keys matter. */
  lemma {:induction false} RemoveWhereCongruent<K, V>(d: Dict<K, V>, p: K -> bool, q: K -> bool)
    requires forall i :: 0 <= i < |d| ==> p(d[i].0) == q(d[i].0)
    ensures RemoveWhere(d, p) == RemoveWhere(d, q)
    decreases |d|
  {
    if |d| != 0 {
      var init := d[..|d| - 1];
      assert forall i :: 0 <= i < |init| ==> init[i] == d[i];
      RemoveWhereCongruent(init, p, q);
    }
  }

  /** Removing entries keeps the keys distinct, and keeps only entries of `d`. */
  lemma {:induction false} RemoveWhereDistinct<K, V>(d: Dict<K, V>, p: K -> bool)
    requires DistinctKeys(d)
    ensures DistinctKeys(RemoveWhere(d, p))
    ensures forall i :: 0 <= i < |RemoveWhere(d, p)| ==> RemoveWhere(d, p)[i] in d
    decreases |d|
  {
    if |d| != 0 {
      var init := d[..|d| - 1];
      var e := d[|d| - 1];
      assert forall i, j :: 0 <= i < j < |init| ==> init[i] == d[i] && init[j] == d[j];
      RemoveWhereDistinct(init, p);
      var x := RemoveWhere(init, p);
      forall i | 0 <= i < |x| ensures x[i] in d && x[i].0 != e.0 {
        var j :| 0 <= j < |init| && init[j] == x[i];
        assert d[j] == x[i];
      }
    }
  }
}
