/** Python dictionaries as association lists.

    A `dict` remembers insertion order: assigning to a present key keeps its
    position, assigning to a new key appends it.  `Get` is `d.get(k)`;
    `Put` is `d[k] = v`.
 */
module Assoc {
  import opened Wrappers

  type Assoc<K, V> = seq<(K, V)>

  function Keys<K, V>(t: Assoc<K, V>): (r: seq<K>)
    ensures |r| == |t|
    ensures forall i :: 0 <= i < |t| ==> r[i] == t[i].0
  {
    seq(|t|, i requires 0 <= i < |t| => t[i].0)
  }

  function Values<K, V>(t: Assoc<K, V>): (r: seq<V>)
    ensures |r| == |t|
    ensures forall i :: 0 <= i < |t| ==> r[i] == t[i].1
  {
    seq(|t|, i requires 0 <= i < |t| => t[i].1)
  }

  /** No key appears twice, as in every Python dict. */
  predicate Distinct<K(==), V>(t: Assoc<K, V>) {
    forall i, j :: 0 <= i < j < |t| ==> t[i].0 != t[j].0
  }

  predicate HasKey<K(==), V>(t: Assoc<K, V>, k: K) {
    exists i :: 0 <= i < |t| && t[i].0 == k
  }

  /** `d.get(k)`. */
  function Get<K(==), V>(t: Assoc<K, V>, k: K): (r: Option<V>)
    ensures r.Some? <==> HasKey(t, k)
    ensures r.Some? ==> (k, r.value) in t
  {
    if t == [] then None
    else if t[0].0 == k then Some(t[0].1)
    else Get(t[1..], k)
  }

  /** In a dict every entry is what `get` returns for its key. */
  lemma {:induction false} GetEntry<K, V>(t: Assoc<K, V>, i: nat)
    requires Distinct(t) && i < |t|
    ensures Get(t, t[i].0) == Some(t[i].1)
  {
    if i > 0 {
      GetEntry(t[1..], i - 1);
    }
  }

  /** `d[k] = v`. */
  function Put<K(==), V>(t: Assoc<K, V>, k: K, v: V): (r: Assoc<K, V>)
    ensures |r| == if HasKey(t, k) then |t| else |t| + 1
  {
    if t == [] then [(k, v)]
    else if t[0].0 == k then [(k, v)] + t[1..]
    else [t[0]] + Put(t[1..], k, v)
  }

  /** After `d[k] = v`, `d.get(k)` is `v` and every other key reads as before. */
  lemma {:induction false} PutGet<K, V>(t: Assoc<K, V>, k: K, v: V, k': K)
    ensures Get(Put(t, k, v), k') == if k' == k then Some(v) else Get(t, k')
  {
    if t != [] && t[0].0 != k {
      PutGet(t[1..], k, v, k');
    }
  }

  /** Assigning a key twice is assigning it the second value. */
  lemma {:induction false} PutTwice<K, V>(t: Assoc<K, V>, k: K, v1: V, v2: V)
    ensures Put(Put(t, k, v1), k, v2) == Put(t, k, v2)
  {
    if t != [] && t[0].0 != k {
      PutTwice(t[1..], k, v1, v2);
    }
  }

  /** Assignment keeps the position of a present key and appends a new one. */
  lemma {:induction false} PutKeys<K, V>(t: Assoc<K, V>, k: K, v: V)
    ensures Keys(Put(t, k, v)) == if HasKey(t, k) then Keys(t) else Keys(t) + [k]
  {
    if t != [] && t[0].0 != k {
      PutKeys(t[1..], k, v);
      assert HasKey(t, k) <==> HasKey(t[1..], k);
    }
  }

  /** Assignment keeps the keys of a dict distinct. */
  lemma {:induction false} PutDistinct<K, V>(t: Assoc<K, V>, k: K, v: V)
    requires Distinct(t)
    ensures Distinct(Put(t, k, v))
  {
    PutKeys(t, k, v);
    var r := Put(t, k, v);
    assert Keys(r) == if HasKey(t, k) then Keys(t) else Keys(t) + [k];
    forall i, j | 0 <= i < j < |r|
      ensures r[i].0 != r[j].0
    {
      assert r[i].0 == Keys(r)[i] && r[j].0 == Keys(r)[j];
    }
  }

  /** `{**a, **b}`: the entries of `b` assigned in order over a copy of `a`. */
  function Overlay<K(==), V>(a: Assoc<K, V>, b: Assoc<K, V>): (r: Assoc<K, V>)
    decreases |b|
  {
    if b == [] then a
    else
      var last := b[|b| - 1];
      Put(Overlay(a, b[..|b| - 1]), last.0, last.1)
  }

  /** In the overlay a key of `b` reads as in `b`, any other key as in `a`. */
  lemma {:induction false} OverlayGet<K, V>(a: Assoc<K, V>, b: Assoc<K, V>, k: K)
    requires Distinct(b)
    ensures Get(Overlay(a, b), k) == if HasKey(b, k) then Get(b, k) else Get(a, k)
    decreases |b|
  {
    if b != [] {
      var init := b[..|b| - 1];
      var last := b[|b| - 1];
      assert Distinct(init);
      OverlayGet(a, init, k);
      PutGet(Overlay(a, init), last.0, last.1, k);
      assert HasKey(b, k) <==> HasKey(init, k) || last.0 == k;
      if last.0 == k {
        GetEntry(b, |b| - 1);
      } else if HasKey(init, k) {
        var i :| 0 <= i < |init| && init[i].0 == k;
        GetEntry(init, i);
        GetEntry(b, i);
      }
    }
  }

  function Reverse<T>(s: seq<T>): (r: seq<T>)
    ensures |r| == |s|
    ensures forall i :: 0 <= i < |s| ==> r[i] == s[|s| - 1 - i]
  {
    seq(|s|, i requires 0 <= i < |s| => s[|s| - 1 - i])
  }
}
