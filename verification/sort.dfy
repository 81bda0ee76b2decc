/** Python's `list.sort(key=...)` on the keys the job builders sort by:
    numbers (booleans count as 0 and 1) and strings, each compared the
    Python way.  The sort is stable: items with equal keys keep their order.

    Items travel with their keys as pairs, so one insertion sort serves
    every key function.
 */
module Sorting {
  import opened Assoc

  /** A sort key: a number, or a string compared by code points. */
  datatype SortKey = NumKey(n: int) | StrKey(s: string)

  /** `a < b` on strings: lexicographic by code point, a proper prefix first. */
  predicate LexLess(a: string, b: string)
    decreases |a|
  {
    if a == [] then b != []
    else if b == [] then false
    else if a[0] != b[0] then a[0] < b[0]
    else LexLess(a[1..], b[1..])
  }

  lemma {:induction false} LexLessIrreflexive(a: string)
    ensures !LexLess(a, a)
    decreases |a|
  {
    if a != [] {
      LexLessIrreflexive(a[1..]);
    }
  }

  lemma {:induction false} LexLessTransitive(a: string, b: string, c: string)
    requires LexLess(a, b) && LexLess(b, c)
    ensures LexLess(a, c)
    decreases |a|
  {
    if a != [] && b != [] && c != [] && a[0] == b[0] && b[0] == c[0] {
      LexLessTransitive(a[1..], b[1..], c[1..]);
    }
  }

  /** Any two strings are equal or ordered one way. */
  lemma {:induction false} LexLessTotal(a: string, b: string)
    ensures a == b || LexLess(a, b) || LexLess(b, a)
    decreases |a|
  {
    if a != [] && b != [] && a[0] == b[0] {
      LexLessTotal(a[1..], b[1..]);
      if a[1..] == b[1..] {
        assert a == [a[0]] + a[1..] && b == [b[0]] + b[1..];
      }
    }
  }

  /** The order of keys; keys of different kinds never meet in a sort that
      succeeds, and are ordered numbers first only to make the order total. */
  predicate Less(a: SortKey, b: SortKey) {
    match a
    case NumKey(x) => (match b case NumKey(y) => x < y case StrKey(_) => true)
    case StrKey(x) => (match b case NumKey(_) => false case StrKey(y) => LexLess(x, y))
  }

  lemma LessIrreflexive(a: SortKey)
    ensures !Less(a, a)
  {
    if a.StrKey? { LexLessIrreflexive(a.s); }
  }

  lemma LessTransitive(a: SortKey, b: SortKey, c: SortKey)
    requires Less(a, b) && Less(b, c)
    ensures Less(a, c)
  {
    if a.StrKey? && b.StrKey? && c.StrKey? { LexLessTransitive(a.s, b.s, c.s); }
  }

  lemma LessTotal(a: SortKey, b: SortKey)
    ensures a == b || Less(a, b) || Less(b, a)
  {
    if a.StrKey? && b.StrKey? { LexLessTotal(a.s, b.s); }
  }

  /** No item is followed by one with a smaller key. */
  predicate Sorted<T>(xs: seq<(SortKey, T)>) {
    forall i, j :: 0 <= i < j < |xs| ==> !Less(xs[j].0, xs[i].0)
  }

  /** `x` placed before the first item whose key is not smaller than its own. */
  function Insert<T>(x: (SortKey, T), ys: seq<(SortKey, T)>): (r: seq<(SortKey, T)>)
    ensures |r| == |ys| + 1
    decreases |ys|
  {
    if ys == [] || !Less(ys[0].0, x.0) then [x] + ys
    else [ys[0]] + Insert(x, ys[1..])
  }

  /** The stable sort by key. */
  function SortByKey<T>(xs: seq<(SortKey, T)>): (r: seq<(SortKey, T)>)
    ensures |r| == |xs|
    decreases |xs|
  {
    if xs == [] then [] else Insert(xs[0], SortByKey(xs[1..]))
  }

  /** The items with key `k`, in order. */
  function WithKey<T>(xs: seq<(SortKey, T)>, k: SortKey): (r: seq<(SortKey, T)>)
    ensures |r| <= |xs|
    decreases |xs|
  {
    if xs == [] then [] else (if xs[0].0 == k then [xs[0]] else []) + WithKey(xs[1..], k)
  }

  lemma LessAsymmetric(a: SortKey, b: SortKey)
    ensures Less(a, b) ==> !Less(b, a)
  {
    if Less(a, b) && Less(b, a) {
      LessTransitive(a, b, a);
      LessIrreflexive(a);
      assert false;
    }
  }

  /** Below a key that is not below `k`, everything below `k` is. */
  lemma LessBelow(a: SortKey, k: SortKey, b: SortKey)
    requires !Less(b, k)
    ensures Less(a, k) ==> Less(a, b)
  {
    LessTotal(b, k);
    if Less(a, k) && Less(k, b) {
      LessTransitive(a, k, b);
    }
  }

  /** In a sorted sequence whose first key is not smaller than `k`, no key is. */
  lemma NoneBelow<T>(ys: seq<(SortKey, T)>, k: SortKey, j: nat)
    requires Sorted(ys) && j < |ys| && !Less(ys[0].0, k)
    ensures !Less(ys[j].0, k)
  {
    if j > 0 {
      LessBelow(ys[j].0, k, ys[0].0);
    }
  }

  lemma {:induction false} InsertSorted<T>(x: (SortKey, T), ys: seq<(SortKey, T)>)
    requires Sorted(ys)
    ensures Sorted(Insert(x, ys))
    ensures forall i :: 0 <= i < |Insert(x, ys)| ==> Insert(x, ys)[i] == x || Insert(x, ys)[i] in ys
    decreases |ys|
  {
    var r := Insert(x, ys);
    if ys == [] || !Less(ys[0].0, x.0) {
      forall i, j | 0 <= i < j < |r|
        ensures !Less(r[j].0, r[i].0)
      {
        if i == 0 {
          NoneBelow(ys, x.0, j - 1);
        } else {
          assert r[i] == ys[i - 1] && r[j] == ys[j - 1];
        }
      }
    } else {
      InsertSorted(x, ys[1..]);
      var tail := Insert(x, ys[1..]);
      forall j | 0 <= j < |tail|
        ensures !Less(tail[j].0, ys[0].0)
      {
        if tail[j] == x {
          LessAsymmetric(ys[0].0, x.0);
        } else {
          var k :| 0 <= k < |ys[1..]| && ys[1..][k] == tail[j];
          assert ys[k + 1] == tail[j];
        }
      }
    }
  }

  /** The sort orders the items by key. */
  lemma {:induction false} SortedBySort<T>(xs: seq<(SortKey, T)>)
    ensures Sorted(SortByKey(xs))
    decreases |xs|
  {
    if xs != [] {
      SortedBySort(xs[1..]);
      InsertSorted(xs[0], SortByKey(xs[1..]));
    }
  }

  /** The sort keeps every item, as often as it occurs. */
  lemma {:induction false} SortPermutes<T>(xs: seq<(SortKey, T)>)
    ensures multiset(SortByKey(xs)) == multiset(xs)
    decreases |xs|
  {
    if xs != [] {
      SortPermutes(xs[1..]);
      InsertPermutes(xs[0], SortByKey(xs[1..]));
      assert xs == [xs[0]] + xs[1..];
    }
  }

  lemma {:induction false} InsertPermutes<T>(x: (SortKey, T), ys: seq<(SortKey, T)>)
    ensures multiset(Insert(x, ys)) == multiset([x]) + multiset(ys)
    decreases |ys|
  {
    if ys != [] && Less(ys[0].0, x.0) {
      InsertPermutes(x, ys[1..]);
      assert ys == [ys[0]] + ys[1..];
    }
  }

  lemma {:induction false} WithKeyAppend<T>(a: seq<(SortKey, T)>, b: seq<(SortKey, T)>, k: SortKey)
    ensures WithKey(a + b, k) == WithKey(a, k) + WithKey(b, k)
    decreases |a|
  {
    if a != [] {
      var h := if a[0].0 == k then [a[0]] else [];
      assert (a + b)[0] == a[0] && (a + b)[1..] == a[1..] + b;
      assert WithKey(a + b, k) == h + WithKey(a[1..] + b, k);
      WithKeyAppend(a[1..], b, k);
      assert h + (WithKey(a[1..], k) + WithKey(b, k)) == (h + WithKey(a[1..], k)) + WithKey(b, k);
    } else {
      assert a + b == b;
    }
  }

  /** Inserting puts `x` ahead of every item with its key. */
  lemma {:induction false} InsertStable<T>(x: (SortKey, T), ys: seq<(SortKey, T)>, k: SortKey)
    ensures WithKey(Insert(x, ys), k) == (if x.0 == k then [x] else []) + WithKey(ys, k)
    decreases |ys|
  {
    if ys == [] || !Less(ys[0].0, x.0) {
      WithKeyAppend([x], ys, k);
    } else {
      InsertStable(x, ys[1..], k);
      WithKeyAppend([ys[0]], Insert(x, ys[1..]), k);
      WithKeyAppend([ys[0]], ys[1..], k);
      assert ys == [ys[0]] + ys[1..];
      if x.0 == k {
        LessIrreflexive(k);
        assert ys[0].0 != k;
      }
    }
  }

  /** The sort is stable: the items of any one key keep their order. */
  lemma {:induction false} SortStable<T>(xs: seq<(SortKey, T)>, k: SortKey)
    ensures WithKey(SortByKey(xs), k) == WithKey(xs, k)
    decreases |xs|
  {
    if xs != [] {
      SortStable(xs[1..], k);
      InsertStable(xs[0], SortByKey(xs[1..]), k);
    }
  }

  lemma {:induction false} InsertValues<T>(x: (SortKey, T), ys: seq<(SortKey, T)>)
    ensures multiset(Values(Insert(x, ys))) == multiset{x.1} + multiset(Values(ys))
    decreases |ys|
  {
    if ys == [] || !Less(ys[0].0, x.0) {
      assert Values([x] + ys) == [x.1] + Values(ys);
    } else {
      InsertValues(x, ys[1..]);
      assert Values([ys[0]] + Insert(x, ys[1..])) == [ys[0].1] + Values(Insert(x, ys[1..]));
      assert Values(ys) == [ys[0].1] + Values(ys[1..]);
    }
  }

  /** The sorted items are the given items, as often as they occur. */
  lemma {:induction false} SortValuesPermute<T>(xs: seq<(SortKey, T)>)
    ensures multiset(Values(SortByKey(xs))) == multiset(Values(xs))
    decreases |xs|
  {
    if xs != [] {
      SortValuesPermute(xs[1..]);
      InsertValues(xs[0], SortByKey(xs[1..]));
      assert Values(xs) == [xs[0].1] + Values(xs[1..]);
    }
  }
}
