/** Numbered result slots.

    Executors store each `printf` output under the first free numbered key
    (`${0}`, `${1}`, … in the ina driver; `${1}`, … in the webauto worker;
    `stdout1`, … in the sequence worker), where a slot counts as taken only
    while it holds a non-empty string.  Report formatting reads the run of
    consecutive taken slots.  Both loops end because a table has finitely
    many keys and distinct numbers give distinct keys.
 */
module Slots {
  import opened Wrappers
  import opened Text
  import opened Assoc

  /** The results table of an executor: slot key to printed text. */
  type Table = Assoc<string, string>

  /** The key of slot `n`: `prefix + str(n) + suffix`. */
  function Slot(prefix: string, n: nat, suffix: string): string {
    prefix + NatToString(n) + suffix
  }

  /** Distinct numbers name distinct slots. */
  lemma SlotInjective(prefix: string, a: nat, b: nat, suffix: string)
    requires Slot(prefix, a, suffix) == Slot(prefix, b, suffix)
    ensures a == b
  {
    var ka := Slot(prefix, a, suffix);
    var kb := Slot(prefix, b, suffix);
    assert NatToString(a) == ka[|prefix|..|ka| - |suffix|];
    assert NatToString(b) == kb[|prefix|..|kb| - |suffix|];
    NatToStringInjective(a, b);
  }

  /** `results.get(key)` is truthy. */
  predicate Filled(t: Table, key: string) {
    Get(t, key).Some? && Get(t, key).value != ""
  }

  function KeySet(t: Table): set<string> {
    set i | 0 <= i < |t| :: t[i].0
  }

  lemma {:induction false} KeySetSize(t: Table)
    ensures |KeySet(t)| <= |t|
  {
    if t != [] {
      var init := t[..|t| - 1];
      KeySetSize(init);
      assert KeySet(t) == KeySet(init) + {t[|t| - 1].0} by {
        forall k | k in KeySet(t)
          ensures k in KeySet(init) + {t[|t| - 1].0}
        {
          var i :| 0 <= i < |t| && t[i].0 == k;
          if i < |t| - 1 { assert init[i] == t[i]; }
        }
        forall k | k in KeySet(init)
          ensures k in KeySet(t)
        {
          var i :| 0 <= i < |init| && init[i].0 == k;
          assert t[i] == init[i];
        }
      }
    }
  }

  function SlotSet(prefix: string, suffix: string, lo: nat, hi: nat): set<string> {
    set n: nat | lo <= n < hi :: Slot(prefix, n, suffix)
  }

  lemma {:induction false} SlotSetSize(prefix: string, suffix: string, lo: nat, hi: nat)
    requires lo <= hi
    ensures |SlotSet(prefix, suffix, lo, hi)| == hi - lo
    decreases hi - lo
  {
    if lo < hi {
      SlotSetSize(prefix, suffix, lo, hi - 1);
      var top := Slot(prefix, hi - 1, suffix);
      assert SlotSet(prefix, suffix, lo, hi) == SlotSet(prefix, suffix, lo, hi - 1) + {top};
      if top in SlotSet(prefix, suffix, lo, hi - 1) {
        var n: nat :| lo <= n < hi - 1 && Slot(prefix, n, suffix) == top;
        SlotInjective(prefix, n, hi - 1, suffix);
        assert false;
      }
    } else {
      assert SlotSet(prefix, suffix, lo, hi) == {};
    }
  }

  lemma SubsetSize(a: set<string>, b: set<string>)
    requires a <= b
    ensures |a| <= |b|
  {
    assert b == a + (b - a);
  }

  /** A run of taken slots is no longer than the table. */
  lemma FilledRunBounded(t: Table, prefix: string, suffix: string, lo: nat, hi: nat)
    requires lo <= hi
    requires forall n: nat :: lo <= n < hi ==> Filled(t, Slot(prefix, n, suffix))
    ensures hi - lo <= |t|
  {
    assert SlotSet(prefix, suffix, lo, hi) <= KeySet(t) by {
      forall k | k in SlotSet(prefix, suffix, lo, hi)
        ensures k in KeySet(t)
      {
        var n: nat :| lo <= n < hi && Slot(prefix, n, suffix) == k;
        assert Filled(t, k);
        var i :| 0 <= i < |t| && t[i] == (k, Get(t, k).value);
      }
    }
    SlotSetSize(prefix, suffix, lo, hi);
    SubsetSize(SlotSet(prefix, suffix, lo, hi), KeySet(t));
    KeySetSize(t);
  }

  /** The `while results.get(key): key = next(key)` loop, resumed at `m`
      after slots `lo .. m-1` were found taken. */
  function FirstFreeFrom(t: Table, prefix: string, suffix: string, lo: nat, m: nat): (r: nat)
    requires lo <= m
    requires forall n: nat :: lo <= n < m ==> Filled(t, Slot(prefix, n, suffix))
    ensures m <= r
    ensures !Filled(t, Slot(prefix, r, suffix))
    ensures forall n: nat :: lo <= n < r ==> Filled(t, Slot(prefix, n, suffix))
    decreases |t| - (m - lo)
  {
    if !Filled(t, Slot(prefix, m, suffix)) then m
    else
      FilledRunBounded(t, prefix, suffix, lo, m + 1);
      FirstFreeFrom(t, prefix, suffix, lo, m + 1)
  }

  /** The smallest slot number from `lo` whose slot is missing or empty. */
  function FirstFree(t: Table, prefix: string, suffix: string, lo: nat): (r: nat)
    ensures lo <= r
    ensures !Filled(t, Slot(prefix, r, suffix))
    ensures forall n: nat :: lo <= n < r ==> Filled(t, Slot(prefix, n, suffix))
  {
    FirstFreeFrom(t, prefix, suffix, lo, lo)
  }

  /** The first free slot is unique: any slot with the same two properties
      is it. */
  lemma FirstFreeUnique(t: Table, prefix: string, suffix: string, lo: nat, r: nat)
    requires lo <= r && !Filled(t, Slot(prefix, r, suffix))
    requires forall n: nat :: lo <= n < r ==> Filled(t, Slot(prefix, n, suffix))
    ensures FirstFree(t, prefix, suffix, lo) == r
  {
  }

  /** The texts of the taken slots `m, m+1, …` up to the first free one:
      the `while result: span.append(result)` loop. */
  function RunFrom(t: Table, prefix: string, suffix: string, lo: nat, m: nat): (r: seq<string>)
    requires lo <= m
    requires forall n: nat :: lo <= n < m ==> Filled(t, Slot(prefix, n, suffix))
    ensures forall i :: 0 <= i < |r| ==> Get(t, Slot(prefix, m + i, suffix)) == Some(r[i]) && r[i] != ""
    ensures !Filled(t, Slot(prefix, m + |r|, suffix))
    decreases |t| - (m - lo)
  {
    var v := Get(t, Slot(prefix, m, suffix));
    if v.None? || v.value == "" then []
    else
      FilledRunBounded(t, prefix, suffix, lo, m + 1);
      [v.value] + RunFrom(t, prefix, suffix, lo, m + 1)
  }

  /** The run from `lo` stops exactly at the first free slot. */
  lemma RunEndsAtFirstFree(t: Table, prefix: string, suffix: string, lo: nat)
    ensures lo + |RunFrom(t, prefix, suffix, lo, lo)| == FirstFree(t, prefix, suffix, lo)
  {
    var r := RunFrom(t, prefix, suffix, lo, lo);
    forall n: nat | lo <= n < lo + |r|
      ensures Filled(t, Slot(prefix, n, suffix))
    {
      assert Get(t, Slot(prefix, lo + (n - lo), suffix)) == Some(r[n - lo]);
    }
    FirstFreeUnique(t, prefix, suffix, lo, lo + |r|);
  }
  /** `vs` are the texts of the taken slots `lo, lo+1, …`, and the slot
      right after them is free. */
  predicate IsRun(t: Table, prefix: string, suffix: string, lo: nat, vs: seq<string>) {
    (forall i :: 0 <= i < |vs| ==> Get(t, Slot(prefix, lo + i, suffix)) == Some(vs[i]) && vs[i] != "") &&
    !Filled(t, Slot(prefix, lo + |vs|, suffix))
  }

  /** The run is the only sequence of texts with that description. */
  lemma {:induction false} RunFromUnique(t: Table, prefix: string, suffix: string, lo: nat, m: nat, vs: seq<string>)
    requires lo <= m
    requires forall n: nat :: lo <= n < m ==> Filled(t, Slot(prefix, n, suffix))
    requires IsRun(t, prefix, suffix, m, vs)
    ensures RunFrom(t, prefix, suffix, lo, m) == vs
    decreases |vs|
  {
    if vs != [] {
      assert Get(t, Slot(prefix, m + 0, suffix)) == Some(vs[0]);
      forall i | 0 <= i < |vs[1..]|
        ensures Get(t, Slot(prefix, m + 1 + i, suffix)) == Some(vs[1..][i]) && vs[1..][i] != ""
      {
        assert Get(t, Slot(prefix, m + (i + 1), suffix)) == Some(vs[i + 1]);
      }
      assert m + 1 + |vs[1..]| == m + |vs|;
      RunFromUnique(t, prefix, suffix, lo, m + 1, vs[1..]);
      assert vs == [vs[0]] + vs[1..];
    } else {
      assert Slot(prefix, m + |vs|, suffix) == Slot(prefix, m, suffix);
    }
  }
}
