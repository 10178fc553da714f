/**
 * The five-day view of the forecast: the provider sends one entry every three hours,
 * and the page shows every eighth entry (one a day), at most five of them.
 */
module Forecast {
  import opened Sequences

  /** `list.filter((_, index) => index % 8 === 0)`, scanning from index `k` on. */
  function EveryEighthFrom<T>(list: seq<T>, k: nat): (r: seq<T>)
    requires k <= |list|
    ensures |r| <= |list| - k
    ensures k < |list| && k % 8 == 0 ==> r != [] && r[0] == list[k]
    decreases |list| - k
  {
    if k == |list| then []
    else (if k % 8 == 0 then [list[k]] else []) + EveryEighthFrom(list, k + 1)
  }

  /** `list.filter((_, index) => index % 8 === 0).slice(0, 5)`. */
  function DailySnapshot<T>(list: seq<T>): (r: seq<T>)
    ensures |r| <= 5 && |r| <= |list|
    ensures list != [] ==> r != [] && r[0] == list[0]
  {
    Take(EveryEighthFrom(list, 0), 5)
  }

  /** From an index that is not a multiple of eight, the filter first keeps the next multiple. */
  lemma {:induction false} SkipToNextMultiple<T>(list: seq<T>, k: nat)
    requires k <= |list| && k % 8 != 0
    ensures var next := k + 8 - k % 8;
      EveryEighthFrom(list, k) == EveryEighthFrom(list, if next <= |list| then next else |list|)
    decreases |list| - k
  {
    if k < |list| {
      assert EveryEighthFrom(list, k) == EveryEighthFrom(list, k + 1);
      NextRemainder(k);
      if (k + 1) % 8 != 0 {
        SkipToNextMultiple(list, k + 1);
      }
    }
  }

  /** Stepping an index by one steps its remainder by one, wrapping from 7 to 0. */
  lemma NextRemainder(k: nat)
    ensures (k + 1) % 8 == if k % 8 == 7 then 0 else k % 8 + 1
  {
    var q := k / 8;
    assert k == 8 * q + k % 8;
    if k % 8 == 7 {
      assert k + 1 == 8 * (q + 1);
    } else {
      assert k + 1 == 8 * q + (k % 8 + 1);
    }
  }

  /** From a multiple of eight, the filter keeps that entry and then goes on from the next multiple. */
  lemma EveryEighthStep<T>(list: seq<T>, k: nat)
    requires k < |list| && k % 8 == 0
    ensures EveryEighthFrom(list, k) ==
      [list[k]] + if k + 8 <= |list| then EveryEighthFrom(list, k + 8) else []
  {
    assert EveryEighthFrom(list, k) == [list[k]] + EveryEighthFrom(list, k + 1);
    NextRemainder(k);
    SkipToNextMultiple(list, k + 1);
    if k + 8 > |list| {
      assert EveryEighthFrom(list, |list|) == [];
    }
  }

  /** From a multiple of eight, the filter keeps exactly the entries at that index plus multiples of eight. */
  lemma {:induction false} EveryEighthFromMultiple<T>(list: seq<T>, k: nat)
    requires k <= |list| && k % 8 == 0
    ensures var r := EveryEighthFrom(list, k);
      |r| == (|list| - k + 7) / 8
      && forall i :: 0 <= i < |r| ==> k + 8 * i < |list| && r[i] == list[k + 8 * i]
    decreases |list| - k
  {
    if k < |list| {
      var r := EveryEighthFrom(list, k);
      EveryEighthStep(list, k);
      CeilEighths(|list| - k);
      if k + 8 <= |list| {
        var rest := EveryEighthFrom(list, k + 8);
        NextMultiple(k);
        EveryEighthFromMultiple(list, k + 8);
        assert |r| == 1 + |rest|;
        assert |list| - (k + 8) + 7 == (|list| - k) - 8 + 7;
        EveryEighthElements(list, k, rest);
      }
    }
  }

  /** Entry k in front of the entries at k + 8 + 8·i gives the entries at k + 8·i. */
  lemma EveryEighthElements<T>(list: seq<T>, k: nat, rest: seq<T>)
    requires k < |list|
    requires forall i :: 0 <= i < |rest| ==> k + 8 + 8 * i < |list| && rest[i] == list[k + 8 + 8 * i]
    ensures var r := [list[k]] + rest;
      forall i :: 0 <= i < |r| ==> k + 8 * i < |list| && r[i] == list[k + 8 * i]
  {
    var r := [list[k]] + rest;
    forall i | 0 <= i < |r| ensures k + 8 * i < |list| && r[i] == list[k + 8 * i] {
      if i > 0 {
        assert r[i] == rest[i - 1];
        assert k + 8 * i == k + 8 + 8 * (i - 1);
      }
    }
  }

  /** How many multiples of eight lie below `n`, one step at a time. */
  lemma CeilEighths(n: nat)
    ensures 8 <= n ==> (n + 7) / 8 == 1 + (n - 8 + 7) / 8
    ensures 1 <= n < 8 ==> (n + 7) / 8 == 1
  {
  }

  /** The next multiple of eight after a multiple of eight. */
  lemma NextMultiple(k: nat)
    requires k % 8 == 0
    ensures (k + 8) % 8 == 0
  {
    assert k == 8 * (k / 8);
    assert k + 8 == 8 * (k / 8 + 1);
  }

  /** The five-day view holds min(5, ⌈n/8⌉) entries, the i-th being entry 8·i of the forecast. */
  lemma DailySnapshotShape<T>(list: seq<T>)
    ensures var r := DailySnapshot(list);
      |r| == (if (|list| + 7) / 8 < 5 then (|list| + 7) / 8 else 5)
      && forall i :: 0 <= i < |r| ==> 8 * i < |list| && r[i] == list[8 * i]
  {
    EveryEighthFromMultiple(list, 0);
  }
}
