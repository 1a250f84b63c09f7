/** A log of which only the newest entries are kept, and what a reader has been told of it. */
module Delivery {
  import opened Options

  /** The ring holds the last `cap` entries of the log, or all of a shorter log. */
  ghost predicate IsRing<T>(ring: seq<T>, log: seq<T>, cap: nat) {
    |ring| == (if |log| <= cap then |log| else cap) && forall k | 0 <= k < |ring| :: ring[k] == log[|log| - |ring| + k]
  }

  lemma RingPush<T>(ring: seq<T>, log: seq<T>, cap: nat, x: T)
    requires IsRing(ring, log, cap)
    ensures |ring| + 1 > cap ==> IsRing((ring + [x])[1..], log + [x], cap)
    ensures |ring| + 1 <= cap ==> IsRing(ring + [x], log + [x], cap)
  {
    forall k | 0 <= k < |ring| + 1
      ensures (ring + [x])[k] == (log + [x])[|log| - |ring| + k]
    {
    }
  }

  /** Entries reported as dropped, then entries shown. */
  function Told<T>(dropped: nat, shown: seq<T>): (r: seq<Option<T>>)
    ensures |r| == dropped + |shown|
    ensures forall k | 0 <= k < |r| :: r[k] == if k < dropped then None else Some(shown[k - dropped])
  {
    seq(dropped + |shown|, k requires 0 <= k < dropped + |shown| => if k < dropped then None else Some(shown[k - dropped]))
  }

  /** Every entry up to the reader's position was reported once, in order: shown, or as dropped, and the
      latter only if it is `gone` from the ring. */
  ghost predicate Covers<T>(told: seq<Option<T>>, log: seq<T>, gone: int) {
    |told| <= |log| && forall k | 0 <= k < |told| :: told[k] == Some(log[k]) || (told[k] == None && k < gone)
  }

  lemma CoversMore<T>(told: seq<Option<T>>, log: seq<T>, gone: int, dropped: nat, shown: seq<T>)
    requires Covers(told, log, gone) && (dropped > 0 ==> |told| + dropped <= gone)
    requires |told| + dropped + |shown| <= |log|
    requires forall k | 0 <= k < |shown| :: shown[k] == log[|told| + dropped + k]
    ensures Covers(told + Told(dropped, shown), log, gone)
  {
    var r := told + Told(dropped, shown);
    forall k | 0 <= k < |r|
      ensures r[k] == Some(log[k]) || (r[k] == None && k < gone)
    {
      if k >= |told| + dropped {
        assert shown[k - |told| - dropped] == log[k];
      }
    }
  }

  lemma CoversLongerLog<T>(told: seq<Option<T>>, log: seq<T>, gone: int, more: seq<T>, later: int)
    requires Covers(told, log, gone) && gone <= later
    ensures Covers(told, log + more, later)
  {
  }
}
