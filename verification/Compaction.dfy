/** Purging old replay receipts, and what it leaves: every device's latest ones. */
module Compaction {
  import opened Records
  import opened TimeLedger
  import opened WorkSync

  /** A receipt that a later one of the same device outdates. */
  predicate Outdated(receipts: Receipts, k: (DeviceId, EventId)) {
    k in receipts && exists n :: n in receipts && Outdates(receipts, n, receipts[k], k.0)
  }

  predicate Outdates(receipts: Receipts, n: (DeviceId, EventId), r: Receipt, device: DeviceId)
    requires n in receipts
  {
    n.0 == device && receipts[n].observed > r.observed
  }

  /** `delete_state_events_before`: outdated receipts that were received before the cutoff go. */
  function Compact(receipts: Receipts, cutoff: int): Receipts {
    map k | k in receipts && !(receipts[k].received < cutoff && Outdated(receipts, k)) :: receipts[k]
  }

  lemma CountDeleted(receipts: Receipts, doomed: set<(DeviceId, EventId)>)
    requires doomed <= receipts.Keys
    ensures |receipts - doomed| == |receipts| - |doomed|
  {
    assert (receipts - doomed).Keys == receipts.Keys - doomed;
    assert |receipts.Keys| == |receipts| && |(receipts - doomed).Keys| == |receipts - doomed|;
  }

  /** Every receipt that is missing from `kept` is outdated by one that is not. */
  ghost predicate Covers(kept: Receipts, all: Receipts) {
    && (forall k :: k in kept ==> k in all && kept[k] == all[k])
    && (forall k :: k in all && k !in kept ==> exists n :: n in kept && Outdates(kept, n, all[k], k.0))
  }

  /** A device with receipts has a latest one. */
  lemma {:induction false} LatestExists(receipts: Receipts, device: DeviceId, k: (DeviceId, EventId))
      returns (top: (DeviceId, EventId))
    requires k in receipts && k.0 == device
    ensures top in receipts && top.0 == device && receipts[top].observed >= receipts[k].observed
    ensures !Outdated(receipts, top)
    decreases |set n | n in receipts && Outdates(receipts, n, receipts[k], device)|
  {
    top := k;
    if Outdated(receipts, k) {
      var n :| n in receipts && Outdates(receipts, n, receipts[k], device);
      var above := set m | m in receipts && Outdates(receipts, m, receipts[k], device);
      var above' := set m | m in receipts && Outdates(receipts, m, receipts[n], device);
      assert n in above && n !in above' && above' <= above;
      assert above' < above;
      SmallerSet(above', above);
      top := LatestExists(receipts, device, n);
    }
  }

  lemma SmallerSet<T>(a: set<T>, b: set<T>)
    requires a < b
    ensures |a| < |b|
  {
    assert b == a + (b - a);
    assert |b - a| > 0;
  }

  /** Compacting keeps the latest receipts of every device, so what it drops stays covered. */
  lemma CompactCovers(kept: Receipts, all: Receipts, cutoff: int)
    requires Covers(kept, all)
    ensures Covers(Compact(kept, cutoff), all)
  {
    var kept' := Compact(kept, cutoff);
    forall k | k in all && k !in kept'
      ensures exists n :: n in kept' && Outdates(kept', n, all[k], k.0)
    {
      var n: (DeviceId, EventId);
      if k in kept {
        n :| n in kept && Outdates(kept, n, kept[k], k.0);
      } else {
        n :| n in kept && Outdates(kept, n, all[k], k.0);
      }
      var top := LatestExists(kept, k.0, n);
      assert top in kept' && Outdates(kept', top, all[k], k.0);
    }
  }

  /** The latest receipts, one of which the next call picks as its predecessor, are the same. */
  lemma CoveredSameLatest(kept: Receipts, all: Receipts, device: DeviceId, prev: Option<Receipt>)
    requires Covers(kept, all)
    ensures IsPrevious(kept, device, prev) <==> IsPrevious(all, device, prev)
  {
    if IsPrevious(all, device, prev) && prev.Some? {
      var id: EventId :| (device, id) in all && all[(device, id)] == prev.value;
      assert (device, id) in kept;
    }
    if IsPrevious(kept, device, prev) {
      forall k | k in all && k.0 == device
        ensures prev.Some? && all[k].observed <= prev.value.observed
      {
        if k !in kept {
          var n :| n in kept && Outdates(kept, n, all[k], k.0);
        }
      }
    }
  }
}
