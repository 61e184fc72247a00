/** Time clipped to the parts of a partition adds up to the time clipped to the whole. */
module Intervals {
  import opened Records

  /** Length of the part of [start, end) that lies in [lo, hi). */
  function Clip(start: int, end: int, lo: int, hi: int): int {
    Max(0, Min(end, hi) - Max(start, lo))
  }

  predicate Increasing(bounds: seq<int>) {
    forall i, j :: 0 <= i < j < |bounds| ==> bounds[i] <= bounds[j]
  }

  /** The clipped lengths over the successive parts that a list of bounds delimits. */
  function ClippedOver(bounds: seq<int>, start: int, end: int): int
  {
    if |bounds| < 2 then 0
    else ClippedOver(bounds[..|bounds| - 1], start, end) + Clip(start, end, bounds[|bounds| - 2], bounds[|bounds| - 1])
  }

  lemma {:induction false} PartsAddUp(bounds: seq<int>, start: int, end: int)
    requires |bounds| >= 1 && Increasing(bounds) && start <= end
    ensures ClippedOver(bounds, start, end) == Clip(start, end, bounds[0], bounds[|bounds| - 1])
  {
    if |bounds| >= 2 {
      PartsAddUp(bounds[..|bounds| - 1], start, end);
      assert bounds[0] <= bounds[|bounds| - 2];
    }
  }

  predicate Within(t: int, lo: int, hi: int) { lo <= t < hi }

  /** The instants that lie in an interval and between two bounds. */
  function Instants(start: int, end: int, lo: int, hi: int): set<int> {
    set t | start <= t < end && Within(t, lo, hi)
  }

  lemma {:induction false} InstantsBetween(lo: int, hi: int)
    ensures |Instants(lo, hi, lo, hi)| == if lo < hi then hi - lo else 0
    decreases hi - lo
  {
    if lo < hi {
      InstantsBetween(lo, hi - 1);
      assert Instants(lo, hi, lo, hi) == Instants(lo, hi - 1, lo, hi - 1) + {hi - 1};
    } else {
      assert Instants(lo, hi, lo, hi) == {};
    }
  }

  /** The clipped length is their number. */
  lemma ClipCountsInstants(start: int, end: int, lo: int, hi: int)
    ensures Clip(start, end, lo, hi) == |Instants(start, end, lo, hi)|
  {
    var from, to := Max(start, lo), Min(end, hi);
    InstantsBetween(from, to);
    assert Instants(start, end, lo, hi) == Instants(from, to, from, to);
  }
}
