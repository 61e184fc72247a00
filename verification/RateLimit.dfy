/** The shared request limiter: one stored bucket for each caller, which counts requests in fixed windows. Times are
    those of the statements, in microseconds. */
module RateLimit {
  import opened Records

  type BucketKey = string

  datatype Bucket = Bucket(window: int, count: nat, updated: int)

  /** How long the retention service lets an unused bucket stay. */
  const RETENTION := 7 * DAY

  function WindowOf(at: int, length: int): int
    requires length > 0
  {
    at / length
  }

  /** The row after a request: it goes on counting in its window and starts afresh in any other. */
  function Consume(bucket: Option<Bucket>, at: int, length: int): Bucket
    requires length > 0
  {
    if bucket.Some? && bucket.value.window == WindowOf(at, length)
    then Bucket(bucket.value.window, bucket.value.count + 1, at)
    else Bucket(WindowOf(at, length), 1, at)
  }

  /** Seconds to wait, rounded up, at least one. */
  function RetryAfter(at: int, seconds: int): int
    requires seconds > 0
  {
    var left := (WindowOf(at, seconds * SECOND) + 1) * (seconds * SECOND) - at;
    Max(1, (left + SECOND - 1) / SECOND)
  }

  /** The least number of whole seconds, but at least one, after which an instant is reached. */
  predicate IsWait(wait: int, now: int, end: int) {
    && wait >= 1 && now + wait * 1_000_000 >= end
    && (wait > 1 ==> now + (wait - 1) * 1_000_000 < end)
  }

  class RateLimiter {
    var buckets: map<BucketKey, Bucket>

    /** `consume_request_limit`. */
    method ConsumeRequestLimit(key: BucketKey, limit: int, seconds: int, now: int)
        returns (allowed: bool, retryAfter: int)
      requires seconds > 0
      modifies this
      ensures var b := Consume(if key in old(buckets) then Some(old(buckets)[key]) else None, now, seconds * SECOND);
              buckets == old(buckets)[key := b] && (allowed <==> b.count <= limit)
      ensures retryAfter == RetryAfter(now, seconds)
      ensures key in buckets && buckets - {key} == old(buckets) - {key} && buckets[key].updated == now
      ensures buckets[key].window * (seconds * 1_000_000) <= now < (buckets[key].window + 1) * (seconds * 1_000_000)
      ensures buckets[key].count ==
        if key in old(buckets) && old(buckets)[key].window == buckets[key].window then old(buckets)[key].count + 1
            else 1
      ensures allowed <==> buckets[key].count <= limit
      ensures IsWait(retryAfter, now, (buckets[key].window + 1) * (seconds * 1_000_000))
    {
      var window := WindowOf(now, seconds * SECOND);
      var count := 1;
      if key in buckets && buckets[key].window == window {
        count := buckets[key].count + 1;
      }
      buckets := buckets[key := Bucket(window, count, now)];
      allowed := count <= limit;
      retryAfter := RetryAfter(now, seconds);
    }

    /** `purge_request_limits_before`. */
    method PurgeBefore(cutoff: int)
      modifies this
      ensures forall key :: key in buckets <==> key in old(buckets) && old(buckets)[key].updated >= cutoff
      ensures forall key :: key in buckets ==> buckets[key] == old(buckets)[key]
    {
      buckets := map key | key in buckets && buckets[key].updated >= cutoff :: buckets[key];
    }
  }

  // ----- Windows -----

  lemma WindowBounds(at: int, length: int)
    requires length > 0
    ensures WindowOf(at, length) * length <= at < (WindowOf(at, length) + 1) * length
  {}

  lemma {:induction false} MultipliesGrow(a: int, b: int, length: int)
    requires length > 0 && a <= b
    ensures a * length <= b * length
  {}

  /** Later moments have later windows, and a whole window's length later the window is another. */
  lemma WindowsGrow(at: int, later: int, length: int)
    requires length > 0 && at <= later
    ensures WindowOf(at, length) <= WindowOf(later, length)
    ensures at + length <= later ==> WindowOf(at, length) < WindowOf(later, length)
    ensures later <= at + length ==> WindowOf(later, length) <= WindowOf(at, length) + 1
  {
    var a, b := WindowOf(at, length), WindowOf(later, length);
    WindowBounds(at, length);
    WindowBounds(later, length);
    if b < a {
      MultipliesGrow(b + 1, a, length);
    }
    if b <= a {
      MultipliesGrow(b, a, length);
      assert (b + 1) * length == b * length + length;
    }
    if b > a + 1 {
      MultipliesGrow(a + 2, b, length);
      assert (a + 2) * length == (a + 1) * length + length;
    }
  }

  /** Waiting as long as told reaches a later window, and no whole second less would do. */
  lemma RetryReachesTheNextWindow(at: int, seconds: int)
    requires seconds > 0
    ensures var retry := RetryAfter(at, seconds);
            && WindowOf(at + retry * SECOND, seconds * SECOND) > WindowOf(at, seconds * SECOND)
            && (retry > 1 ==> WindowOf(at + (retry - 1) * SECOND, seconds * SECOND) == WindowOf(at, seconds * SECOND))
  {
    var length := seconds * SECOND;
    var window, retry := WindowOf(at, length), RetryAfter(at, seconds);
    var next := (window + 1) * length;
    WindowBounds(at, length);
    assert at + retry * SECOND >= next;
    StartsWindow(window + 1, length);
    WindowsGrow(next, at + retry * SECOND, length);
    if retry > 1 {
      var before := at + (retry - 1) * SECOND;
      assert before < next;
      WindowsGrow(at, before, length);
      WindowBounds(before, length);
      if WindowOf(before, length) > window {
        MultipliesGrow(window + 1, WindowOf(before, length), length);
      }
    }
  }

  lemma StartsWindow(window: int, length: int)
    requires length > 0
    ensures WindowOf(window * length, length) == window
  {
    var w := WindowOf(window * length, length);
    WindowBounds(window * length, length);
    assert (window + 1) * length == window * length + length;
    if w < window {
      MultipliesGrow(w + 1, window, length);
    } else if w > window {
      MultipliesGrow(window + 1, w, length);
    }
  }

  // ----- Runs of one bucket -----

  /** The retention service removes the row if it is too old. */
  datatype Event = Request(at: int) | Purge(at: int)

  function After(events: seq<Event>, length: int): Option<Bucket>
    requires length > 0
  {
    if events == [] then None
    else
      var before, last := After(events[..|events| - 1], length), events[|events| - 1];
      match last
      case Request(at) => Some(Consume(before, at, length))
      case Purge(at) => if before.Some? && before.value.updated < at - RETENTION then None else before
  }

  /** A bucket that no request has used for a week is forgotten by a purge, and no other. */
  lemma UnusedForAWeek(events: seq<Event>, at: int, length: int)
    requires length > 0
    ensures var before := After(events, length);
      After(events + [Purge(at)], length) ==
        if before.Some? && before.value.updated + 604_800_000_000 < at then None else before
  {
    assert (events + [Purge(at)])[..|events|] == events;
  }

  /** A window is as long as it is said to be, and windows follow each other without a gap. */
  lemma WindowsAreAligned(at: int, length: int, window: int)
    requires length > 0
    ensures InWindow(Request(at), length, window) <==> window * length <= at < (window + 1) * length
  {
    WindowBounds(at, length);
    if window * length <= at < (window + 1) * length {
      if window < WindowOf(at, length) {
        MultipliesGrow(window + 1, WindowOf(at, length), length);
      } else if window > WindowOf(at, length) {
        MultipliesGrow(WindowOf(at, length) + 1, window, length);
      }
    }
  }

  predicate InWindow(e: Event, length: int, window: int)
    requires length > 0
  {
    e.Request? && WindowOf(e.at, length) == window
  }

  /** The last event is a request that is let through. */
  predicate LastAdmitted(events: seq<Event>, length: int, limit: nat)
    requires length > 0 && events != []
  {
    events[|events| - 1].Request? && After(events, length).value.count <= limit
  }

  function Requests(events: seq<Event>, length: int, window: int): nat
    requires length > 0
  {
    if events == [] then 0
    else
      Requests(events[..|events| - 1], length, window)
      + if InWindow(events[|events| - 1], length, window) then 1 else 0
  }

  function Admitted(events: seq<Event>, length: int, limit: nat, window: int): nat
    requires length > 0
  {
    if events == [] then 0
    else
      var passes := InWindow(events[|events| - 1], length, window) && LastAdmitted(events, length, limit);
      Admitted(events[..|events| - 1], length, limit, window) + if passes then 1 else 0
  }

  predicate InOrder(events: seq<Event>) {
    forall i, j :: 0 <= i < j < |events| ==> events[i].at <= events[j].at
  }

  /** What the row says about the requests so far. */
  ghost predicate Counts(events: seq<Event>, length: int)
    requires length > 0 && events != []
  {
    var now, bucket := events[|events| - 1].at, After(events, length);
    && (bucket.Some? ==>
          && bucket.value.updated <= now
          && bucket.value.window == WindowOf(bucket.value.updated, length)
          && bucket.value.count == Requests(events, length, bucket.value.window))
    && (forall window :: WindowOf(now, length) <= window && (bucket.None? || bucket.value.window != window) ==>
          Requests(events, length, window) == 0)
  }

  lemma {:induction false} BucketCounts(events: seq<Event>, length: int)
    requires 0 < length <= RETENTION && InOrder(events) && events != []
    ensures Counts(events, length)
  {
    var front, last := events[..|events| - 1], events[|events| - 1];
    if front != [] {
      BucketCounts(front, length);
      var bucket := After(front, length);
      assert front[|front| - 1] == events[|events| - 2];
      WindowsGrow(front[|front| - 1].at, last.at, length);
      if bucket.Some? {
        WindowsGrow(bucket.value.updated, last.at, length);
      }
    }
  }

  /** When statements come in the order of their times, exactly the first `limit` requests of each window are let
      through. */
  lemma {:induction false} FirstOnesPass(events: seq<Event>, length: int, limit: nat, window: int)
    requires 0 < length <= RETENTION && InOrder(events)
    ensures Admitted(events, length, limit, window) == Min(Requests(events, length, window), limit)
  {
    if events != [] {
      FirstOnesPass(events[..|events| - 1], length, limit, window);
      BucketCounts(events, length);
    }
  }

  /** The requests let through between two moments. */
  function AdmittedBetween(events: seq<Event>, length: int, limit: nat, from: int, to: int): nat
    requires length > 0
  {
    if events == [] then 0
    else
      var passes := LastAdmitted(events, length, limit) && from <= events[|events| - 1].at <= to;
      AdmittedBetween(events[..|events| - 1], length, limit, from, to) + if passes then 1 else 0
  }

  lemma {:induction false} TwoWindowsCover(events: seq<Event>, length: int, limit: nat, from: int, to: int)
    requires length > 0 && from <= to <= from + length
    ensures AdmittedBetween(events, length, limit, from, to)
         <= Admitted(events, length, limit, WindowOf(from, length))
             + Admitted(events, length, limit, WindowOf(from, length) + 1)
  {
    if events != [] {
      TwoWindowsCover(events[..|events| - 1], length, limit, from, to);
      var at := events[|events| - 1].at;
      if from <= at <= to {
        WindowsGrow(from, at, length);
      }
    }
  }

  /** In no stretch of time as long as a window, wherever it starts, do more than twice the limit pass. */
  lemma AtMostTwiceTheLimit(events: seq<Event>, length: int, limit: nat, from: int, to: int)
    requires 0 < length <= RETENTION && InOrder(events) && from <= to <= from + length
    ensures AdmittedBetween(events, length, limit, from, to) <= 2 * limit
  {
    TwoWindowsCover(events, length, limit, from, to);
    FirstOnesPass(events, length, limit, WindowOf(from, length));
    FirstOnesPass(events, length, limit, WindowOf(from, length) + 1);
  }

  // ----- Statements in any order -----

  /** When the row was last written. */
  function LastRequest(events: seq<Event>): Option<int> {
    if events == [] then None
    else if events[|events| - 1].Request? then Some(events[|events| - 1].at)
    else LastRequest(events[..|events| - 1])
  }

  /** What makes the row forget a window: a request of another window, or a purge that finds the row too old. */
  predicate Interrupts(before: seq<Event>, e: Event, length: int, window: int)
    requires length > 0
  {
    match e
    case Request(at) => WindowOf(at, length) != window
    case Purge(at) => LastRequest(before).Some? && LastRequest(before).value < at - RETENTION
  }

  /** The lengths of the streaks of a window: its requests, cut wherever something interrupts them. The last streak
      may still grow. */
  function Streaks(events: seq<Event>, length: int, window: int): (streaks: seq<nat>)
    requires length > 0
    ensures streaks != []
  {
    if events == [] then [0]
    else
      var front, last := events[..|events| - 1], events[|events| - 1];
      var so := Streaks(front, length, window);
      if InWindow(last, length, window) then so[|so| - 1 := so[|so| - 1] + 1]
      else if Interrupts(front, last, length, window) then so + [0]
      else so
  }

  /** What passes if each streak has the limit to itself. */
  function Passing(streaks: seq<nat>, limit: nat): nat {
    if streaks == [] then 0 else Passing(streaks[..|streaks| - 1], limit) + Min(streaks[|streaks| - 1], limit)
  }

  lemma {:induction false} RowKnowsTheStreak(events: seq<Event>, length: int, window: int)
    requires length > 0
    ensures var bucket, streaks := After(events, length), Streaks(events, length, window);
            && (bucket.Some? ==> LastRequest(events) == Some(bucket.value.updated))
            && streaks[|streaks| - 1] == if bucket.Some? && bucket.value.window == window then bucket.value.count else 0
  {
    if events != [] {
      RowKnowsTheStreak(events[..|events| - 1], length, window);
    }
  }

  lemma LastStreakGrows(streaks: seq<nat>, limit: nat)
    requires streaks != []
    ensures var last := streaks[|streaks| - 1];
            Passing(streaks[|streaks| - 1 := last + 1], limit)
            == Passing(streaks, limit) + if last < limit then 1 else 0
  {
    var n := |streaks| - 1;
    assert streaks[n := streaks[n] + 1][..n] == streaks[..n];
  }

  /** In whatever order statements are applied, and whatever is purged, a window lets through the first requests up to
      the limit of each of its streaks. */
  lemma {:induction false} EachStreakHasItsLimit(events: seq<Event>, length: int, limit: nat, window: int)
    requires length > 0
    ensures Admitted(events, length, limit, window) == Passing(Streaks(events, length, window), limit)
  {
    if events == [] {
      assert [0][..0] == [];
    } else {
      var front, last := events[..|events| - 1], events[|events| - 1];
      EachStreakHasItsLimit(front, length, limit, window);
      RowKnowsTheStreak(front, length, window);
      var streaks := Streaks(front, length, window);
      if InWindow(last, length, window) {
        LastStreakGrows(streaks, limit);
      } else if Interrupts(front, last, length, window) {
        assert (streaks + [0])[..|streaks|] == streaks;
      }
    }
  }

  /** Nothing interrupts the window between two of its requests. */
  ghost predicate Uninterrupted(events: seq<Event>, length: int, window: int)
    requires length > 0
  {
    forall i, j, k ::
      0 <= i < j < k < |events| && InWindow(events[i], length, window) && InWindow(events[k], length, window) ==>
      !Interrupts(events[..j], events[j], length, window)
  }

  /** All requests are in one streak. */
  ghost predicate OneStreak(streaks: seq<nat>) {
    forall a, b :: 0 <= a < b < |streaks| ==> streaks[a] == 0 || streaks[b] == 0
  }

  /** The window had requests, and something has interrupted it since. */
  ghost predicate Broken(events: seq<Event>, length: int, window: int)
    requires length > 0
  {
    exists i, j :: 0 <= i < j < |events| && InWindow(events[i], length, window) &&
        Interrupts(events[..j], events[j], length, window)
  }

  /** A streak other than the last is not empty. */
  ghost predicate HasEarlierStreak(streaks: seq<nat>) {
    exists a :: 0 <= a < |streaks| - 1 && streaks[a] > 0
  }

  lemma {:induction false} NoRequestsNoStreaks(events: seq<Event>, length: int, window: int)
    requires length > 0
    ensures (exists i :: 0 <= i < |events| && InWindow(events[i], length, window))
       <==> (exists a :: 0 <= a < |Streaks(events, length, window)| && Streaks(events, length, window)[a] > 0)
  {
    if events != [] {
      var front, last := events[..|events| - 1], events[|events| - 1];
      NoRequestsNoStreaks(front, length, window);
      var before, streaks := Streaks(front, length, window), Streaks(events, length, window);
      if InWindow(last, length, window) {
        assert InWindow(events[|events| - 1], length, window) && streaks[|streaks| - 1] > 0;
      } else {
        if i :| 0 <= i < |events| && InWindow(events[i], length, window) {
          assert InWindow(front[i], length, window);
          var a :| 0 <= a < |before| && before[a] > 0;
          assert streaks[a] > 0;
        }
        if a :| 0 <= a < |streaks| && streaks[a] > 0 {
          assert before[a] > 0;
          var i :| 0 <= i < |front| && InWindow(front[i], length, window);
          assert InWindow(events[i], length, window);
        }
      }
    }
  }

  lemma BrokenGrows(events: seq<Event>, length: int, window: int)
    requires length > 0 && events != []
    ensures var front, last := events[..|events| - 1], events[|events| - 1];
            Broken(events, length, window) <==>
              || Broken(front, length, window)
              || (Interrupts(front, last, length, window)
                  && exists i :: 0 <= i < |front| && InWindow(front[i], length, window))
  {
    var n := |events| - 1;
    var front := events[..n];
    forall j | 0 <= j < n
      ensures events[..j] == front[..j]
    {}
    if Broken(front, length, window) {
      var i, j :| 0 <= i < j < |front| && InWindow(front[i], length, window) &&
          Interrupts(front[..j], front[j], length, window);
      assert InWindow(events[i], length, window) && Interrupts(events[..j], events[j], length, window);
    }
    if Interrupts(front, events[n], length, window) {
      if i :| 0 <= i < |front| && InWindow(front[i], length, window) {
        assert InWindow(events[i], length, window) && Interrupts(events[..n], events[n], length, window);
      }
    }
    if Broken(events, length, window) {
      var i, j :| 0 <= i < j < |events| && InWindow(events[i], length, window) &&
          Interrupts(events[..j], events[j], length, window);
      assert InWindow(front[i], length, window);
      if j < n {
        assert Interrupts(front[..j], front[j], length, window);
      }
    }
  }

  lemma {:induction false} BrokenMeansEarlierStreak(events: seq<Event>, length: int, window: int)
    requires length > 0
    ensures Broken(events, length, window) <==> HasEarlierStreak(Streaks(events, length, window))
  {
    if events != [] {
      var front, last := events[..|events| - 1], events[|events| - 1];
      BrokenMeansEarlierStreak(front, length, window);
      BrokenGrows(events, length, window);
      NoRequestsNoStreaks(front, length, window);
      var before, streaks := Streaks(front, length, window), Streaks(events, length, window);
      if HasEarlierStreak(before) {
        var a :| 0 <= a < |before| - 1 && before[a] > 0;
        assert streaks[a] > 0;
      }
      if a :| 0 <= a < |streaks| - 1 && streaks[a] > 0 {
        assert before[a] > 0;
      }
      if !InWindow(last, length, window) && Interrupts(front, last, length, window) {
        if a :| 0 <= a < |before| && before[a] > 0 {
          assert streaks[a] > 0;
        }
      }
    }
  }

  lemma {:induction false} UninterruptedIsOneStreak(events: seq<Event>, length: int, window: int)
    requires length > 0
    ensures Uninterrupted(events, length, window) <==> OneStreak(Streaks(events, length, window))
  {
    if events != [] {
      var n := |events| - 1;
      var front, last := events[..n], events[n];
      var before, streaks := Streaks(front, length, window), Streaks(events, length, window);
      UninterruptedIsOneStreak(front, length, window);
      UninterruptedGrows(events, length, window);
      BrokenMeansEarlierStreak(front, length, window);
      OneStreakGrows(before);
    }
  }

  lemma UninterruptedGrows(events: seq<Event>, length: int, window: int)
    requires length > 0 && events != []
    ensures var front, last := events[..|events| - 1], events[|events| - 1];
            Uninterrupted(events, length, window) <==>
              Uninterrupted(front, length, window)
              && (InWindow(last, length, window) ==> !Broken(front, length, window))
  {
    var n := |events| - 1;
    var front := events[..n];
    forall j | 0 <= j < n
      ensures events[..j] == front[..j]
    {}
    if Uninterrupted(events, length, window) {
      assert Uninterrupted(front, length, window);
    }
    if Uninterrupted(front, length, window) &&
        (InWindow(events[n], length, window) ==> !Broken(front, length, window)) {
      forall i, j, k | 0 <= i < j < k < |events| && InWindow(events[i], length, window) &&
          InWindow(events[k], length, window)
        ensures !Interrupts(events[..j], events[j], length, window)
      {
        assert InWindow(front[i], length, window);
        if k < n {
          assert InWindow(front[k], length, window);
        }
        assert Interrupts(front[..j], front[j], length, window) == Interrupts(events[..j], events[j], length, window);
      }
    }
  }

  lemma OneStreakGrows(streaks: seq<nat>)
    requires streaks != []
    ensures OneStreak(streaks + [0]) <==> OneStreak(streaks)
    ensures OneStreak(streaks[|streaks| - 1 := streaks[|streaks| - 1] + 1])
      <==> OneStreak(streaks) && !HasEarlierStreak(streaks)
  {
    var n := |streaks| - 1;
    var grown, longer := streaks[n := streaks[n] + 1], streaks + [0];
    if OneStreak(longer) {
      forall a, b | 0 <= a < b < |streaks|
        ensures streaks[a] == 0 || streaks[b] == 0
      {
        assert longer[a] == 0 || longer[b] == 0;
      }
    }
    if OneStreak(grown) {
      assert grown[n] > 0;
      assert forall a :: 0 <= a < n ==> grown[a] == 0;
      assert forall a :: 0 <= a < n ==> streaks[a] == grown[a];
    }
  }

  lemma {:induction false} EmptyStreaksPassNothing(streaks: seq<nat>, limit: nat)
    requires forall a :: 0 <= a < |streaks| ==> streaks[a] == 0
    ensures Passing(streaks, limit) == 0
  {
    if streaks != [] {
      EmptyStreaksPassNothing(streaks[..|streaks| - 1], limit);
    }
  }

  lemma {:induction false} OneStreakPassesTheLimit(streaks: seq<nat>, limit: nat)
    requires OneStreak(streaks)
    ensures Passing(streaks, limit) <= limit
  {
    if streaks != [] {
      var n := |streaks| - 1;
      if streaks[n] > 0 {
        EmptyStreaksPassNothing(streaks[..n], limit);
      } else {
        OneStreakPassesTheLimit(streaks[..n], limit);
      }
    }
  }

  lemma {:induction false} AStreakPassesOne(streaks: seq<nat>, a: nat)
    requires a < |streaks| && streaks[a] > 0
    ensures Passing(streaks, 1) >= 1
  {
    if a < |streaks| - 1 {
      AStreakPassesOne(streaks[..|streaks| - 1], a);
    }
  }

  lemma {:induction false} TwoStreaksPassTwo(streaks: seq<nat>, a: nat, b: nat)
    requires a < b < |streaks| && streaks[a] > 0 && streaks[b] > 0
    ensures Passing(streaks, 1) >= 2
  {
    if b == |streaks| - 1 {
      AStreakPassesOne(streaks[..|streaks| - 1], a);
    } else {
      TwoStreaksPassTwo(streaks[..|streaks| - 1], a, b);
    }
  }

  /** Whatever the limit is, no more requests of a window pass, if and only if nothing interrupts the window between
      two of its requests. */
  lemma LimitHoldsExactly(events: seq<Event>, length: int, window: int)
    requires length > 0
    ensures (forall limit: nat :: Admitted(events, length, limit, window) <= limit)
      <==> Uninterrupted(events, length, window)
  {
    var streaks := Streaks(events, length, window);
    UninterruptedIsOneStreak(events, length, window);
    forall limit: nat | OneStreak(streaks)
      ensures Admitted(events, length, limit, window) <= limit
    {
      EachStreakHasItsLimit(events, length, limit, window);
      OneStreakPassesTheLimit(streaks, limit);
    }
    if !OneStreak(streaks) {
      var a, b :| 0 <= a < b < |streaks| && streaks[a] != 0 && streaks[b] != 0;
      TwoStreaksPassTwo(streaks, a, b);
      EachStreakHasItsLimit(events, length, 1, window);
      assert Admitted(events, length, 1, window) > 1;
    }
  }

  /** Statements in the order of their times never interrupt a window between two of its requests. */
  lemma InOrderIsUninterrupted(events: seq<Event>, length: int, window: int)
    requires 0 < length <= RETENTION && InOrder(events)
    ensures Uninterrupted(events, length, window)
  {
    forall limit: nat
      ensures Admitted(events, length, limit, window) <= limit
    {
      FirstOnesPass(events, length, limit, window);
    }
    LimitHoldsExactly(events, length, window);
  }

  // ----- One late statement -----

  function Repeat(n: nat, at: int): seq<Event> {
    if n == 0 then [] else Repeat(n - 1, at) + [Request(at)]
  }

  lemma {:induction false} RepeatsCount(n: nat, at: int, length: int)
    requires length > 0
    ensures |Repeat(n, at)| == n && (forall i :: 0 <= i < n ==> Repeat(n, at)[i] == Request(at))
    ensures Requests(Repeat(n, at), length, WindowOf(at, length)) == n
  {
    if n > 0 {
      RepeatsCount(n - 1, at, length);
      assert Repeat(n, at)[..n - 1] == Repeat(n - 1, at);
    }
  }

  /** A statement that started before its neighbours but was applied after them resets the bucket, and then more than
      the limit pass in one window. */
  lemma OneLateStatementBreaksTheLimit(length: int, limit: nat) returns (events: seq<Event>)
    requires 0 < length <= RETENTION && limit > 0
    ensures Admitted(events, length, limit, 1) == limit + 1
  {
    var full := Repeat(limit, length);
    RepeatsCount(limit, length, length);
    StartsWindow(1, length);
    StartsWindow(0, length);
    FirstOnesPass(full, length, limit, 1);
    var late := full + [Request(0)];
    assert late[..|late| - 1] == full;
    events := late + [Request(length)];
    assert events[..|events| - 1] == late;
    assert After(events, length).value.count == 1;
  }
}
