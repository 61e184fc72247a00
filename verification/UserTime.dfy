/** A user's segments across all their devices: when no moment is counted twice. */
module UserTime {
  import opened Records
  import opened TimeLedger
  import opened WorkSync
  import opened Closers
  import opened ServerRuns

  predicate Holds(g: Segment, t: int) {
    g.start <= t && (g.Open() || t < g.end.value)
  }

  predicate IsOf(l: Ledger, k: int, user: UserId)
    requires 0 <= k < |l.segments|
  {
    l.segments[k].session < |l.sessions| && l.sessions[l.segments[k].session].user == Some(user)
  }

  /** No moment lies in two segments of the user. */
  ghost predicate Apart(l: Ledger, user: UserId) {
    forall j, k, t :: 0 <= j < k < |l.segments| && IsOf(l, j, user) && IsOf(l, k, user) ==>
      !(Holds(l.segments[j], t) && Holds(l.segments[k], t))
  }

  // ----- What an event does to segments -----

  /** Segments keep their session and start, and an open one that ends does so by a given instant or is left empty. */
  ghost predicate EndsBy(l: Ledger, l': Ledger, at: int) {
    && |l.segments| <= |l'.segments|
    && forall k :: 0 <= k < |l.segments| ==>
         && l'.segments[k].session == l.segments[k].session && l'.segments[k].start == l.segments[k].start
         && (l'.segments[k] != l.segments[k] ==>
               && l.segments[k].Open() && !l'.segments[k].Open()
               && l'.segments[k].end.value <= Max(l.segments[k].start, at))
  }

  /** Whether an event begins a segment: it is active, and the device's session is not active already or cannot go
      on. */
  ghost predicate Begins(l: Ledger, ev: Event, prev: Option<Receipt>) {
    ev.status == Active
    && match OpenOn(l, ev.device)
       case None => true
       case Some(i) => RetireAt(l.sessions[i], ev, prev).Some? || l.sessions[i].status == Paused
  }

  ghost predicate Adds(l: Ledger, l': Ledger, ev: Event, begins: bool) {
    if begins
    then
      && |l'.segments| == |l.segments| + 1
      && exists i: SessionId :: l'.segments[|l.segments|] == Segment(i, ev.at, None)
    else |l'.segments| == |l.segments|
  }

  lemma RecordedEnds(l: Ledger, own: Option<SessionId>, ev: Event, now: int)
    requires own.Some? ==> own.value < |l.sessions| && l.sessions[own.value].Open()
    ensures EndsBy(l, Record(l, own, ev, now).0, ev.at)
    ensures Adds(l, Record(l, own, ev, now).0, ev,
                 ev.status == Active && (own.None? || l.sessions[own.value].status == Paused))
  {
    if ev.status == Active && own.None? {
      assert Record(l, own, ev, now).0.segments == l.segments + [Segment(|l.sessions|, ev.at, None)];
    } else if ev.status == Active && l.sessions[own.value].status == Paused {
      assert Record(l, own, ev, now).0.segments == l.segments + [Segment(own.value, ev.at, None)];
    }
  }

  /** A session that cannot go on has ended by the time of the event. */
  lemma RetiresInTime(s: Session, ev: Event, prev: Option<Receipt>)
    requires RetireAt(s, ev, prev).Some?
    ensures RetireAt(s, ev, prev).value <= ev.at
  {}

  lemma AdvancedEnds(l: Ledger, ev: Event, prev: Option<Receipt>, now: int)
    ensures EndsBy(l, Advance(l, ev, prev, now).0, ev.at)
    ensures Adds(l, Advance(l, ev, prev, now).0, ev, Begins(l, ev, prev))
  {
    var own := OpenOn(l, ev.device);
    if own.Some? && RetireAt(l.sessions[own.value], ev, prev).Some? {
      RetiresInTime(l.sessions[own.value], ev, prev);
      var l1 := StopSession(l, own.value, RetireAt(l.sessions[own.value], ev, prev).value);
      assert EndsBy(l, l1, ev.at);
      RecordedEnds(l1, None, ev, now);
    } else {
      RecordedEnds(l, own, ev, now);
    }
  }

  lemma DisplacedEnds(l: Ledger, ev: Event)
    requires Consistent(l) && Displace(l, ev).Ok?
    ensures EndsBy(l, Displace(l, ev).value, ev.at) && |Displace(l, ev).value.segments| == |l.segments|
    ensures OpenOn(Displace(l, ev).value, ev.device) == OpenOn(l, ev.device)
    ensures forall i :: 0 <= i < |l.sessions| && l.sessions[i].device == ev.device ==>
      i < |Displace(l, ev).value.sessions| && Displace(l, ev).value.sessions[i] == l.sessions[i]
  {
    var l1 := Displace(l, ev).value;
    var a, b := OpenOn(l, ev.device), OpenOn(l1, ev.device);
    if a.Some? {
      assert l1.sessions[a.value] == l.sessions[a.value];
    }
    if b.Some? {
      assert l.sessions[b.value].device == ev.device;
    }
  }

  lemma ReplayEnds(l: Ledger, ev: Event, prev: Option<Receipt>, now: int)
    requires Consistent(l) && Replay(l, ev, prev, now).Ok?
    ensures EndsBy(l, Replay(l, ev, prev, now).value.0, ev.at)
    ensures Adds(l, Replay(l, ev, prev, now).value.0, ev, Begins(l, ev, prev))
  {
    DisplacedEnds(l, ev);
    AdvancedEnds(Displace(l, ev).value, ev, prev, now);
  }

  // ----- One step -----

  /** The event that a command makes the server record: none if it is refused or is a retry. */
  ghost function Recorded(db: Db, c: Command): Option<Event>
    requires Coherent(db) && Allowed(db, c)
  {
    if !c.Heartbeat? then None
    else
      match Admit(db, c.req, c.now)
      case Err(_) => None
      case Ok(admitted) =>
        var ev := if admitted.id.Some? then Clamp(admitted, c.prev) else admitted;
        if AlreadyApplied(db.receipts, admitted) || Displace(db.ledger, ev).Err? then None else Some(ev)
  }

  /** Some time of the user after a given instant is on record already. */
  ghost predicate HasEndedAfter(l: Ledger, user: UserId, at: int) {
    exists k :: 0 <= k < |l.segments| && IsOf(l, k, user) && !l.segments[k].Open()
      && l.segments[k].end.value > Max(l.segments[k].start, at)
  }

  /** The command begins a segment of the user before some other one has ended. */
  ghost predicate Backdates(db: Db, c: Command, user: UserId)
    requires Coherent(db) && Allowed(db, c)
  {
    var ev := Recorded(db, c);
    && ev.Some? && ev.value.user == Some(user) && Begins(db.ledger, ev.value, c.prev)
    && HasEndedAfter(db.ledger, user, ev.value.at)
  }

  ghost predicate UsersStay(l: Ledger, l': Ledger) {
    |l.sessions| <= |l'.sessions| && forall i :: 0 <= i < |l.sessions| ==> l'.sessions[i].user == l.sessions[i].user
  }

  /** Ending segments brings none together. */
  lemma ShrinkingKeepsApart(l: Ledger, l': Ledger, user: UserId, j: nat, k: nat, t: int)
    requires ReferencesResolve(l) && UsersStay(l, l') && Apart(l, user) && j < k < |l.segments| <= |l'.segments|
    requires forall i :: 0 <= i < |l.segments| ==>
      && l'.segments[i].session == l.segments[i].session && l'.segments[i].start == l.segments[i].start
      && (l'.segments[i] != l.segments[i] ==> l.segments[i].Open())
    requires IsOf(l', j, user) && IsOf(l', k, user)
    ensures !(Holds(l'.segments[j], t) && Holds(l'.segments[k], t))
  {
    assert IsOf(l, j, user) && IsOf(l, k, user);
    assert Holds(l'.segments[j], t) ==> Holds(l.segments[j], t);
    assert Holds(l'.segments[k], t) ==> Holds(l.segments[k], t);
  }

  /** With a segment of the user still open, no other one is. */
  lemma OneOpenPerPerson(l: Ledger, user: UserId, j: nat, k: nat)
    requires Consistent(l) && j < k < |l.segments| && IsOf(l, j, user) && IsOf(l, k, user)
    ensures !(l.segments[j].Open() && l.segments[k].Open())
  {}

  /** A segment that begins stays apart from the others exactly if none of them has ended after it began. */
  lemma BeginningApart(l: Ledger, l': Ledger, user: UserId, at: int, j: nat, t: int)
    requires ReferencesResolve(l) && UsersStay(l, l') && EndsBy(l, l', at) && Consistent(l') && j < |l.segments|
    requires |l'.segments| == |l.segments| + 1 && l'.segments[|l.segments|].start == at
    requires l'.segments[|l.segments|].Open()
    requires IsOf(l', j, user) && IsOf(l', |l.segments|, user) && !HasEndedAfter(l, user, at)
    ensures !(Holds(l'.segments[j], t) && Holds(l'.segments[|l.segments|], t))
  {
    OneOpenPerPerson(l', user, j, |l.segments|);
    assert IsOf(l, j, user);
  }

  lemma BeginningTogether(l: Ledger, l': Ledger, user: UserId, at: int)
    requires ReferencesResolve(l) && UsersStay(l, l') && EndsBy(l, l', at)
    requires |l'.segments| == |l.segments| + 1 && l'.segments[|l.segments|].start == at
    requires l'.segments[|l.segments|].Open()
    requires IsOf(l', |l.segments|, user) && HasEndedAfter(l, user, at)
    ensures !Apart(l', user)
  {
    var n := |l.segments|;
    var k :| 0 <= k < n && IsOf(l, k, user) && !l.segments[k].Open() &&
        l.segments[k].end.value > Max(l.segments[k].start, at);
    var t := Max(l.segments[k].start, at);
    assert IsOf(l', k, user) && Holds(l'.segments[k], t) && Holds(l'.segments[n], t);
  }

  lemma RecordedApart(l: Ledger, ev: Event, prev: Option<Receipt>, now: int, user: UserId)
    requires Consistent(l) && OwnersAgree(l, ev) && Replay(l, ev, prev, now).Ok? && Apart(l, user)
    ensures Apart(Replay(l, ev, prev, now).value.0, user)
       <==> !(ev.user == Some(user) && Begins(l, ev, prev) && HasEndedAfter(l, user, ev.at))
  {
    var l' := Replay(l, ev, prev, now).value.0;
    var n := |l.segments|;
    ReplayKeeps(l, ev, prev, now);
    ReplayedRows(l, ev, prev, now);
    ReplayEnds(l, ev, prev, now);
    assert UsersStay(l, l');
    forall j, k, t | 0 <= j < k < n && IsOf(l', j, user) && IsOf(l', k, user)
      ensures !(Holds(l'.segments[j], t) && Holds(l'.segments[k], t))
    {
      ShrinkingKeepsApart(l, l', user, j, k, t);
    }
    if Begins(l, ev, prev) {
      NewIsOfTheUser(l, l', ev, user);
      if ev.user == Some(user) {
        if HasEndedAfter(l, user, ev.at) {
          BeginningTogether(l, l', user, ev.at);
        } else {
          forall j, t | 0 <= j < n && IsOf(l', j, user)
            ensures !(Holds(l'.segments[j], t) && Holds(l'.segments[n], t))
          {
            BeginningApart(l, l', user, ev.at, j, t);
          }
        }
      }
    }
  }

  lemma NewIsOfTheUser(l: Ledger, l': Ledger, ev: Event, user: UserId)
    requires OwnersAgree(l, ev) && SessionsPersist(l, l', ev) && RowsGoOn(l, l', ev)
    requires |l'.segments| == |l.segments| + 1
    ensures IsOf(l', |l.segments|, user) <==> ev.user == Some(user)
  {}

  /** A step keeps the user's segments apart, exactly if it does not begin one before another one has ended. */
  lemma ExecuteKeepsApart(db: Db, c: Command, user: UserId)
    requires Coherent(db) && Allowed(db, c) && Apart(db.ledger, user)
    ensures Apart(Execute(db, c).ledger, user) <==> !Backdates(db, c, user)
  {
    ExecuteKeeps(db, c);
    if c.Heartbeat? {
      var ev := Recorded(db, c);
      if ev.Some? {
        RecordedApart(db.ledger, ev.value, c.prev, c.now, user);
      }
    } else {
      var l, l' := db.ledger, Execute(db, c).ledger;
      forall j, k, t | 0 <= j < k < |l'.segments| && IsOf(l', j, user) && IsOf(l', k, user)
        ensures !(Holds(l'.segments[j], t) && Holds(l'.segments[k], t))
      {
        ShrinkingKeepsApart(l, l', user, j, k, t);
      }
    }
  }

  // ----- Every run -----

  ghost predicate AlwaysApart(db: Db, run: seq<Command>, user: UserId)
    requires Coherent(db) && AllowedRun(db, run)
    decreases |run|
  {
    Apart(db.ledger, user)
    && (|run| > 0 ==> (ExecuteKeeps(db, run[0]); AlwaysApart(Execute(db, run[0]), run[1..], user)))
  }

  ghost predicate NeverBackdated(db: Db, run: seq<Command>, user: UserId)
    requires Coherent(db) && AllowedRun(db, run)
    decreases |run|
  {
    |run| > 0 ==>
      && !Backdates(db, run[0], user)
      && (ExecuteKeeps(db, run[0]); NeverBackdated(Execute(db, run[0]), run[1..], user))
  }

  lemma {:induction false} ApartWhileNotBackdated(db: Db, run: seq<Command>, user: UserId)
    requires Coherent(db) && AllowedRun(db, run) && Apart(db.ledger, user)
    ensures AlwaysApart(db, run, user) <==> NeverBackdated(db, run, user)
    decreases |run|
  {
    if |run| > 0 {
      ExecuteKeeps(db, run[0]);
      ExecuteKeepsApart(db, run[0], user);
      if !Backdates(db, run[0], user) {
        ApartWhileNotBackdated(Execute(db, run[0]), run[1..], user);
      }
    }
  }

  /** Over every run from empty tables, whatever devices the user tracks on: no moment is counted twice, at any time, if
      and only if no recorded event begins a segment of the user at an instant after which another one of theirs has
      ended. */
  lemma NoMomentIsCountedTwice(dir: Directory, run: seq<Command>, user: UserId)
    requires (EmptyTablesAreSound(dir); AllowedRun(Empty(dir), run))
    ensures (EmptyTablesAreSound(dir);
      AlwaysApart(Empty(dir), run, user) <==> NeverBackdated(Empty(dir), run, user))
  {
    EmptyTablesAreSound(dir);
    ApartWhileNotBackdated(Empty(dir), run, user);
  }

  // ----- It can happen -----

  /** An administrator with two devices and a project. */
  function TwoDevices(): Directory {
    var device := Device(Some(0), Some(0), true, true);
    Directory(map[0 := User(true, Admin, 0, 0)], map[0 := device, 1 := device], map[0 := true], map[], map[], {}, {})
  }

  function Report(device: DeviceId, id: EventId, status: Status, at: int): Request {
    Request(device, Some(id), status, None, None, at, 0, 60, true)
  }

  function Reported(device: DeviceId, id: EventId, status: Status, at: int): Event {
    Event(Some(id), device, Some(0), status, None, Some(0), at, 0, 60, true)
  }

  /** One session on the first device, which is paused after 100 seconds. */
  lemma PausedOnTheFirst(db: Db, at: int, now: int) returns (prev: Option<Receipt>)
    requires Coherent(db) && db.dir == TwoDevices()
    requires db.ledger == OpenSession(Ledger([], []), Fresh(Reported(0, 1, Active, at), now))
    requires exists r: Receipt :: db.receipts == map[(0, 1) := r] && r.observed == at && r.interval == 60
    ensures IsPrevious(db.receipts, 0, prev)
    ensures var db' := Sync(db, Report(0, 2, Paused, at + 100 * SECOND), now, prev).0;
      && db'.dir == db.dir && db'.receipts.Keys == {(0, 1), (0, 2)}
      && db'.ledger == PauseSession(db.ledger, 0, at + 100 * SECOND, now)
  {
    var r: Receipt :| db.receipts == map[(0, 1) := r] && r.observed == at && r.interval == 60;
    prev := Some(r);
    assert db.receipts[(0, 1)] == r;
    var ev := Reported(0, 2, Paused, at + 100 * SECOND);
    assert Admit(db, Report(0, 2, Paused, at + 100 * SECOND), now) == Ok(ev);
    assert OpenElsewhere(db.ledger, 0, 0) == None;
    assert db.ledger.sessions[0].Open() && db.ledger.sessions[0].device == 0;
    assert OpenOn(db.ledger, 0) == Some(0);
    assert !LeaseExpired(ev, prev);
  }

  /** The second device takes over at an instant before that pause. */
  lemma TakenOverByTheSecond(db: Db, at: int, now: int)
    requires Coherent(db) && db.dir == TwoDevices() && db.receipts.Keys == {(0, 1), (0, 2)}
    requires |db.ledger.sessions| == 1 && db.ledger.sessions[0].Open() && db.ledger.sessions[0].device == 0
    requires db.ledger.sessions[0].started == at && db.ledger.segments == [Segment(0, at, Some(at + 100 * SECOND))]
    ensures IsPrevious(db.receipts, 1, None)
    ensures Sync(db, Report(1, 3, Active, at + 50 * SECOND), now, None).0.ledger.segments
         == [Segment(0, at, Some(at + 100 * SECOND)), Segment(1, at + 50 * SECOND, None)]
    ensures Sync(db, Report(1, 3, Active, at + 50 * SECOND), now, None).0.ledger.sessions[1].user == Some(0)
  {
    var ev := Reported(1, 3, Active, at + 50 * SECOND);
    assert Admit(db, Report(1, 3, Active, at + 50 * SECOND), now) == Ok(ev);
    assert OpenElsewhere(db.ledger, 0, 1) == Some(0);
    var l1 := StopSession(db.ledger, 0, ev.at);
    assert Displace(db.ledger, ev) == Ok(l1);
    assert l1.segments == db.ledger.segments;
    assert OpenOn(l1, 1) == None;
    assert Advance(l1, ev, None, now).0 == OpenSession(l1, Fresh(ev, now));
  }

  lemma TheyOverlap(l: Ledger, at: int)
    requires |l.sessions| == 2 && l.sessions[0].user == Some(0) && l.sessions[1].user == Some(0)
    requires l.segments == [Segment(0, at, Some(at + 100 * SECOND)), Segment(1, at + 50 * SECOND, None)]
    ensures !Apart(l, 0)
  {
    assert IsOf(l, 0, 0) && IsOf(l, 1, 0);
    assert Holds(l.segments[0], at + 50 * SECOND) && Holds(l.segments[1], at + 50 * SECOND);
  }

  /** The first device starts and pauses. */
  lemma FirstDeviceRun(at: int, now: int) returns (run: seq<Command>)
    ensures (EmptyTablesAreSound(TwoDevices()); AllowedRun(Empty(TwoDevices()), run))
    ensures (EmptyTablesAreSound(TwoDevices()); EveryReachableStateIsSound(Empty(TwoDevices()), run);
      var db := After(Empty(TwoDevices()), run);
      && db.dir == TwoDevices() && db.receipts.Keys == {(0, 1), (0, 2)}
      && |db.ledger.sessions| == 1 && db.ledger.sessions[0].Open() && db.ledger.sessions[0].device == 0
      && db.ledger.sessions[0].user == Some(0) && db.ledger.sessions[0].started == at
      && db.ledger.segments == [Segment(0, at, Some(at + 100 * SECOND))])
  {
    var dir := TwoDevices();
    EmptyTablesAreSound(dir);
    var start, pause := Report(0, 1, Active, at), Report(0, 2, Paused, at + 100 * SECOND);
    run := FirstEventRun(dir, start, now);
    FirstEventStarts(dir, start, now);
    EveryReachableStateIsSound(Empty(dir), run);
    FirstIsRemembered(start, at, now);
    var prev := PausedOnTheFirst(After(Empty(dir), run), at, now);
    OneMoreCommand(Empty(dir), run, Heartbeat(pause, now, prev));
    run := run + [Heartbeat(pause, now, prev)];
  }

  lemma FirstIsRemembered(req: Request, at: int, now: int)
    requires req == Report(0, 1, Active, at)
    ensures Admit(Empty(TwoDevices()), req, now) == Ok(Reported(0, 1, Active, at))
    ensures var receipts := Sync(Empty(TwoDevices()), req, now, None).0.receipts;
      exists r: Receipt :: receipts == map[(0, 1) := r] && r.observed == at && r.interval == 60
  {
    FirstEventStarts(TwoDevices(), req, now);
    var receipts := Sync(Empty(TwoDevices()), req, now, None).0.receipts;
    assert receipts == map[(0, 1) := receipts[(0, 1)]];
  }

  /** Half a minute can be counted twice: work is paused on one device, and another one, on which an earlier instant was
      observed, takes over. */
  lemma TwoDevicesCanOverlap(at: int, now: int) returns (run: seq<Command>)
    ensures (EmptyTablesAreSound(TwoDevices()); AllowedRun(Empty(TwoDevices()), run))
    ensures (EmptyTablesAreSound(TwoDevices()); !Apart(After(Empty(TwoDevices()), run).ledger, 0))
  {
    var dir := TwoDevices();
    EmptyTablesAreSound(dir);
    var switch := Report(1, 3, Active, at + 50 * SECOND);
    run := FirstDeviceRun(at, now);
    EveryReachableStateIsSound(Empty(dir), run);
    TakenOverByTheSecond(After(Empty(dir), run), at, now);
    OneMoreCommand(Empty(dir), run, Heartbeat(switch, now, None));
    run := run + [Heartbeat(switch, now, None)];
    TheyOverlap(After(Empty(dir), run).ledger, at);
  }
}
