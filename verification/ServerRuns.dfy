/** Every run of the server: heartbeats from any devices interleaved with the changes that administrators make and
    with receipt purges. */
module ServerRuns {
  import opened Records
  import opened TimeLedger
  import opened WorkSync
  import opened Closers
  import Compaction

  datatype Command =
    | Heartbeat(req: Request, now: int, prev: Option<Receipt>)
    | EnableProject(project: ProjectId, enabled: bool, now: int)
    | JoinProject(project: ProjectId, user: UserId, role: ProjectRole)
    | ChangeRole(project: ProjectId, user: UserId, role: ProjectRole, now: int)
    | LeaveProject(project: ProjectId, user: UserId, now: int)
    | EnableUser(user: UserId, enabled: bool, now: int)
    | EnableDevice(device: DeviceId, enabled: bool, now: int)
    | ActivateTask(task: TaskId, active: bool, now: int)
    | ChangeUserRole(user: UserId, userRole: Role)
    | PurgeReceipts(cutoff: int)

  /** What the callers guarantee: a heartbeat comes from an enrolled device and finds one of its latest
      receipts, and the project page only adds people who are not members yet. */
  ghost predicate Allowed(db: Db, c: Command) {
    match c
    case Heartbeat(req, now, prev) => req.device in db.dir.devices && IsPrevious(db.receipts, req.device, prev)
    case JoinProject(p, u, _) => (p, u) !in db.dir.members
    case _ => true
  }

  function AfterChange(db: Db, change: Change): Db {
    if change.Done? then change.db else db
  }

  ghost function Execute(db: Db, c: Command): Db
    requires Coherent(db) && Allowed(db, c)
  {
    match c
    case Heartbeat(req, now, prev) => Sync(db, req, now, prev).0
    case EnableProject(p, enabled, now) => AfterChange(db, SetProjectEnabled(db, p, enabled, now))
    case JoinProject(p, u, role) => AddMember(db, p, u, role)
    case ChangeRole(p, u, role, now) => AfterChange(db, SetMemberRole(db, p, u, role, now))
    case LeaveProject(p, u, now) => AfterChange(db, RemoveMember(db, p, u, now))
    case EnableUser(u, enabled, now) => AfterChange(db, SetUserEnabled(db, u, enabled, now))
    case EnableDevice(d, enabled, now) => AfterChange(db, SetDeviceEnabled(db, d, enabled, now))
    case ActivateTask(t, active, now) => AfterChange(db, SetTaskActive(db, t, active, now))
    case ChangeUserRole(u, role) => if u in db.dir.users then SetUserRole(db, u, role) else db
    case PurgeReceipts(cutoff) => db.(receipts := Compaction.Compact(db.receipts, cutoff))
  }

  /** The change of a user's role leaves no running work to a plain member without a tracking membership. */
  ghost predicate Fits(db: Db, c: Command)
    requires Coherent(db)
  {
    c.ChangeUserRole? && c.user in db.dir.users && c.userRole == Member ==>
      forall p :: HasOpenWork(db.ledger, c.user, p) ==> MayTrackAsMember(db.dir, c.user, p)
  }

  /** Every command keeps the tables coherent, only a heartbeat can open work, and work stays authorized exactly under
      a change of role that fits; every other command keeps it so. */
  lemma ExecuteKeeps(db: Db, c: Command)
    requires Coherent(db) && Allowed(db, c)
    ensures Coherent(Execute(db, c))
    ensures Inv(db) ==> (Inv(Execute(db, c)) <==> Fits(db, c))
    ensures !c.Heartbeat? ==> OnlyStops(db.ledger, Execute(db, c).ledger)
    ensures !c.Heartbeat? && !c.EnableDevice? ==> DevicesOnlyLose(db.dir, Execute(db, c).dir)
  {
    match c
    case Heartbeat(req, now, prev) => SyncKeepsInv(db, req, now, prev);
    case EnableProject(p, enabled, now) => SetProjectEnabledKeeps(db, p, enabled, now);
    case JoinProject(p, u, role) =>
      if Inv(db) {
        AddMemberAuthorization(db, p, u, role);
      }
    case ChangeRole(p, u, role, now) => SetMemberRoleKeeps(db, p, u, role, now);
    case LeaveProject(p, u, now) => RemoveMemberKeeps(db, p, u, now);
    case EnableUser(u, enabled, now) => SetUserEnabledKeeps(db, u, enabled, now);
    case EnableDevice(d, enabled, now) => SetDeviceEnabledKeeps(db, d, enabled, now);
    case ActivateTask(t, active, now) => SetTaskActiveKeeps(db, t, active, now);
    case ChangeUserRole(u, role) =>
      if Inv(db) && u in db.dir.users {
        SetUserRoleAuthorization(db, u, role);
      }
    case PurgeReceipts(cutoff) =>
  }

  /** Only a heartbeat of the device itself, or a purge, touches a device's receipts; no command forgets a device. */
  lemma ExecuteLeavesReceipts(db: Db, c: Command, device: DeviceId)
    requires Coherent(db) && Allowed(db, c)
    requires !c.PurgeReceipts? && (c.Heartbeat? ==> c.req.device != device)
    ensures Execute(db, c).dir.devices.Keys == db.dir.devices.Keys
    ensures forall k: (DeviceId, EventId) :: k.0 == device ==>
      && (k in Execute(db, c).receipts <==> k in db.receipts)
      && (k in db.receipts ==> Execute(db, c).receipts[k] == db.receipts[k])
  {
    match c
    case Heartbeat(req, now, prev) =>
    case EnableProject(p, enabled, now) => SetProjectEnabledKeeps(db, p, enabled, now);
    case JoinProject(p, u, role) =>
    case ChangeRole(p, u, role, now) => SetMemberRoleKeeps(db, p, u, role, now);
    case LeaveProject(p, u, now) => RemoveMemberKeeps(db, p, u, now);
    case EnableUser(u, enabled, now) => SetUserEnabledKeeps(db, u, enabled, now);
    case EnableDevice(d, enabled, now) => SetDeviceEnabledKeeps(db, d, enabled, now);
    case ActivateTask(t, active, now) => SetTaskActiveKeeps(db, t, active, now);
    case ChangeUserRole(u, role) =>
  }

  ghost predicate AllowedRun(db: Db, run: seq<Command>)
    requires Coherent(db)
    decreases |run|
  {
    |run| > 0 ==> Allowed(db, run[0]) && (ExecuteKeeps(db, run[0]); AllowedRun(Execute(db, run[0]), run[1..]))
  }

  ghost function After(db: Db, run: seq<Command>): Db
    requires Coherent(db) && AllowedRun(db, run)
    decreases |run|
  {
    if |run| == 0 then db
    else ExecuteKeeps(db, run[0]); After(Execute(db, run[0]), run[1..])
  }

  /** Open work is authorized in every state of the run. */
  ghost predicate AlwaysAuthorized(db: Db, run: seq<Command>)
    requires Coherent(db) && AllowedRun(db, run)
    decreases |run|
  {
    Inv(db) && (|run| > 0 ==> (ExecuteKeeps(db, run[0]); AlwaysAuthorized(Execute(db, run[0]), run[1..])))
  }

  ghost predicate AllFit(db: Db, run: seq<Command>)
    requires Coherent(db) && AllowedRun(db, run)
    decreases |run|
  {
    |run| > 0 ==> Fits(db, run[0]) && (ExecuteKeeps(db, run[0]); AllFit(Execute(db, run[0]), run[1..]))
  }

  /** In every state that any run reaches, a session is active iff it has exactly one open segment, and no device and
      no user has two open sessions. Every open segment belongs to an enabled owner in an enabled project, with a
      tracking membership if the owner is a plain member, all along the run if and only if every change of a user's
      role fits. */
  lemma {:induction false} EveryReachableStateIsSound(db: Db, run: seq<Command>)
    requires Coherent(db) && AllowedRun(db, run)
    ensures Coherent(After(db, run))
    ensures Inv(db) ==> (AlwaysAuthorized(db, run) <==> AllFit(db, run))
    ensures AlwaysAuthorized(db, run) ==> Inv(After(db, run))
    decreases |run|
  {
    if |run| > 0 {
      ExecuteKeeps(db, run[0]);
      EveryReachableStateIsSound(Execute(db, run[0]), run[1..]);
    }
  }

  function Empty(dir: Directory): Db {
    Db(dir, Ledger([], []), map[])
  }

  lemma EmptyTablesAreSound(dir: Directory)
    ensures Inv(Empty(dir))
  {}

  /** The open segments of a user's sessions. */
  ghost function Running(l: Ledger, user: UserId): set<nat>
    requires ReferencesResolve(l)
  {
    set k | 0 <= k < |l.segments| && l.segments[k].Open() && l.sessions[l.segments[k].session].user == Some(user)
  }

  ghost predicate IsTracking(l: Ledger, user: UserId) {
    exists i :: 0 <= i < |l.sessions| && l.sessions[i].user == Some(user) && l.sessions[i].status == Active
  }

  /** What this means for a user, whatever happened since the tables were empty: one segment of theirs runs while one
      of their sessions is active, and none otherwise, so no moment is ever counted twice as it passes. */
  lemma SoundnessForAUser(dir: Directory, run: seq<Command>, user: UserId)
    requires (EmptyTablesAreSound(dir); AllowedRun(Empty(dir), run))
    ensures (EmptyTablesAreSound(dir); EveryReachableStateIsSound(Empty(dir), run);
      var l := After(Empty(dir), run).ledger;
      |Running(l, user)| == if IsTracking(l, user) then 1 else 0)
  {
    EmptyTablesAreSound(dir);
    EveryReachableStateIsSound(Empty(dir), run);
    var l := After(Empty(dir), run).ledger;
    if IsTracking(l, user) {
      var i :| 0 <= i < |l.sessions| && l.sessions[i].user == Some(user) && l.sessions[i].status == Active;
      assert HasOpenSegment(l, i);
      var k :| 0 <= k < |l.segments| && l.segments[k].Open() && l.segments[k].session == i;
      forall j | j in Running(l, user)
        ensures j == k
      {
        assert l.sessions[l.segments[j].session].status == Active;
      }
      assert Running(l, user) == {k};
    } else {
      forall j: nat | j < |l.segments| && l.segments[j].Open()
        ensures l.sessions[l.segments[j].session].user != Some(user)
      {
        assert l.sessions[l.segments[j].session].status == Active;
      }
      assert Running(l, user) == {};
    }
  }

  // ----- Sessions start first -----

  predicate Identified(c: Command) { c.Heartbeat? ==> c.req.id.Some? }

  /** Some receipt of the session's device is as late as the session's start. */
  ghost predicate StartIsKnown(receipts: Receipts, s: Session) {
    exists id: EventId :: (s.device, id) in receipts && receipts[(s.device, id)].observed >= s.started
  }

  ghost predicate StartsInOrder(db: Db)
    requires ReferencesResolve(db.ledger)
  {
    && (forall i :: 0 <= i < |db.ledger.sessions| ==> StartIsKnown(db.receipts, db.ledger.sessions[i]))
    && (forall k :: 0 <= k < |db.ledger.segments| ==>
          db.ledger.sessions[db.ledger.segments[k].session].started <= db.ledger.segments[k].start)
  }

  /** Old segments keep their session and start; new sessions and segments are the event's. */
  ghost predicate RowsGoOn(l: Ledger, l': Ledger, ev: Event) {
    && |l.sessions| <= |l'.sessions| && |l.segments| <= |l'.segments|
    && (forall i :: |l.sessions| <= i < |l'.sessions| ==> l'.sessions[i].started == ev.at)
    && (forall k :: 0 <= k < |l.segments| ==>
          l'.segments[k].session == l.segments[k].session && l'.segments[k].start == l.segments[k].start)
    && (forall k :: |l.segments| <= k < |l'.segments| ==>
          && l'.segments[k].start == ev.at && l'.segments[k].session < |l'.sessions|
          && l'.sessions[l'.segments[k].session].device == ev.device)
  }

  lemma AdvancedRows(l: Ledger, ev: Event, prev: Option<Receipt>, now: int)
    ensures RowsGoOn(l, Advance(l, ev, prev, now).0, ev)
  {}

  /** Where the sessions and segments of a ledger come from after an event. */
  lemma ReplayedRows(l: Ledger, ev: Event, prev: Option<Receipt>, now: int)
    requires Consistent(l) && OwnersAgree(l, ev) && Replay(l, ev, prev, now).Ok?
    ensures var l' := Replay(l, ev, prev, now).value.0;
      ReferencesResolve(l') && SessionsPersist(l, l', ev) && RowsGoOn(l, l', ev)
  {
    ReplayKeeps(l, ev, prev, now);
    AdvancedRows(Displace(l, ev).value, ev, prev, now);
  }

  lemma RememberKeepsKnown(receipts: Receipts, ev: Event, now: int, session: Option<SessionId>, s: Session)
    requires ev.id.Some? && !AlreadyApplied(receipts, ev)
    requires StartIsKnown(receipts, s) || (s.device == ev.device && s.started <= ev.at)
    ensures StartIsKnown(Remember(receipts, ev, now, session), s)
  {
    var after := Remember(receipts, ev, now, session);
    if StartIsKnown(receipts, s) {
      var id: EventId :| (s.device, id) in receipts && receipts[(s.device, id)].observed >= s.started;
      assert (s.device, id) in after;
    } else {
      assert (ev.device, ev.id.value) in after;
    }
  }

  lemma CommitKeepsStarts(db: Db, ev: Event, now: int, prev: Option<Receipt>)
    requires Coherent(db) && StartsInOrder(db) && OwnersAgree(db.ledger, ev)
    requires ev.id.Some? && !AlreadyApplied(db.receipts, ev) && IsPrevious(db.receipts, ev.device, prev)
    requires prev.Some? ==> prev.value.observed <= ev.at
    requires Coherent(Commit(db, ev, now, prev).0)
    ensures StartsInOrder(Commit(db, ev, now, prev).0)
  {
    var replayed := Replay(db.ledger, ev, prev, now);
    if replayed.Ok? {
      var db' := Commit(db, ev, now, prev).0;
      ReplayedRows(db.ledger, ev, prev, now);
      forall i | 0 <= i < |db'.ledger.sessions|
        ensures StartIsKnown(db'.receipts, db'.ledger.sessions[i])
        ensures db'.ledger.sessions[i].device == ev.device ==> db'.ledger.sessions[i].started <= ev.at
      {
        var s := db'.ledger.sessions[i];
        if i < |db.ledger.sessions| {
          assert StartIsKnown(db.receipts, db.ledger.sessions[i]);
          assert StartIsKnown(db.receipts, s);
        }
        RememberKeepsKnown(db.receipts, ev, now, if ev.status == Stopped then None else replayed.value.1, s);
      }
    }
  }

  lemma CompactKeepsKnown(receipts: Receipts, cutoff: int, s: Session)
    requires StartIsKnown(receipts, s)
    ensures StartIsKnown(Compaction.Compact(receipts, cutoff), s)
  {
    var id: EventId :| (s.device, id) in receipts && receipts[(s.device, id)].observed >= s.started;
    var top := Compaction.LatestExists(receipts, s.device, (s.device, id));
    assert (s.device, top.1) in Compaction.Compact(receipts, cutoff);
  }

  lemma ExecuteKeepsStarts(db: Db, c: Command)
    requires Coherent(db) && Allowed(db, c) && Identified(c) && StartsInOrder(db)
    ensures Coherent(Execute(db, c)) && StartsInOrder(Execute(db, c))
  {
    ExecuteKeeps(db, c);
    if c.Heartbeat? {
      HeartbeatKeepsStarts(db, c.req, c.now, c.prev);
    } else if c.PurgeReceipts? {
      forall i | 0 <= i < |db.ledger.sessions|
        ensures StartIsKnown(Execute(db, c).receipts, db.ledger.sessions[i])
      {
        CompactKeepsKnown(db.receipts, c.cutoff, db.ledger.sessions[i]);
      }
    } else {
      CommandsLeaveReceipts(db, c);
      forall i | 0 <= i < |db.ledger.sessions|
        ensures StartIsKnown(db.receipts, Execute(db, c).ledger.sessions[i])
      {
        assert StartIsKnown(db.receipts, db.ledger.sessions[i]);
      }
    }
  }

  lemma CommandsLeaveReceipts(db: Db, c: Command)
    requires Coherent(db) && Allowed(db, c) && !c.Heartbeat? && !c.PurgeReceipts?
    ensures Execute(db, c).receipts == db.receipts
  {}

  lemma HeartbeatKeepsStarts(db: Db, req: Request, now: int, prev: Option<Receipt>)
    requires Coherent(db) && req.device in db.dir.devices && IsPrevious(db.receipts, req.device, prev)
    requires req.id.Some? && StartsInOrder(db)
    ensures ReferencesResolve(Sync(db, req, now, prev).0.ledger) && StartsInOrder(Sync(db, req, now, prev).0)
  {
    SyncKeepsInv(db, req, now, prev);
    if Admit(db, req, now).Ok? && !AlreadyApplied(db.receipts, Admit(db, req, now).value) {
      CommitKeepsStarts(db, Clamp(Admit(db, req, now).value, prev), now, prev);
    }
  }

  ghost predicate AllIdentified(run: seq<Command>) {
    forall i :: 0 <= i < |run| ==> Identified(run[i])
  }

  /** As long as every heartbeat carries an event identifier, a session starts no later than any of its segments,
      whatever the devices' clocks do: the clamp holds every event back to the latest receipt, and no purge takes
      that. */
  lemma {:induction false} SessionsStartFirst(db: Db, run: seq<Command>)
    requires Coherent(db) && AllowedRun(db, run) && AllIdentified(run) && StartsInOrder(db)
    ensures Coherent(After(db, run)) && StartsInOrder(After(db, run))
    decreases |run|
  {
    if |run| > 0 {
      ExecuteKeepsStarts(db, run[0]);
      ExecuteKeeps(db, run[0]);
      SessionsStartFirst(Execute(db, run[0]), run[1..]);
    }
  }

  // ----- What runs can come to -----

  lemma {:induction false} OneMoreCommand(db: Db, run: seq<Command>, c: Command)
    requires Coherent(db) && AllowedRun(db, run)
    requires (EveryReachableStateIsSound(db, run); Allowed(After(db, run), c))
    ensures AllowedRun(db, run + [c])
    ensures (EveryReachableStateIsSound(db, run); After(db, run + [c]) == Execute(After(db, run), c))
    decreases |run|
  {
    EveryReachableStateIsSound(db, run);
    assert (run + [c])[0] == if run == [] then c else run[0];
    if |run| > 0 {
      ExecuteKeeps(db, run[0]);
      assert (run + [c])[1..] == run[1..] + [c];
      OneMoreCommand(Execute(db, run[0]), run[1..], c);
    } else {
      ExecuteKeeps(db, c);
      assert (run + [c])[1..] == [];
    }
  }

  /** The first event of all starts its work. */
  lemma FirstEventStarts(dir: Directory, req: Request, now: int)
    requires req.device in dir.devices && req.status == Active && Admit(Empty(dir), req, now).Ok?
    ensures IsPrevious(Empty(dir).receipts, req.device, None)
    ensures var (db, outcome) := Sync(Empty(dir), req, now, None);
      && outcome.Accepted? && db.dir == dir
      && db.ledger == OpenSession(Ledger([], []), Fresh(Admit(Empty(dir), req, now).value, now))
  {
    var db := Empty(dir);
    var ev := Admit(db, req, now).value;
    assert OpenOn(db.ledger, req.device) == None;
    assert Displace(db.ledger, ev) == Ok(db.ledger);
    assert Advance(db.ledger, ev, None, now).0 == OpenSession(db.ledger, Fresh(ev, now));
  }

  lemma FirstEventRun(dir: Directory, req: Request, now: int) returns (run: seq<Command>)
    requires req.device in dir.devices && req.status == Active && Admit(Empty(dir), req, now).Ok?
    ensures run == [Heartbeat(req, now, None)]
    ensures (EmptyTablesAreSound(dir); AllowedRun(Empty(dir), run))
    ensures (EmptyTablesAreSound(dir); After(Empty(dir), run) == Sync(Empty(dir), req, now, None).0)
  {
    EmptyTablesAreSound(dir);
    FirstEventStarts(dir, req, now);
    OneMoreCommand(Empty(dir), [], Heartbeat(req, now, None));
    run := [] + [Heartbeat(req, now, None)];
  }

  /** One user of a role with a device and a project, of which nobody is a member, and a task. */
  function OneUser(role: Role): Directory {
    Directory(map[0 := User(true, role, 0, 0)], map[0 := Device(Some(0), Some(0), true, true)],
              map[0 := true], map[], map[7 := Task(0, true, false)], {}, {})
  }

  /** A change of role can leave work running that its owner may no longer do: a manager who is no member starts the
      timer in a project, and is made a plain member. */
  lemma ARoleChangeCanLeaveUnauthorizedWork(at: int, now: int) returns (run: seq<Command>)
    ensures (EmptyTablesAreSound(OneUser(Manager)); AllowedRun(Empty(OneUser(Manager)), run))
    ensures (EmptyTablesAreSound(OneUser(Manager)); !Inv(After(Empty(OneUser(Manager)), run)))
  {
    var dir := OneUser(Manager);
    var req := Request(0, Some(1), Active, None, None, at, 0, 60, true);
    EmptyTablesAreSound(dir);
    run := FirstEventRun(dir, req, now);
    FirstEventStarts(dir, req, now);
    OneMoreCommand(Empty(dir), run, ChangeUserRole(0, Member));
    run := run + [ChangeUserRole(0, Member)];
    var db := After(Empty(dir), run);
    assert db.ledger.segments[0].Open() && !MayTrackAsMember(db.dir, 0, 0);
  }

  /** Task archival really can end a segment before it starts. The tracker accepts events up to five minutes ahead of
      the server's clock, and archival uses that clock as it is: from empty tables, an accepted event that starts work
      on a task and the archival of that task are enough. */
  lemma ArchivalCanInvertASegment(now: int) returns (run: seq<Command>)
    ensures (EmptyTablesAreSound(OneUser(Admin)); AllowedRun(Empty(OneUser(Admin)), run))
    ensures (EmptyTablesAreSound(OneUser(Admin));
      After(Empty(OneUser(Admin)), run).ledger.segments == [Segment(0, now + 5 * MINUTE, Some(now))])
  {
    var dir := OneUser(Admin);
    var req := Request(0, Some(1), Active, Some(7), None, now + 5 * MINUTE, 0, 60, true);
    EmptyTablesAreSound(dir);
    run := FirstEventRun(dir, req, now);
    FirstEventStarts(dir, req, now);
    var l := After(Empty(dir), run).ledger;
    OneMoreCommand(Empty(dir), run, ActivateTask(7, false, now));
    run := run + [ActivateTask(7, false, now)];
    assert InScope(l.sessions[0], OfTask(7)) && 0 in SessionsIn(l, OfTask(7));
    assert CutTaskWork(l, 7, now).segments == [Segment(0, now + 5 * MINUTE, Some(now))];
  }

  /** The event of a heartbeat that names no event, no task and no project. */
  function BareEvent(status: Status, at: int): Event {
    Event(None, 0, Some(0), status, None, Some(0), at, 0, 60, false)
  }

  function BareRequest(status: Status, at: int): Request {
    Request(0, None, status, None, None, at, 0, 60, false)
  }

  /** While the device's only session goes on, such a heartbeat is recorded on it, whenever it says it was observed. */
  lemma BareHeartbeat(db: Db, status: Status, at: int, now: int)
    requires Coherent(db) && db.dir == OneUser(Admin) && |db.ledger.sessions| == 1 && status != Stopped
    requires var s := db.ledger.sessions[0]; s.Open() && s.device == 0 && s.task == None && s.project == Some(0)
    ensures Sync(db, BareRequest(status, at), now, None).0
         == db.(ledger := Record(db.ledger, Some(0), BareEvent(status, at), now).0)
  {
    var ev := BareEvent(status, at);
    assert Admit(db, BareRequest(status, at), now) == Ok(ev);
    assert OpenElsewhere(db.ledger, 0, 0) == None;
    assert OpenOn(db.ledger, 0) == Some(0);
  }

  /** A segment can start before its session: heartbeats without identifiers are not clamped, so one that resumes the
      session may be observed before the one that began it. */
  lemma ASegmentCanPrecedeItsSession(at: int, now: int) returns (run: seq<Command>)
    ensures (EmptyTablesAreSound(OneUser(Admin)); AllowedRun(Empty(OneUser(Admin)), run))
    ensures (EmptyTablesAreSound(OneUser(Admin));
      var l := After(Empty(OneUser(Admin)), run).ledger;
      && |l.sessions| == 1 && l.sessions[0].user == Some(0) && l.sessions[0].started == at + MINUTE
      && l.segments == [Segment(0, at + MINUTE, Some(at + 2 * MINUTE)), Segment(0, at - MINUTE, None)])
  {
    var dir := OneUser(Admin);
    EmptyTablesAreSound(dir);
    run := FirstEventRun(dir, BareRequest(Active, at + MINUTE), now);
    FirstEventStarts(dir, BareRequest(Active, at + MINUTE), now);
    EveryReachableStateIsSound(Empty(dir), run);
    var db1 := After(Empty(dir), run);
    assert db1.ledger == OpenSession(Ledger([], []), Fresh(BareEvent(Active, at + MINUTE), now));
    BareHeartbeat(db1, Paused, at + 2 * MINUTE, now);
    run := BareStep(dir, run, Paused, at + 2 * MINUTE, now);
    EveryReachableStateIsSound(Empty(dir), run);
    var db2 := After(Empty(dir), run);
    assert db2.ledger.segments == [Segment(0, at + MINUTE, Some(at + 2 * MINUTE))];
    BareHeartbeat(db2, Active, at - MINUTE, now);
    run := BareStep(dir, run, Active, at - MINUTE, now);
  }

  lemma BareStep(dir: Directory, run: seq<Command>, status: Status, at: int, now: int) returns (more: seq<Command>)
    requires (EmptyTablesAreSound(dir); AllowedRun(Empty(dir), run)) && 0 in dir.devices
    requires (EmptyTablesAreSound(dir); After(Empty(dir), run).dir == dir && After(Empty(dir), run).receipts == map[])
    ensures (EmptyTablesAreSound(dir); AllowedRun(Empty(dir), more))
    ensures (EmptyTablesAreSound(dir); EveryReachableStateIsSound(Empty(dir), run);
      After(Empty(dir), more) == Sync(After(Empty(dir), run), BareRequest(status, at), now, None).0)
  {
    EmptyTablesAreSound(dir);
    OneMoreCommand(Empty(dir), run, Heartbeat(BareRequest(status, at), now, None));
    more := run + [Heartbeat(BareRequest(status, at), now, None)];
  }
}
