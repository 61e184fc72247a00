/** What one call of `sync_work_session` does to the server's tables: admission of the request, suppression
    of a replayed event, the clock clamp, and then the device switch, the lease, the change of work and the
    status itself. A call is one transaction: a rejected call leaves the tables as they were. */
module WorkSync {
  import opened Records
  import opened TimeLedger

  type Receipts = map<(DeviceId, EventId), Receipt>

  datatype Db = Db(dir: Directory, ledger: Ledger, receipts: Receipts)

  datatype Request = Request(
    device: DeviceId,
    id: Option<EventId>,
    status: Status,
    task: Option<TaskId>,
    project: Option<ProjectId>,
    at: int,
    idle: nat,
    interval: nat,
    transition: bool)

  datatype Error =
    | PeriodLocked
    | ViewerCannotTrack
    | OwnerUnavailable
    | ProjectUnavailable
    | MemberCannotTrack
    | DailyLimitReached
    | WeeklyLimitReached
    | TaskNotActive
    | TaskElsewhere
    | DesktopRequired
    | AnotherDeviceTracking
    | AnotherDeviceNewer

  datatype Result<+T> = Ok(value: T) | Err(error: Error)

  /** An admitted request, with its owner and its effective project. */
  datatype Event = Event(
    id: Option<EventId>,
    device: DeviceId,
    user: Option<UserId>,
    status: Status,
    task: Option<TaskId>,
    project: Option<ProjectId>,
    at: int,
    idle: nat,
    interval: nat,
    transition: bool)

  datatype Outcome = Rejected(error: Error) | Accepted(session: Option<SessionId>)

  // ----- Admission -----

  /** `get_user`: disabled users are not found. */
  function EnabledUser(dir: Directory, user: Option<UserId>): Option<User> {
    if user.Some? && user.value in dir.users && dir.users[user.value].enabled
    then Some(dir.users[user.value])
    else None
  }

  predicate MayTrackAsMember(dir: Directory, user: UserId, project: ProjectId) {
    (project, user) in dir.members && dir.members[(project, user)] in {Worker, ProjectManager}
  }

  /** Time of the segments that a user started within a range of days, as the tracking limits count it. */
  function TimeStartedBetween(l: Ledger, count: nat, user: UserId, first: int, last: int, now: int): int
    requires count <= |l.segments|
    requires ReferencesResolve(l)
  {
    if count == 0 then 0
    else
      var g := l.segments[count - 1];
      var rest := TimeStartedBetween(l, count - 1, user, first, last, now);
      if l.sessions[g.session].user == Some(user) && first <= DayOf(g.start) <= last
      then rest + (if g.Open() then now else g.end.value) - g.start
      else rest
  }

  function TrackedWithin(l: Ledger, user: UserId, first: int, last: int, now: int): int
    requires ReferencesResolve(l)
  {
    TimeStartedBetween(l, |l.segments|, user, first, last, now)
  }

  function CheckLimits(l: Ledger, user: UserId, row: User, at: int, now: int): Option<Error>
    requires ReferencesResolve(l)
  {
    var day := DayOf(at);
    if row.dailyLimit != 0 && TrackedWithin(l, user, day, day, now) >= row.dailyLimit * MINUTE then
      Some(DailyLimitReached)
    else if row.weeklyLimit != 0
      && TrackedWithin(l, user, MondayOf(day), MondayOf(day) + 6, now) >= row.weeklyLimit * MINUTE then
      Some(WeeklyLimitReached)
    else
      None
  }

  /** The checks on an active request, in the order the server makes them. */
  function CheckActive(db: Db, device: Device, project: Option<ProjectId>, at: int, now: int): Option<Error>
    requires ReferencesResolve(db.ledger)
  {
    var owner := EnabledUser(db.dir, device.owner);
    if device.owner.Some? && (device.owner.value, DayOf(at)) in db.dir.lockedDays then Some(PeriodLocked)
    else if owner.Some? && owner.value.role == Viewer then Some(ViewerCannotTrack)
    else if owner.None? then Some(OwnerUnavailable)
    else if project.None? || project.value !in db.dir.projects || !db.dir.projects[project.value] then
      Some(ProjectUnavailable)
    else if owner.value.role != Member then None
    else if !MayTrackAsMember(db.dir, device.owner.value, project.value) then Some(MemberCannotTrack)
    else CheckLimits(db.ledger, device.owner.value, owner.value, at, now)
  }

  /** A task fixes the project and must be active in it. */
  function EffectiveProject(dir: Directory, task: Option<TaskId>,
      project: Option<ProjectId>): Result<Option<ProjectId>> {
    if task.None? then Ok(project)
    else if task.value !in dir.tasks || !dir.tasks[task.value].active then Err(TaskNotActive)
    else if project.Some? && dir.tasks[task.value].project != project.value then Err(TaskElsewhere)
    else Ok(Some(dir.tasks[task.value].project))
  }

  function Admit(db: Db, req: Request, now: int): Result<Event>
    requires ReferencesResolve(db.ledger)
    requires req.device in db.dir.devices
  {
    var device := db.dir.devices[req.device];
    var chosen := if req.project.Some? then req.project else device.project;
    var refusal := if req.status == Active then CheckActive(db, device, chosen, req.at, now) else None;
    if refusal.Some? then Err(refusal.value)
    else
      match EffectiveProject(db.dir, req.task, chosen)
      case Err(e) => Err(e)
      case Ok(project) =>
        if req.status == Active && !device.desktop && device.owner.value in db.dir.desktopOnly then Err(DesktopRequired)
        else Ok(Event(req.id, req.device, device.owner, req.status, req.task, project, req.at, req.idle, req.interval,
            req.transition))
  }

  // ----- Lookups -----

  /** `previous`: some receipt of the device that no other receipt of the device is later than. The query has
      no tie-break, so any of the latest receipts may be chosen. */
  ghost predicate IsPrevious(receipts: Receipts, device: DeviceId, prev: Option<Receipt>) {
    match prev
    case None => forall k :: k in receipts ==> k.0 != device
    case Some(r) =>
      && (exists id: EventId :: (device, id) in receipts && receipts[(device, id)] == r)
      && forall k :: k in receipts && k.0 == device ==> receipts[k].observed <= r.observed
  }

  ghost function OpenOn(l: Ledger, device: DeviceId): (r: Option<SessionId>)
    ensures r.Some? ==> r.value < |l.sessions| && l.sessions[r.value].Open() && l.sessions[r.value].device == device
    ensures r.None? ==> forall i :: 0 <= i < |l.sessions| && l.sessions[i].Open() ==> l.sessions[i].device != device
  {
    if i: SessionId :| i < |l.sessions| && l.sessions[i].Open() && l.sessions[i].device == device
    then Some(i) else None
  }

  predicate IsOpenElsewhere(s: Session, user: UserId, device: DeviceId) {
    s.Open() && s.user == Some(user) && s.device != device
  }

  ghost function OpenElsewhere(l: Ledger, user: UserId, device: DeviceId): (r: Option<SessionId>)
    ensures r.Some? ==> r.value < |l.sessions| && IsOpenElsewhere(l.sessions[r.value], user, device)
    ensures r.None? ==> forall i ::
      0 <= i < |l.sessions| && l.sessions[i].Open() && l.sessions[i].user == Some(user) ==>
        l.sessions[i].device == device
  {
    if i: SessionId :| i < |l.sessions| && IsOpenElsewhere(l.sessions[i], user, device) then Some(i) else None
  }

  // ----- The transaction -----

  /** Wall clocks can step backwards; time that was already recorded is never rewritten. */
  function Clamp(ev: Event, prev: Option<Receipt>): Event {
    if prev.Some? then ev.(at := Max(ev.at, prev.value.observed)) else ev
  }

  /** How many seconds may pass between two journalled events before the gap counts as downtime. */
  function Lease(before: nat, after: nat): int {
    Max(90, Max(before * 2, after * 2))
  }

  predicate LeaseExpired(ev: Event, prev: Option<Receipt>) {
    && ev.id.Some?
    && prev.Some?
    && prev.value.status == Active
    && ev.at - prev.value.observed > Lease(prev.value.interval, ev.interval) * SECOND
  }

  /** Starting or pausing here displaces the user's work on another device, if the request says so. */
  ghost function Displace(l: Ledger, ev: Event): Result<Ledger> {
    if ev.status == Stopped || ev.user.None? then Ok(l)
    else
      match OpenElsewhere(l, ev.user.value, ev.device)
      case None => Ok(l)
      case Some(other) =>
        if !ev.transition then Err(AnotherDeviceTracking)
        else if ev.at < l.sessions[other].started then Err(AnotherDeviceNewer)
        else Ok(StopSession(l, other, ev.at))
  }

  /** Whether the device's open session cannot go on under this event, and if so when it ended. */
  function RetireAt(s: Session, ev: Event, prev: Option<Receipt>): Option<int> {
    if LeaseExpired(ev, prev) then Some(prev.value.observed + prev.value.interval * SECOND)
    else if s.task != ev.task || s.project != ev.project then Some(ev.at)
    else None
  }

  function Fresh(ev: Event, now: int): Session {
    Session(ev.user, ev.device, ev.project, ev.task, ev.status, ev.at, None, now)
  }

  /** Apply the event's status to the device's surviving session, or begin a new one. */
  function Record(l: Ledger, own: Option<SessionId>, ev: Event, now: int): (Ledger, Option<SessionId>)
    requires own.Some? ==> own.value < |l.sessions|
  {
    if own.None? then
      if ev.status == Stopped then (l, None) else (OpenSession(l, Fresh(ev, now)), Some(|l.sessions|))
    else if ev.status == Stopped then
      (StopSession(l, own.value, ev.at), None)
    else if ev.status == Paused && l.sessions[own.value].status == Active then
      (PauseSession(l, own.value, ev.at - ev.idle * SECOND, now), own)
    else if ev.status == Active && l.sessions[own.value].status == Paused then
      (ResumeSession(l, own.value, ev.at, now), own)
    else
      (TouchSession(l, own.value, now), own)
  }

  /** Retire the device's session if it cannot go on, then record the event. */
  ghost function Advance(l: Ledger, ev: Event, prev: Option<Receipt>, now: int): (Ledger, Option<SessionId>) {
    var own := OpenOn(l, ev.device);
    var retired := if own.Some? then RetireAt(l.sessions[own.value], ev, prev) else None;
    if retired.Some?
    then Record(StopSession(l, own.value, retired.value), None, ev, now)
    else Record(l, own, ev, now)
  }

  ghost function Replay(l: Ledger, ev: Event, prev: Option<Receipt>, now: int): Result<(Ledger, Option<SessionId>)> {
    match Displace(l, ev)
    case Err(e) => Err(e)
    case Ok(l1) => Ok(Advance(l1, ev, prev, now))
  }

  function ReceiptOf(ev: Event, now: int, session: Option<SessionId>): Receipt {
    Receipt(ev.at, now, ev.status, ev.task, ev.project, ev.idle, ev.interval, session)
  }

  function Remember(receipts: Receipts, ev: Event, now: int, session: Option<SessionId>): Receipts {
    if ev.id.Some? then receipts[(ev.device, ev.id.value) := ReceiptOf(ev, now, session)] else receipts
  }

  predicate AlreadyApplied(receipts: Receipts, ev: Event) {
    ev.id.Some? && (ev.device, ev.id.value) in receipts
  }

  ghost function Commit(db: Db, ev: Event, now: int, prev: Option<Receipt>): (Db, Outcome) {
    match Replay(db.ledger, ev, prev, now)
    case Err(e) => (db, Rejected(e))
    case Ok((l, session)) =>
      (Db(db.dir, l, Remember(db.receipts, ev, now, if ev.status == Stopped then None else session)), Accepted(session))
  }

  /** One call of `sync_work_session` at server time `now`, with `prev` as the latest receipt it found. */
  ghost function Sync(db: Db, req: Request, now: int, prev: Option<Receipt>): (Db, Outcome)
    requires ReferencesResolve(db.ledger)
    requires req.device in db.dir.devices
  {
    match Admit(db, req, now)
    case Err(e) => (db, Rejected(e))
    case Ok(ev) =>
      if AlreadyApplied(db.receipts, ev) then (db, Accepted(db.receipts[(ev.device, ev.id.value)].session))
      else Commit(db, if ev.id.Some? then Clamp(ev, prev) else ev, now, prev)
  }

  // ----- What every call keeps -----

  ghost predicate SessionsBelongToDevices(db: Db) {
    forall i :: 0 <= i < |db.ledger.sessions| ==>
      && db.ledger.sessions[i].device in db.dir.devices
      && db.ledger.sessions[i].user == db.dir.devices[db.ledger.sessions[i].device].owner
  }

  /** An enabled owner who is no viewer, an enabled project and, for a plain member, a tracking membership. */
  predicate Authorized(dir: Directory, user: Option<UserId>, project: Option<ProjectId>) {
    && EnabledUser(dir, user).Some? && dir.users[user.value].role != Viewer
    && project.Some? && project.value in dir.projects && dir.projects[project.value]
    && (dir.users[user.value].role == Member ==> MayTrackAsMember(dir, user.value, project.value))
  }

  ghost predicate OpenSegmentsAreAuthorized(db: Db)
    requires ReferencesResolve(db.ledger)
  {
    forall k :: 0 <= k < |db.ledger.segments| && db.ledger.segments[k].Open() ==>
      var s := db.ledger.sessions[db.ledger.segments[k].session];
      Authorized(db.dir, s.user, s.project)
  }

  /** The tables agree with each other and with the directory. */
  ghost predicate Coherent(db: Db) {
    Consistent(db.ledger) && SessionsBelongToDevices(db)
  }

  /** Besides, open work may be done by its owner. */
  ghost predicate Inv(db: Db) {
    Coherent(db) && OpenSegmentsAreAuthorized(db)
  }

  lemma AdmittedIsAuthorized(db: Db, req: Request, now: int)
    requires ReferencesResolve(db.ledger) && req.device in db.dir.devices
    requires Admit(db, req, now).Ok? && req.status == Active
    ensures Authorized(db.dir, Admit(db, req, now).value.user, Admit(db, req, now).value.project)
  {}

  /** Where the open segments of a ledger come from after an event: they were open before under the same user
      and project, or the event is active and they are its own. */
  ghost predicate OpenSegmentsExplained(l: Ledger, l': Ledger, ev: Event)
    requires ReferencesResolve(l) && ReferencesResolve(l')
  {
    forall k :: 0 <= k < |l'.segments| && l'.segments[k].Open() ==>
      var s := l'.sessions[l'.segments[k].session];
      || (ev.status == Active && s.user == ev.user && s.project == ev.project)
      || (k < |l.segments| && l.segments[k].Open() && l.segments[k].session == l'.segments[k].session
          && s.user == l.sessions[l.segments[k].session].user
          && s.project == l.sessions[l.segments[k].session].project)
  }

  ghost predicate OwnersAgree(l: Ledger, ev: Event) {
    forall i :: 0 <= i < |l.sessions| && l.sessions[i].device == ev.device ==> l.sessions[i].user == ev.user
  }

  /** Sessions are never removed, and never change their owner, device, work or start. */
  ghost predicate SessionsPersist(l: Ledger, l': Ledger, ev: Event) {
    && |l.sessions| <= |l'.sessions|
    && (forall i :: 0 <= i < |l.sessions| ==>
          && l'.sessions[i].user == l.sessions[i].user && l'.sessions[i].device == l.sessions[i].device
          && l'.sessions[i].project == l.sessions[i].project && l'.sessions[i].task == l.sessions[i].task
          && l'.sessions[i].started == l.sessions[i].started)
    && (forall i :: |l.sessions| <= i < |l'.sessions| ==>
          l'.sessions[i].device == ev.device && l'.sessions[i].user == ev.user)
  }

  lemma DisplaceKeeps(l: Ledger, ev: Event)
    requires Consistent(l) && OwnersAgree(l, ev)
    requires Displace(l, ev).Ok?
    ensures var l' := Displace(l, ev).value;
      && Consistent(l') && (WellFormed(l) ==> WellFormed(l')) && OwnersAgree(l', ev)
      && OpenSegmentsExplained(l, l', ev) && SessionsPersist(l, l', ev) && |l'.sessions| == |l.sessions|
      && (ev.status != Stopped && ev.user.Some? ==>
            forall i :: 0 <= i < |l'.sessions| && l'.sessions[i].Open() && l'.sessions[i].user == ev.user ==>
              l'.sessions[i].device == ev.device)
  {
    if ev.status != Stopped && ev.user.Some? {
      var other := OpenElsewhere(l, ev.user.value, ev.device);
      if other.Some? {
        StopSessionStops(l, other.value, ev.at);
        StopsKeepsConsistent(l, StopSession(l, other.value, ev.at), {other.value});
      }
    }
  }

  /** The session an event is recorded on is open and belongs to the event's user and project. */
  ghost predicate Matches(l: Ledger, own: Option<SessionId>, ev: Event) {
    own.Some? ==>
      && own.value < |l.sessions| && l.sessions[own.value].Open()
      && l.sessions[own.value].user == ev.user && l.sessions[own.value].project == ev.project
  }

  ghost predicate NothingOpenFor(l: Ledger, ev: Event) {
    forall i :: 0 <= i < |l.sessions| && l.sessions[i].Open() ==>
      l.sessions[i].device != ev.device && (ev.user.Some? ==> l.sessions[i].user != ev.user)
  }

  lemma RecordKeepsConsistent(l: Ledger, own: Option<SessionId>, ev: Event, now: int)
    requires Consistent(l) && Matches(l, own, ev)
    requires own.None? && ev.status != Stopped ==> NothingOpenFor(l, ev)
    ensures Consistent(Record(l, own, ev, now).0)
    ensures WellFormed(l) ==> WellFormed(Record(l, own, ev, now).0)
  {
    if own.None? {
      if ev.status != Stopped {
        OpenSessionKeepsConsistent(l, Fresh(ev, now));
      }
    } else if ev.status == Stopped {
      StopSessionStops(l, own.value, ev.at);
      StopsKeepsConsistent(l, StopSession(l, own.value, ev.at), {own.value});
    } else if ev.status == Paused && l.sessions[own.value].status == Active {
      PauseKeepsConsistent(l, own.value, ev.at - ev.idle * SECOND, now);
    } else if ev.status == Active && l.sessions[own.value].status == Paused {
      ResumeKeepsConsistent(l, own.value, ev.at, now);
    } else {
      TouchKeepsConsistent(l, own.value, now);
    }
  }

  lemma RecordExplains(l: Ledger, own: Option<SessionId>, ev: Event, now: int)
    requires Consistent(l) && Matches(l, own, ev)
    requires Consistent(Record(l, own, ev, now).0)
    ensures OpenSegmentsExplained(l, Record(l, own, ev, now).0, ev)
    ensures SessionsPersist(l, Record(l, own, ev, now).0, ev)
  {}

  /** The session gives way to a new one for the event. */
  lemma RetireKeeps(l: Ledger, own: SessionId, at: int, ev: Event, now: int)
    requires Consistent(l) && OwnersAgree(l, ev)
    requires own < |l.sessions| && l.sessions[own].Open() && l.sessions[own].device == ev.device
    requires ev.status != Stopped && ev.user.Some? ==>
      forall i :: 0 <= i < |l.sessions| && l.sessions[i].Open() && l.sessions[i].user == ev.user ==>
        l.sessions[i].device == ev.device
    ensures var l' := Record(StopSession(l, own, at), None, ev, now).0;
      && Consistent(l') && (WellFormed(l) ==> WellFormed(l'))
      && OpenSegmentsExplained(l, l', ev) && SessionsPersist(l, l', ev)
  {
    RetireStops(l, own, at, ev);
    var l1 := StopSession(l, own, at);
    RecordKeepsConsistent(l1, None, ev, now);
    RecordExplains(l1, None, ev, now);
    StoppingFirstExplains(l, l1, Record(l1, None, ev, now).0, own, ev);
  }

  lemma StoppingFirstExplains(l: Ledger, l1: Ledger, l': Ledger, own: SessionId, ev: Event)
    requires Consistent(l) && Consistent(l1) && Consistent(l') && Stops(l, l1, {own})
    requires OpenSegmentsExplained(l1, l', ev) && SessionsPersist(l1, l', ev)
    ensures OpenSegmentsExplained(l, l', ev) && SessionsPersist(l, l', ev)
  {}

  lemma RetireStops(l: Ledger, own: SessionId, at: int, ev: Event)
    requires Consistent(l) && OwnersAgree(l, ev)
    requires own < |l.sessions| && l.sessions[own].Open() && l.sessions[own].device == ev.device
    requires ev.status != Stopped && ev.user.Some? ==>
      forall i :: 0 <= i < |l.sessions| && l.sessions[i].Open() && l.sessions[i].user == ev.user ==>
        l.sessions[i].device == ev.device
    ensures Stops(l, StopSession(l, own, at), {own}) && Consistent(StopSession(l, own, at))
    ensures WellFormed(l) ==> WellFormed(StopSession(l, own, at))
    ensures ev.status != Stopped ==> NothingOpenFor(StopSession(l, own, at), ev)
  {
    StopSessionStops(l, own, at);
    StopsKeepsConsistent(l, StopSession(l, own, at), {own});
  }

  lemma AdvanceKeeps(l: Ledger, ev: Event, prev: Option<Receipt>, now: int)
    requires Consistent(l) && OwnersAgree(l, ev)
    requires ev.status != Stopped && ev.user.Some? ==>
      forall i :: 0 <= i < |l.sessions| && l.sessions[i].Open() && l.sessions[i].user == ev.user ==>
        l.sessions[i].device == ev.device
    ensures var l' := Advance(l, ev, prev, now).0;
      && Consistent(l') && (WellFormed(l) ==> WellFormed(l'))
      && OpenSegmentsExplained(l, l', ev) && SessionsPersist(l, l', ev)
  {
    var own := OpenOn(l, ev.device);
    if own.Some? {
      var retired := RetireAt(l.sessions[own.value], ev, prev);
      if retired.Some? {
        RetireKeeps(l, own.value, retired.value, ev, now);
      } else {
        RecordKeepsConsistent(l, own, ev, now);
        RecordExplains(l, own, ev, now);
      }
    } else {
      RecordKeepsConsistent(l, None, ev, now);
      RecordExplains(l, None, ev, now);
    }
  }

  lemma ReplayKeeps(l: Ledger, ev: Event, prev: Option<Receipt>, now: int)
    requires Consistent(l) && OwnersAgree(l, ev)
    requires Replay(l, ev, prev, now).Ok?
    ensures var l' := Replay(l, ev, prev, now).value.0;
      && Consistent(l') && (WellFormed(l) ==> WellFormed(l'))
      && OpenSegmentsExplained(l, l', ev) && SessionsPersist(l, l', ev)
  {
    DisplaceKeeps(l, ev);
    AdvanceKeeps(Displace(l, ev).value, ev, prev, now);
  }

  lemma CommitKeepsInv(db: Db, ev: Event, now: int, prev: Option<Receipt>)
    requires Coherent(db) && ev.device in db.dir.devices && ev.user == db.dir.devices[ev.device].owner
    requires ev.status == Active ==> Authorized(db.dir, ev.user, ev.project)
    ensures Coherent(Commit(db, ev, now, prev).0)
    ensures Inv(db) ==> Inv(Commit(db, ev, now, prev).0)
    ensures WellFormed(db.ledger) ==> WellFormed(Commit(db, ev, now, prev).0.ledger)
  {
    var replayed := Replay(db.ledger, ev, prev, now);
    if replayed.Ok? {
      ReplayKeeps(db.ledger, ev, prev, now);
      var l' := replayed.value.0;
      forall k | OpenSegmentsAreAuthorized(db) && 0 <= k < |l'.segments| && l'.segments[k].Open()
        ensures var s := l'.sessions[l'.segments[k].session]; Authorized(db.dir, s.user, s.project)
      {}
    }
  }

  /** Every call keeps the tables consistent and authorized, whatever the request and whichever of the
      latest receipts it picks; in particular neither partial unique index can ever fire. */
  lemma SyncKeepsInv(db: Db, req: Request, now: int, prev: Option<Receipt>)
    requires Coherent(db) && req.device in db.dir.devices
    ensures Coherent(Sync(db, req, now, prev).0)
    ensures Inv(db) ==> Inv(Sync(db, req, now, prev).0)
    ensures WellFormed(db.ledger) ==> WellFormed(Sync(db, req, now, prev).0.ledger)
  {
    match Admit(db, req, now) {
      case Err(_) =>
      case Ok(ev) =>
        if req.status == Active {
          AdmittedIsAuthorized(db, req, now);
        }
        CommitKeepsInv(db, if ev.id.Some? then Clamp(ev, prev) else ev, now, prev);
    }
  }

  // ----- What one call achieves -----

  /** A retry of an accepted event changes nothing, and if it is not turned away at the door it gets the same answer. */
  lemma RetryIsHarmless(db: Db, req: Request, now: int, prev: Option<Receipt>, later: int, prev': Option<Receipt>)
    requires Coherent(db) && req.device in db.dir.devices && req.id.Some?
    requires Sync(db, req, now, prev).1.Accepted?
    ensures Coherent(Sync(db, req, now, prev).0)
    ensures var (db1, first) := Sync(db, req, now, prev);
      var (db2, second) := Sync(db1, req, later, prev');
      db2 == db1 && (second.Accepted? ==> second == first)
  {
    SyncKeepsInv(db, req, now, prev);
  }

  /** The device's open session after an accepted event carries exactly the event's work and status, and it is
      the only open session of the device and of its owner; after a stop the device has none. */
  ghost predicate IsCurrent(l: Ledger, ev: Event, session: Option<SessionId>) {
    if ev.status == Stopped then
      session.None? && forall i :: 0 <= i < |l.sessions| && l.sessions[i].Open() ==> l.sessions[i].device != ev.device
    else
      && session.Some? && session.value < |l.sessions|
      && l.sessions[session.value].Open()
      && l.sessions[session.value].device == ev.device && l.sessions[session.value].user == ev.user
      && l.sessions[session.value].task == ev.task && l.sessions[session.value].project == ev.project
      && l.sessions[session.value].status == ev.status
      && (forall i :: 0 <= i < |l.sessions| && l.sessions[i].Open() && i != session.value ==>
            l.sessions[i].device != ev.device && (ev.user.Some? ==> l.sessions[i].user != ev.user))
  }

  lemma AdvanceIsCurrent(l: Ledger, ev: Event, prev: Option<Receipt>, now: int)
    requires Consistent(l) && OwnersAgree(l, ev)
    requires Consistent(Advance(l, ev, prev, now).0)
    ensures IsCurrent(Advance(l, ev, prev, now).0, ev, Advance(l, ev, prev, now).1)
  {
    var own := OpenOn(l, ev.device);
    if own.Some? && RetireAt(l.sessions[own.value], ev, prev).Some? {
      var at := RetireAt(l.sessions[own.value], ev, prev).value;
      StopSessionStops(l, own.value, at);
      StopsKeepsConsistent(l, StopSession(l, own.value, at), {own.value});
    }
  }

  /** An accepted event that is no replay makes its work the current work of its device and of its owner. */
  lemma AcceptedEventIsCurrent(db: Db, req: Request, now: int, prev: Option<Receipt>)
    requires Coherent(db) && req.device in db.dir.devices
    requires Admit(db, req, now).Ok? && !AlreadyApplied(db.receipts, Admit(db, req, now).value)
    requires Sync(db, req, now, prev).1.Accepted?
    ensures IsCurrent(Sync(db, req, now, prev).0.ledger, Admit(db, req, now).value, Sync(db, req, now, prev).1.session)
  {
    var ev := if req.id.Some? then Clamp(Admit(db, req, now).value, prev) else Admit(db, req, now).value;
    DisplaceKeeps(db.ledger, ev);
    var l1 := Displace(db.ledger, ev).value;
    AdvanceKeeps(l1, ev, prev, now);
    AdvanceIsCurrent(l1, ev, prev, now);
  }

  /** The switch rule: with the owner tracking on another device, an active or paused event gets through only
      as an explicit transition that is not older than that session, and then it ends that session at the
      (clamped) instant of the event. */
  lemma SwitchRule(db: Db, ev: Event, now: int, prev: Option<Receipt>)
    requires Coherent(db) && OwnersAgree(db.ledger, ev) && ev.status != Stopped && ev.user.Some?
    requires OpenElsewhere(db.ledger, ev.user.value, ev.device).Some?
    ensures var other := OpenElsewhere(db.ledger, ev.user.value, ev.device).value;
      var (db', outcome) := Commit(db, ev, now, prev);
      && (outcome.Accepted? <==> ev.transition && ev.at >= db.ledger.sessions[other].started)
      && (outcome.Rejected? ==> db' == db)
      && (outcome.Accepted? ==>
            db'.ledger.sessions[other]
                == db.ledger.sessions[other].(status := Stopped, ended := Some(ev.at), updated := ev.at))
  {
    if Displace(db.ledger, ev).Ok? {
      DisplaceKeeps(db.ledger, ev);
      AdvanceKeeps(Displace(db.ledger, ev).value, ev, prev, now);
    }
  }

  predicate Foreign(s: Session, ev: Event) {
    s.device != ev.device && (ev.user.None? || s.user != ev.user)
  }

  ghost predicate ForeignRowsKept(l: Ledger, l': Ledger, ev: Event)
    requires ReferencesResolve(l)
  {
    && |l.sessions| <= |l'.sessions| && |l.segments| <= |l'.segments|
    && (forall i :: 0 <= i < |l.sessions| && Foreign(l.sessions[i], ev) ==> l'.sessions[i] == l.sessions[i])
    && (forall k :: 0 <= k < |l.segments| && Foreign(l.sessions[l.segments[k].session], ev) ==>
          l'.segments[k] == l.segments[k])
  }

  lemma RecordKeepsForeignRows(l: Ledger, own: Option<SessionId>, ev: Event, now: int)
    requires ReferencesResolve(l)
    requires own.Some? ==> own.value < |l.sessions| && l.sessions[own.value].device == ev.device
    ensures ForeignRowsKept(l, Record(l, own, ev, now).0, ev)
  {}

  lemma AdvanceKeepsForeignRows(l: Ledger, ev: Event, prev: Option<Receipt>, now: int)
    requires ReferencesResolve(l)
    ensures ForeignRowsKept(l, Advance(l, ev, prev, now).0, ev)
  {
    var own := OpenOn(l, ev.device);
    if own.Some? && RetireAt(l.sessions[own.value], ev, prev).Some? {
      var l1 := StopSession(l, own.value, RetireAt(l.sessions[own.value], ev, prev).value);
      RecordKeepsForeignRows(l1, None, ev, now);
    } else {
      RecordKeepsForeignRows(l, own, ev, now);
    }
  }

  /** A call leaves the sessions of other people's devices, and their segments, as they were. */
  lemma OthersAreUntouched(db: Db, ev: Event, now: int, prev: Option<Receipt>)
    requires Coherent(db)
    ensures ForeignRowsKept(db.ledger, Commit(db, ev, now, prev).0.ledger, ev)
  {
    if Displace(db.ledger, ev).Ok? {
      var l1 := Displace(db.ledger, ev).value;
      assert ForeignRowsKept(db.ledger, l1, ev);
      AdvanceKeepsForeignRows(l1, ev, prev, now);
    }
  }

  // ----- Locked days -----

  /** The day of the request is checked before its time is clamped. */
  predicate ClampsIntoALockedDay(dir: Directory, user: Option<UserId>, req: Request, prev: Option<Receipt>) {
    && req.id.Some? && prev.Some? && req.at < prev.value.observed
    && user.Some? && (user.value, DayOf(prev.value.observed)) in dir.lockedDays
  }

  lemma NewSegmentsStartAtTheEvent(l: Ledger, ev: Event, prev: Option<Receipt>, now: int)
    requires Replay(l, ev, prev, now).Ok?
    ensures var l' := Replay(l, ev, prev, now).value.0;
            forall k :: |l.segments| <= k < |l'.segments| ==> ev.status == Active && l'.segments[k].start == ev.at
  {}

  /** Work that a call begins lies on a day of the owner's that is not locked, except exactly when the agent's clock
      stepped back and the clamp moves the event into a locked day. */
  lemma LockedDaysGetNoNewWork(db: Db, req: Request, now: int, prev: Option<Receipt>)
    requires Coherent(db) && req.device in db.dir.devices
    ensures var owner, l' := db.dir.devices[req.device].owner, Sync(db, req, now, prev).0.ledger;
            forall k :: |db.ledger.segments| <= k < |l'.segments| ==>
              (owner.Some? && (owner.value, DayOf(l'.segments[k].start)) in db.dir.lockedDays
               <==> ClampsIntoALockedDay(db.dir, owner, req, prev))
  {
    if Admit(db, req, now).Ok? {
      var ev := Admit(db, req, now).value;
      if !AlreadyApplied(db.receipts, ev) {
        var clamped := if ev.id.Some? then Clamp(ev, prev) else ev;
        if Replay(db.ledger, clamped, prev, now).Ok? {
          NewSegmentsStartAtTheEvent(db.ledger, clamped, prev, now);
        }
      }
    }
  }

  /** The exception happens: a stop was journalled on day 1, day 1 was locked, and an event of day 0 starts work on
      day 1. */
  lemma ALockedDayCanGetWork(now: int) returns (db: Db, req: Request, prev: Option<Receipt>)
    ensures Inv(db) && req.device in db.dir.devices && IsPrevious(db.receipts, req.device, prev)
    ensures ClampsIntoALockedDay(db.dir, db.dir.devices[req.device].owner, req, prev)
    ensures Sync(db, req, now, prev).1.Accepted?
    ensures Sync(db, req, now, prev).0.ledger.segments == [Segment(0, DAY, None)]
  {
    var dir := Directory(map[0 := User(true, Admin, 0, 0)], map[0 := Device(Some(0), Some(0), true, true)],
                         map[0 := true], map[], map[], {(0, 1)}, {});
    var stop := Receipt(DAY, now, Stopped, None, Some(0), 0, 60, None);
    prev := Some(stop);
    db := Db(dir, Ledger([], []), map[(0, 1) := stop]);
    req := Request(0, Some(2), Active, None, None, 0, 0, 60, false);
    assert (0, 1) in db.receipts && db.receipts[(0, 1)] == stop;
    var ev := Admit(db, req, now).value;
    assert OpenOn(db.ledger, 0) == None;
    assert OpenElsewhere(db.ledger, 0, 0) == None;
    assert Advance(db.ledger, Clamp(ev, prev), prev, now).0 == OpenSession(db.ledger, Fresh(Clamp(ev, prev), now));
  }
}
