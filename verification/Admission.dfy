/** When a request is admitted, and with which error it is refused otherwise, in terms of the tables alone. */
module Admission {
  import opened Records
  import opened TimeLedger
  import opened WorkSync
  import opened TrackedTime

  // ----- Time against the limits -----

  /** The segments of a user that start between two instants. */
  function StartedBetween(l: Ledger, segments: seq<Segment>, user: UserId, lo: int, hi: int): seq<Segment>
    requires forall k :: 0 <= k < |segments| ==> segments[k].session < |l.sessions|
  {
    if segments == [] then []
    else
      var g := segments[|segments| - 1];
      var rest := StartedBetween(l, segments[..|segments| - 1], user, lo, hi);
      if l.sessions[g.session].user == Some(user) && lo <= g.start < hi then rest + [g] else rest
  }

  /** The time of the user's segments that start on a day, an open one up to now. */
  function TimeOfDay(l: Ledger, user: UserId, day: int, now: int): int
    requires ReferencesResolve(l)
  {
    Tracked(StartedBetween(l, l.segments, user, day * DAY, (day + 1) * DAY), now)
  }

  /** The same over the seven days from one on. */
  function TimeOfSevenDays(l: Ledger, user: UserId, day: int, now: int): int
    requires ReferencesResolve(l)
  {
    TimeOfDay(l, user, day, now) + TimeOfDay(l, user, day + 1, now) + TimeOfDay(l, user, day + 2, now)
    + TimeOfDay(l, user, day + 3, now) + TimeOfDay(l, user, day + 4, now) + TimeOfDay(l, user, day + 5, now)
    + TimeOfDay(l, user, day + 6, now)
  }

  /** The day holds the instant, counted from 1 January 1970. */
  predicate IsDayOf(day: int, at: int) { day * 86_400_000_000 <= at < (day + 1) * 86_400_000_000 }

  /** The Monday of the week that holds the day; 5 January 1970 was one. */
  predicate IsMondayOf(monday: int, day: int) {
    monday <= day < monday + 7 && (monday - 4) % 7 == 0
  }

  // ----- Reasons for refusal -----

  predicate IsEnabledUser(dir: Directory, user: Option<UserId>) {
    user.Some? && user.value in dir.users && dir.users[user.value].enabled
  }

  /** The project a request is for: its own, or else the one its device is assigned to. */
  function Wanted(db: Db, req: Request): Option<ProjectId>
    requires req.device in db.dir.devices
  {
    if req.project == None then db.dir.devices[req.device].project else req.project
  }

  predicate IsPlainMember(dir: Directory, user: Option<UserId>) {
    IsEnabledUser(dir, user) && dir.users[user.value].role == Member
  }

  predicate IsTrackingMember(dir: Directory, project: ProjectId, user: UserId) {
    (project, user) in dir.members && dir.members[(project, user)] != ProjectViewer
  }

  ghost predicate ExceedsDailyLimit(db: Db, req: Request, now: int, user: UserId)
    requires ReferencesResolve(db.ledger) && user in db.dir.users
  {
    var minutes := db.dir.users[user].dailyLimit;
    minutes > 0 && exists day :: IsDayOf(day, req.at) && TimeOfDay(db.ledger, user, day, now) >= minutes * 60_000_000
  }

  ghost predicate ExceedsWeeklyLimit(db: Db, req: Request, now: int, user: UserId)
    requires ReferencesResolve(db.ledger) && user in db.dir.users
  {
    var minutes := db.dir.users[user].weeklyLimit;
    && minutes > 0
    && exists day, monday ::
         && IsDayOf(day, req.at) && IsMondayOf(monday, day)
         && TimeOfSevenDays(db.ledger, user, monday, now) >= minutes * 60_000_000
  }

  /** What is wrong with a request, whatever else may be: all but the last three only matter to an active one. */
  ghost predicate Objection(db: Db, req: Request, now: int, e: Error)
    requires ReferencesResolve(db.ledger) && req.device in db.dir.devices
  {
    var device := db.dir.devices[req.device];
    var user, project := device.owner, Wanted(db, req);
    match e
    case PeriodLocked =>
      req.status == Active && user.Some? && exists day :: IsDayOf(day, req.at) && (user.value, day) in db.dir.lockedDays
    case ViewerCannotTrack =>
      req.status == Active && IsEnabledUser(db.dir, user) && db.dir.users[user.value].role == Viewer
    case OwnerUnavailable => req.status == Active && !IsEnabledUser(db.dir, user)
    case ProjectUnavailable =>
      req.status == Active && (project == None || project.value !in db.dir.projects || !db.dir.projects[project.value])
    case MemberCannotTrack =>
      req.status == Active && IsPlainMember(db.dir, user) && project.Some?
      && !IsTrackingMember(db.dir, project.value, user.value)
    case DailyLimitReached =>
      req.status == Active && IsPlainMember(db.dir, user) && ExceedsDailyLimit(db, req, now, user.value)
    case WeeklyLimitReached =>
      req.status == Active && IsPlainMember(db.dir, user) && ExceedsWeeklyLimit(db, req, now, user.value)
    case TaskNotActive => req.task.Some? && (req.task.value in db.dir.tasks ==> !db.dir.tasks[req.task.value].active)
    case TaskElsewhere =>
      req.task.Some? && req.task.value in db.dir.tasks && project.Some?
      && db.dir.tasks[req.task.value].project != project.value
    case DesktopRequired =>
      req.status == Active && user.Some? && !device.desktop && user.value in db.dir.desktopOnly
    case AnotherDeviceTracking => false
    case AnotherDeviceNewer => false
  }

  /** The order in which objections are raised. */
  const Order: seq<Error> := [
    PeriodLocked, ViewerCannotTrack, OwnerUnavailable, ProjectUnavailable, MemberCannotTrack, DailyLimitReached,
    WeeklyLimitReached, TaskNotActive, TaskElsewhere, DesktopRequired]

  /** The first objection from a place in that order on. */
  ghost function FirstObjection(db: Db, req: Request, now: int, i: nat): Option<Error>
    requires ReferencesResolve(db.ledger) && req.device in db.dir.devices && i <= |Order|
    decreases |Order| - i
  {
    if i == |Order| then None
    else if Objection(db, req, now, Order[i]) then Some(Order[i])
    else FirstObjection(db, req, now, i + 1)
  }

  // ----- The limits are what they say -----

  lemma {:induction false} StartedIsCounted(l: Ledger, count: nat, user: UserId, first: int, last: int, now: int)
    requires ReferencesResolve(l) && count <= |l.segments|
    ensures TimeStartedBetween(l, count, user, first, last, now)
         == Tracked(StartedBetween(l, l.segments[..count], user, first * DAY, (last + 1) * DAY), now)
  {
    if count > 0 {
      var g := l.segments[count - 1];
      StartedIsCounted(l, count - 1, user, first, last, now);
      assert l.segments[..count][..count - 1] == l.segments[..count - 1];
      DayIsBetween(g.start, first, last);
      var before := StartedBetween(l, l.segments[..count - 1], user, first * DAY, (last + 1) * DAY);
      TrackedAppend(before, g, now);
    }
  }

  lemma DayIsBetween(at: int, first: int, last: int)
    ensures first <= DayOf(at) <= last <==> first * DAY <= at < (last + 1) * DAY
  {}

  lemma DayIsUnique(day: int, at: int)
    ensures IsDayOf(day, at) <==> day == DayOf(at)
  {}

  lemma {:induction false} StretchesAdd(l: Ledger, segments: seq<Segment>, user: UserId, lo: int, mid: int, hi: int,
      now: int)
    requires forall k :: 0 <= k < |segments| ==> segments[k].session < |l.sessions|
    requires lo <= mid <= hi
    ensures Tracked(StartedBetween(l, segments, user, lo, hi), now)
         == Tracked(StartedBetween(l, segments, user, lo, mid), now)
             + Tracked(StartedBetween(l, segments, user, mid, hi), now)
  {
    if segments != [] {
      var front, g := segments[..|segments| - 1], segments[|segments| - 1];
      StretchesAdd(l, front, user, lo, mid, hi, now);
      TrackedAppend(StartedBetween(l, front, user, lo, hi), g, now);
      TrackedAppend(StartedBetween(l, front, user, lo, mid), g, now);
      TrackedAppend(StartedBetween(l, front, user, mid, hi), g, now);
    }
  }

  lemma DayIsCounted(l: Ledger, user: UserId, day: int, now: int)
    requires ReferencesResolve(l)
    ensures TrackedWithin(l, user, day, day, now) == TimeOfDay(l, user, day, now)
  {
    StartedIsCounted(l, |l.segments|, user, day, day, now);
    assert l.segments[..|l.segments|] == l.segments;
  }

  lemma WeekIsCounted(l: Ledger, user: UserId, monday: int, now: int)
    requires ReferencesResolve(l)
    ensures TrackedWithin(l, user, monday, monday + 6, now) == TimeOfSevenDays(l, user, monday, now)
  {
    StartedIsCounted(l, |l.segments|, user, monday, monday + 6, now);
    assert l.segments[..|l.segments|] == l.segments;
    DaysAdd(l, user, monday, 6, now);
    DaysAdd(l, user, monday, 5, now);
    DaysAdd(l, user, monday, 4, now);
    DaysAdd(l, user, monday, 3, now);
    DaysAdd(l, user, monday, 2, now);
    DaysAdd(l, user, monday, 1, now);
  }

  lemma DaysAdd(l: Ledger, user: UserId, day: int, n: nat, now: int)
    requires ReferencesResolve(l)
    ensures Tracked(StartedBetween(l, l.segments, user, day * DAY, (day + n + 1) * DAY), now)
         == Tracked(StartedBetween(l, l.segments, user, day * DAY, (day + n) * DAY), now)
             + TimeOfDay(l, user, day + n, now)
  {
    StretchesAdd(l, l.segments, user, day * DAY, (day + n) * DAY, (day + n + 1) * DAY, now);
  }

  lemma MondayIsUnique(monday: int, day: int)
    ensures IsMondayOf(monday, day) <==> monday == MondayOf(day)
  {
    assert MondayOf(day) == 4 + 7 * ((day + 3) / 7 - 1);
  }

  lemma DailyLimitIsChecked(db: Db, req: Request, now: int, user: UserId)
    requires ReferencesResolve(db.ledger) && user in db.dir.users
    ensures var limit, day := db.dir.users[user].dailyLimit, DayOf(req.at);
      ExceedsDailyLimit(db, req, now, user) <==>
        limit != 0 && TrackedWithin(db.ledger, user, day, day, now) >= limit * MINUTE
  {
    forall d ensures IsDayOf(d, req.at) <==> d == DayOf(req.at) { DayIsUnique(d, req.at); }
    DayIsCounted(db.ledger, user, DayOf(req.at), now);
  }

  lemma WeeklyLimitIsChecked(db: Db, req: Request, now: int, user: UserId)
    requires ReferencesResolve(db.ledger) && user in db.dir.users
    ensures var limit, monday := db.dir.users[user].weeklyLimit, MondayOf(DayOf(req.at));
      ExceedsWeeklyLimit(db, req, now, user) <==>
        limit != 0 && TrackedWithin(db.ledger, user, monday, monday + 6, now) >= limit * MINUTE
  {
    forall d ensures IsDayOf(d, req.at) <==> d == DayOf(req.at) { DayIsUnique(d, req.at); }
    forall m, d ensures IsMondayOf(m, d) <==> m == MondayOf(d) { MondayIsUnique(m, d); }
    WeekIsCounted(db.ledger, user, MondayOf(DayOf(req.at)), now);
    assert IsDayOf(DayOf(req.at), req.at) && IsMondayOf(MondayOf(DayOf(req.at)), DayOf(req.at));
  }

  lemma LimitsAreChecked(db: Db, req: Request, now: int, user: UserId)
    requires ReferencesResolve(db.ledger) && user in db.dir.users
    ensures CheckLimits(db.ledger, user, db.dir.users[user], req.at, now)
         == if ExceedsDailyLimit(db, req, now, user) then Some(DailyLimitReached)
            else if ExceedsWeeklyLimit(db, req, now, user) then Some(WeeklyLimitReached) else None
  {
    DailyLimitIsChecked(db, req, now, user);
    WeeklyLimitIsChecked(db, req, now, user);
  }

  // ----- Admission -----

  /** The checks that only an active request must pass raise the first objection among the first seven. */
  lemma ActiveUnlessObjected(db: Db, req: Request, now: int)
    requires ReferencesResolve(db.ledger) && req.device in db.dir.devices && req.status == Active
    ensures var refusal := CheckActive(db, db.dir.devices[req.device], Wanted(db, req), req.at, now);
      FirstObjection(db, req, now, 0) == if refusal.Some? then refusal else FirstObjection(db, req, now, 7)
  {
    DayIsUnique(DayOf(req.at), req.at);
    forall d ensures IsDayOf(d, req.at) <==> d == DayOf(req.at) { DayIsUnique(d, req.at); }
    var user := db.dir.devices[req.device].owner;
    if user.Some? && user.value in db.dir.users {
      LimitsAreChecked(db, req, now, user.value);
    }
    assert FirstObjection(db, req, now, 5)
        == if Objection(db, req, now, DailyLimitReached) then Some(DailyLimitReached)
           else if Objection(db, req, now, WeeklyLimitReached) then Some(WeeklyLimitReached)
           else FirstObjection(db, req, now, 7);
    assert FirstObjection(db, req, now, 3)
        == if Objection(db, req, now, ProjectUnavailable) then Some(ProjectUnavailable)
           else if Objection(db, req, now, MemberCannotTrack) then Some(MemberCannotTrack)
           else FirstObjection(db, req, now, 5);
    assert FirstObjection(db, req, now, 1)
        == if Objection(db, req, now, ViewerCannotTrack) then Some(ViewerCannotTrack)
           else if Objection(db, req, now, OwnerUnavailable) then Some(OwnerUnavailable)
           else FirstObjection(db, req, now, 3);
  }

  lemma OthersSkipTheChecks(db: Db, req: Request, now: int)
    requires ReferencesResolve(db.ledger) && req.device in db.dir.devices && req.status != Active
    ensures FirstObjection(db, req, now, 0) == FirstObjection(db, req, now, 7)
  {
    assert FirstObjection(db, req, now, 5) == FirstObjection(db, req, now, 6) == FirstObjection(db, req, now, 7);
    assert FirstObjection(db, req, now, 3) == FirstObjection(db, req, now, 4) == FirstObjection(db, req, now, 5);
    assert FirstObjection(db, req, now, 1) == FirstObjection(db, req, now, 2) == FirstObjection(db, req, now, 3);
  }

  /** The first objection decides; without one the request is admitted for its device's owner, on its task's project if
      it names a task, and otherwise as it came. */
  lemma AdmittedUnlessObjected(db: Db, req: Request, now: int)
    requires ReferencesResolve(db.ledger) && req.device in db.dir.devices
    ensures match FirstObjection(db, req, now, 0)
            case Some(e) => Admit(db, req, now) == Err(e)
            case None =>
              Admit(db, req, now) == Ok(Event(req.id, req.device, db.dir.devices[req.device].owner, req.status,
                  req.task,
                if req.task.Some? && req.task.value in db.dir.tasks
                then Some(db.dir.tasks[req.task.value].project) else Wanted(db, req),
                req.at, req.idle, req.interval, req.transition))
  {
    if req.status == Active {
      ActiveUnlessObjected(db, req, now);
    } else {
      OthersSkipTheChecks(db, req, now);
    }
    assert FirstObjection(db, req, now, 8)
        == if Objection(db, req, now, TaskElsewhere) then Some(TaskElsewhere)
           else if Objection(db, req, now, DesktopRequired) then Some(DesktopRequired) else None;
    assert FirstObjection(db, req, now, 7)
        == if Objection(db, req, now, TaskNotActive) then Some(TaskNotActive) else FirstObjection(db, req, now, 8);
  }

  /** So a request is recorded or a known retry only if nothing is objected; a refusal at the door names the first
      objection and leaves the tables alone. */
  lemma ObjectedIsRejected(db: Db, req: Request, now: int, prev: Option<Receipt>)
    requires ReferencesResolve(db.ledger) && req.device in db.dir.devices
    requires FirstObjection(db, req, now, 0).Some?
    ensures Sync(db, req, now, prev) == (db, Rejected(FirstObjection(db, req, now, 0).value))
  {
    AdmittedUnlessObjected(db, req, now);
  }
}
