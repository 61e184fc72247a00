/** What each change from outside does to every row: which work it ends and when, which devices it concerns, and that it
    leaves everything else as it was. */
module ClosedWork {
  import opened Records
  import opened TimeLedger
  import opened WorkSync
  import opened Closers
  import opened ServerRuns
  import Compaction

  /** When something that began at an instant ends: now, unless the statement compares and it began later. */
  function EndOf(start: int, now: int, compares: bool): int {
    if compares && now < start then start else now
  }

  /** The open work that a condition on sessions selects has ended, and every other row is unchanged. */
  ghost predicate EndsExactly(l: Ledger, l': Ledger, scope: Session -> bool, now: int, compares: bool)
    requires ReferencesResolve(l)
  {
    && |l'.sessions| == |l.sessions| && |l'.segments| == |l.segments|
    && (forall i :: 0 <= i < |l.sessions| ==>
          l'.sessions[i] ==
            if l.sessions[i].status == Stopped || !scope(l.sessions[i]) then l.sessions[i]
            else l.sessions[i].(status := Stopped, ended := Some(EndOf(l.sessions[i].started, now, compares)),
                                updated := now))
    && (forall k :: 0 <= k < |l.segments| ==>
          l'.segments[k] ==
            if l.segments[k].end.Some? || !scope(l.sessions[l.segments[k].session]) then l.segments[k]
            else l.segments[k].(end := Some(EndOf(l.segments[k].start, now, compares))))
  }

  /** Nothing in the scope runs any more. */
  ghost predicate NothingRuns(l: Ledger, scope: Session -> bool)
    requires ReferencesResolve(l)
  {
    && (forall i :: 0 <= i < |l.sessions| && scope(l.sessions[i]) ==> l.sessions[i].status == Stopped)
    && (forall k :: 0 <= k < |l.segments| && scope(l.sessions[l.segments[k].session]) ==> l.segments[k].end.Some?)
  }

  // ----- Whose work -----

  function InProject(project: ProjectId): Session -> bool { (s: Session) => s.project == Some(project) }

  function OfMembership(project: ProjectId, user: UserId): Session -> bool {
    (s: Session) => s.project == Some(project) && s.user == Some(user)
  }

  function OfPerson(user: UserId): Session -> bool { (s: Session) => s.user == Some(user) }

  function OnDevice(device: DeviceId): Session -> bool { (s: Session) => s.device == device }

  function OnTask(task: TaskId): Session -> bool { (s: Session) => s.task == Some(task) }

  // ----- Ending it -----

  lemma StopAllEndsExactly(l: Ledger, s: Scope, now: int, scope: Session -> bool)
    requires Consistent(l) && (forall x: Session :: InScope(x, s) <==> scope(x))
    ensures EndsExactly(l, StopAll(l, SessionsIn(l, s), now), scope, now, true)
  {}

  lemma CutEndsExactly(l: Ledger, task: TaskId, now: int)
    requires Consistent(l)
    ensures EndsExactly(l, CutTaskWork(l, task, now), OnTask(task), now, false)
  {}

  /** An ending leaves the scope of a session alone, so nothing in the scope runs any more. */
  lemma EndedRunsNoMore(l: Ledger, l': Ledger, scope: Session -> bool, now: int, compares: bool)
    requires ReferencesResolve(l) && EndsExactly(l, l', scope, now, compares)
    requires forall s: Session, s': Session ::
      s'.user == s.user && s'.device == s.device && s'.project == s.project && s'.task == s.task ==>
          (scope(s') <==> scope(s))
    ensures ReferencesResolve(l') && NothingRuns(l', scope)
  {
    forall k | 0 <= k < |l.segments|
      ensures l'.segments[k].session == l.segments[k].session
    {}
    forall i | 0 <= i < |l.sessions|
      ensures scope(l'.sessions[i]) <==> scope(l.sessions[i])
    {}
  }

  /** What closing the work in a scope comes to. */
  ghost predicate Closes(db: Db, l: Ledger, scope: Session -> bool, now: int, compares: bool)
    requires ReferencesResolve(db.ledger)
  {
    EndsExactly(db.ledger, l, scope, now, compares) && ReferencesResolve(l) && NothingRuns(l, scope)
  }

  // ----- Each change -----

  /** Archiving or restoring a project. */
  lemma ProjectIsChanged(db: Db, project: ProjectId, enabled: bool, now: int)
    requires Coherent(db)
    ensures project !in db.dir.projects ==> SetProjectEnabled(db, project, enabled, now) == NotFound
    ensures project in db.dir.projects ==>
      var change := SetProjectEnabled(db, project, enabled, now);
      && change.Done? && change.db.receipts == db.receipts
      && change.db.dir.projects == db.dir.projects[project := enabled]
      && change.db.dir == db.dir.(projects := change.db.dir.projects, devices := change.db.dir.devices)
      && change.db.dir.devices.Keys == db.dir.devices.Keys
      && (forall d :: d in db.dir.devices ==>
            change.db.dir.devices[d] == if !enabled && db.dir.devices[d].project == Some(project)
              then db.dir.devices[d].(project := None) else db.dir.devices[d])
      && if enabled then change.db.ledger == db.ledger else Closes(db, change.db.ledger, InProject(project), now, true)
  {
    StopAllEndsExactly(db.ledger, OfProject(project), now, InProject(project));
    EndedRunsNoMore(db.ledger, StopAll(db.ledger, SessionsIn(db.ledger, OfProject(project)), now), InProject(project),
        now, true);
  }

  predicate IsFor(device: Device, project: ProjectId, user: UserId) {
    device.project == Some(project) && device.owner == Some(user)
  }

  /** Removing someone from a project. */
  lemma MemberIsRemoved(db: Db, project: ProjectId, user: UserId, now: int)
    requires Coherent(db)
    ensures var change := RemoveMember(db, project, user, now);
      && change.Done? && change.db.receipts == db.receipts
      && (project, user) !in change.db.dir.members
      && (forall m :: m in db.dir.members && m != (project, user) ==>
            m in change.db.dir.members && change.db.dir.members[m] == db.dir.members[m])
      && change.db.dir.members.Keys <= db.dir.members.Keys
      && change.db.dir == db.dir.(members := change.db.dir.members, devices := change.db.dir.devices)
      && change.db.dir.devices.Keys == db.dir.devices.Keys
      && (forall d :: d in db.dir.devices ==>
            change.db.dir.devices[d] == if IsFor(db.dir.devices[d], project, user)
              then db.dir.devices[d].(project := None) else db.dir.devices[d])
      && Closes(db, change.db.ledger, OfMembership(project, user), now, true)
  {
    StopAllEndsExactly(db.ledger, OfMember(project, user), now, OfMembership(project, user));
    var l := StopAll(db.ledger, SessionsIn(db.ledger, OfMember(project, user)), now);
    EndedRunsNoMore(db.ledger, l, OfMembership(project, user), now, true);
  }

  /** Changing the role of a member; a viewer's work is closed. */
  lemma MemberRoleIsChanged(db: Db, project: ProjectId, user: UserId, role: ProjectRole, now: int)
    requires Coherent(db)
    ensures (project, user) !in db.dir.members ==> SetMemberRole(db, project, user, role, now) == NotFound
    ensures (project, user) in db.dir.members ==>
      var change := SetMemberRole(db, project, user, role, now);
      && change.Done? && change.db.receipts == db.receipts
      && change.db.dir.members == db.dir.members[(project, user) := role]
      && change.db.dir == db.dir.(members := change.db.dir.members, devices := change.db.dir.devices)
      && change.db.dir.devices.Keys == db.dir.devices.Keys
      && (forall d :: d in db.dir.devices ==>
            change.db.dir.devices[d] == if role == ProjectViewer && IsFor(db.dir.devices[d], project, user)
              then db.dir.devices[d].(project := None) else db.dir.devices[d])
      && if role == ProjectViewer then Closes(db, change.db.ledger, OfMembership(project, user), now, true)
         else change.db.ledger == db.ledger
  {
    StopAllEndsExactly(db.ledger, OfMember(project, user), now, OfMembership(project, user));
    var l := StopAll(db.ledger, SessionsIn(db.ledger, OfMember(project, user)), now);
    EndedRunsNoMore(db.ledger, l, OfMembership(project, user), now, true);
  }

  /** Disabling or enabling a user. */
  lemma UserIsChanged(db: Db, user: UserId, enabled: bool, now: int)
    requires Coherent(db)
    ensures user !in db.dir.users ==> SetUserEnabled(db, user, enabled, now) == NotFound
    ensures user in db.dir.users ==>
      var change := SetUserEnabled(db, user, enabled, now);
      && change.Done? && change.db.receipts == db.receipts
      && change.db.dir.users == db.dir.users[user := db.dir.users[user].(enabled := enabled)]
      && change.db.dir == db.dir.(users := change.db.dir.users, devices := change.db.dir.devices)
      && change.db.dir.devices.Keys == db.dir.devices.Keys
      && (forall d :: d in db.dir.devices ==>
            change.db.dir.devices[d] == if !enabled && db.dir.devices[d].owner == Some(user)
              then db.dir.devices[d].(enabled := false) else db.dir.devices[d])
      && if enabled then change.db.ledger == db.ledger else Closes(db, change.db.ledger, OfPerson(user), now, true)
  {
    StopAllEndsExactly(db.ledger, OfUser(user), now, OfPerson(user));
    EndedRunsNoMore(db.ledger, StopAll(db.ledger, SessionsIn(db.ledger, OfUser(user)), now), OfPerson(user), now, true);
  }

  /** Revoking or enabling a device; for an unknown one nothing happens. */
  lemma DeviceIsChanged(db: Db, device: DeviceId, enabled: bool, now: int)
    requires Coherent(db)
    ensures device !in db.dir.devices ==> SetDeviceEnabled(db, device, enabled, now) == Done(db)
    ensures device in db.dir.devices ==>
      var change := SetDeviceEnabled(db, device, enabled, now);
      && change.Done? && change.db.receipts == db.receipts
      && change.db.dir == db.dir.(devices := db.dir.devices[device := db.dir.devices[device].(enabled := enabled)])
      && if enabled then change.db.ledger == db.ledger else Closes(db, change.db.ledger, OnDevice(device), now, true)
  {
    StopAllEndsExactly(db.ledger, OfDevice(device), now, OnDevice(device));
    EndedRunsNoMore(db.ledger, StopAll(db.ledger, SessionsIn(db.ledger, OfDevice(device)), now), OnDevice(device), now,
        true);
  }

  /** Archiving or restoring a task; the closing instant is the clock, whatever began later. */
  lemma TaskIsChanged(db: Db, task: TaskId, active: bool, now: int)
    requires Coherent(db)
    ensures task !in db.dir.tasks ==> SetTaskActive(db, task, active, now) == NotFound
    ensures task in db.dir.tasks && db.dir.tasks[task].managed ==> SetTaskActive(db, task, active, now) == Managed
    ensures task in db.dir.tasks && !db.dir.tasks[task].managed ==>
      var change := SetTaskActive(db, task, active, now);
      && change.Done? && change.db.receipts == db.receipts
      && change.db.dir == db.dir.(tasks := db.dir.tasks[task := db.dir.tasks[task].(active := active)])
      && if active then change.db.ledger == db.ledger else Closes(db, change.db.ledger, OnTask(task), now, false)
  {
    CutEndsExactly(db.ledger, task, now);
    EndedRunsNoMore(db.ledger, CutTaskWork(db.ledger, task, now), OnTask(task), now, false);
  }

  /** Adding a member, and changing a user's role, change that and nothing else. */
  lemma NothingElseIsChanged(db: Db, project: ProjectId, user: UserId, role: ProjectRole, userRole: Role)
    ensures AddMember(db, project, user, role)
         == db.(dir := db.dir.(members := AddMember(db, project, user, role).dir.members))
    ensures AddMember(db, project, user, role).dir.members.Keys == db.dir.members.Keys + {(project, user)}
    ensures forall m :: m in AddMember(db, project, user, role).dir.members ==>
      AddMember(db, project, user, role).dir.members[m] == if m == (project, user) then role else db.dir.members[m]
    ensures user in db.dir.users ==>
      SetUserRole(db, user, userRole) == db.(dir := db.dir.(users := SetUserRole(db, user, userRole).dir.users))
    ensures user in db.dir.users ==>
      forall u :: u in db.dir.users <==> u in SetUserRole(db, user, userRole).dir.users
    ensures user in db.dir.users ==>
      forall u :: u in db.dir.users ==>
        SetUserRole(db, user, userRole).dir.users[u] ==
          if u == user && userRole in {Admin, Manager, Member} then db.dir.users[u].(role := userRole)
          else db.dir.users[u]
  {}

  // ----- The migration -----

  /** Another open session of the same user was updated later, or at the same time and is listed later. */
  ghost predicate IsSuperseded(l: Ledger, i: int)
    requires 0 <= i < |l.sessions|
  {
    && l.sessions[i].status != Stopped && l.sessions[i].user.Some?
    && exists j :: 0 <= j < |l.sessions| && l.sessions[j].status != Stopped && l.sessions[j].user == l.sessions[i].user
         && LaterRow(l, j, i)
  }

  predicate LaterRow(l: Ledger, j: int, i: int)
    requires 0 <= i < |l.sessions| && 0 <= j < |l.sessions|
  {
    l.sessions[i].updated < l.sessions[j].updated || (l.sessions[i].updated == l.sessions[j].updated && i < j)
  }

  /** The migration to one timer for each user ends exactly the superseded sessions, when they were last updated, and
      their open segments then or when they began. */
  lemma MigrationEndsTheSuperseded(l: Ledger)
    requires ReferencesResolve(l)
    ensures var l' := EnforceSingleTimer(l);
      && |l'.sessions| == |l.sessions| && |l'.segments| == |l.segments|
      && (forall i :: 0 <= i < |l.sessions| ==>
            l'.sessions[i] ==
              if !IsSuperseded(l, i) then l.sessions[i]
              else l.sessions[i].(status := Stopped,
                     ended := if l.sessions[i].ended == None then Some(l.sessions[i].updated) else l.sessions[i].ended))
      && (forall k :: 0 <= k < |l.segments| ==>
            l'.segments[k] ==
              if l.segments[k].end.Some? || !IsSuperseded(l, l.segments[k].session) then l.segments[k]
              else l.segments[k].(end :=
                Some(EndOf(l.segments[k].start, l.sessions[l.segments[k].session].updated, true))))
  {
    forall i: SessionId | i < |l.sessions|
      ensures i in Duplicates(l) <==> IsSuperseded(l, i)
    {
      if IsSuperseded(l, i) {
        var j: SessionId :| j < |l.sessions| && l.sessions[j].status != Stopped
          && l.sessions[j].user == l.sessions[i].user && LaterRow(l, j, i);
        assert OpenFor(l.sessions[j], l.sessions[i].user) && Above(l, j, i);
      }
      if i in Duplicates(l) {
        var j: SessionId :| j < |l.sessions| && OpenFor(l.sessions[j], l.sessions[i].user) && Above(l, j, i);
        assert LaterRow(l, j, i);
      }
    }
  }

  // ----- Commands -----

  predicate Stays(receipts: Receipts, cutoff: int, k: (DeviceId, EventId)) {
    && k in receipts
    && (|| receipts[k].received >= cutoff
        || forall n :: n in receipts && n.0 == k.0 ==> receipts[n].observed <= receipts[k].observed)
  }

  /** A receipt goes if and only if it was received before the cutoff and a later one of its device is there. */
  lemma PurgedReceipts(receipts: Receipts, cutoff: int, k: (DeviceId, EventId))
    ensures k in Compaction.Compact(receipts, cutoff) <==> Stays(receipts, cutoff, k)
    ensures k in Compaction.Compact(receipts, cutoff) ==> Compaction.Compact(receipts, cutoff)[k] == receipts[k]
  {}

  /** What each command of a run brings about. */
  ghost predicate TakesEffect(db: Db, db': Db, c: Command)
    requires ReferencesResolve(db'.ledger)
  {
    match c
    case Heartbeat(req, now, prev) => true
    case EnableProject(p, enabled, _) =>
      if p !in db.dir.projects then db' == db
      else
        && p in db'.dir.projects && db'.dir.projects[p] == enabled
        && (!enabled ==> NothingRuns(db'.ledger, InProject(p)))
    case JoinProject(p, u, role) => (p, u) in db'.dir.members && db'.dir.members[(p, u)] == role
    case ChangeRole(p, u, role, _) =>
      if (p, u) !in db.dir.members then db' == db
      else
        && (p, u) in db'.dir.members && db'.dir.members[(p, u)] == role
        && (role == ProjectViewer ==> NothingRuns(db'.ledger, OfMembership(p, u)))
    case LeaveProject(p, u, _) => (p, u) !in db'.dir.members && NothingRuns(db'.ledger, OfMembership(p, u))
    case EnableUser(u, enabled, _) =>
      if u !in db.dir.users then db' == db
      else
        && u in db'.dir.users && db'.dir.users[u].enabled == enabled
        && (!enabled ==> NothingRuns(db'.ledger, OfPerson(u)))
    case EnableDevice(d, enabled, _) =>
      if d !in db.dir.devices then db' == db
      else
        && d in db'.dir.devices && db'.dir.devices[d].enabled == enabled
        && (!enabled ==> NothingRuns(db'.ledger, OnDevice(d)))
    case ActivateTask(t, active, _) =>
      if t !in db.dir.tasks || db.dir.tasks[t].managed then db' == db
      else t in db'.dir.tasks && db'.dir.tasks[t].active == active && (!active ==> NothingRuns(db'.ledger, OnTask(t)))
    case ChangeUserRole(u, role) =>
      if u !in db.dir.users || role == Viewer then db' == db else u in db'.dir.users && db'.dir.users[u].role == role
    case PurgeReceipts(cutoff) =>
      && db' == db.(receipts := db'.receipts)
      && forall k :: k in db'.receipts <==> Stays(db.receipts, cutoff, k)
  }

  lemma CommandsTakeEffect(db: Db, c: Command)
    requires Coherent(db) && Allowed(db, c)
    ensures Coherent(Execute(db, c)) && TakesEffect(db, Execute(db, c), c)
    ensures c.Heartbeat? ==> Execute(db, c) == Sync(db, c.req, c.now, c.prev).0
  {
    ExecuteKeeps(db, c);
    match c
    case Heartbeat(req, now, prev) =>
    case EnableProject(p, enabled, now) => ProjectIsChanged(db, p, enabled, now);
    case JoinProject(p, u, role) =>
    case ChangeRole(p, u, role, now) => MemberRoleIsChanged(db, p, u, role, now);
    case LeaveProject(p, u, now) => MemberIsRemoved(db, p, u, now);
    case EnableUser(u, enabled, now) => UserIsChanged(db, u, enabled, now);
    case EnableDevice(d, enabled, now) => DeviceIsChanged(db, d, enabled, now);
    case ActivateTask(t, active, now) => TaskIsChanged(db, t, active, now);
    case ChangeUserRole(u, role) =>
    case PurgeReceipts(cutoff) =>
      forall k
        ensures k in Compaction.Compact(db.receipts, cutoff) <==> Stays(db.receipts, cutoff, k)
      {
        PurgedReceipts(db.receipts, cutoff, k);
      }
  }
}
