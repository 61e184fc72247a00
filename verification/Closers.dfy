/** The ways work is closed from outside (archival, loss of membership, disabling), the changes that should close
    work and do not, and the migration that establishes one open timer per user. */
module Closers {
  import opened Records
  import opened TimeLedger
  import opened WorkSync

  datatype Change = Done(db: Db) | NotFound | Managed

  /** Which sessions a closing statement selects. */
  datatype Scope =
    | OfProject(project: ProjectId)
    | OfMember(project: ProjectId, member: UserId)
    | OfUser(user: UserId)
    | OfDevice(device: DeviceId)
    | OfTask(task: TaskId)

  predicate InScope(s: Session, scope: Scope) {
    match scope
    case OfProject(p) => s.project == Some(p)
    case OfMember(p, u) => s.project == Some(p) && s.user == Some(u)
    case OfUser(u) => s.user == Some(u)
    case OfDevice(d) => s.device == d
    case OfTask(t) => s.task == Some(t) && s.ended.None?
  }

  function SessionsIn(l: Ledger, scope: Scope): set<SessionId> {
    set i | 0 <= i < |l.sessions| && InScope(l.sessions[i], scope) :: i
  }

  /** Close a set of sessions: their open segments end now, but not before they start, and so do they. */
  function StopAll(l: Ledger, ids: set<SessionId>, now: int): Ledger {
    Ledger(
      seq(|l.sessions|, i requires 0 <= i < |l.sessions| =>
        if i in ids && l.sessions[i].Open()
        then l.sessions[i].(status := Stopped, ended := Some(Max(now, l.sessions[i].started)), updated := now)
        else l.sessions[i]),
      CloseSegments(l.segments, ids, now))
  }

  lemma StopAllStops(l: Ledger, ids: set<SessionId>, now: int)
    ensures Stops(l, StopAll(l, ids, now), ids)
    ensures WellFormed(l) ==> WellFormed(StopAll(l, ids, now))
  {}

  // ----- Projects -----

  /** `_close_project_work` for one member, or for everyone. */
  function CloseProjectWork(l: Ledger, project: ProjectId, user: Option<UserId>, now: int): Ledger {
    StopAll(l, SessionsIn(l, if user.Some? then OfMember(project, user.value) else OfProject(project)), now)
  }

  /** Devices that pointed at a project, of one owner or of everyone, no longer do. */
  function UnassignDevices(devices: map<DeviceId, Device>, project: ProjectId, owner: Option<UserId>)
    : map<DeviceId, Device>
  {
    map d | d in devices ::
      if devices[d].project == Some(project) && (owner.None? || devices[d].owner == owner)
      then devices[d].(project := None) else devices[d]
  }

  function SetProjectEnabled(db: Db, project: ProjectId, enabled: bool, now: int): Change {
    if project !in db.dir.projects then NotFound
    else
      var dir := db.dir.(projects := db.dir.projects[project := enabled]);
      if enabled then Done(db.(dir := dir))
      else Done(Db(dir.(devices := UnassignDevices(dir.devices, project, None)),
                   CloseProjectWork(db.ledger, project, None, now), db.receipts))
  }

  function RemoveMember(db: Db, project: ProjectId, user: UserId, now: int): Change {
    Done(Db(db.dir.(devices := UnassignDevices(db.dir.devices, project, Some(user)),
                    members := db.dir.members - {(project, user)}),
            CloseProjectWork(db.ledger, project, Some(user), now), db.receipts))
  }

  function SetMemberRole(db: Db, project: ProjectId, user: UserId, role: ProjectRole, now: int): Change {
    if (project, user) !in db.dir.members then NotFound
    else
      var dir := db.dir.(members := db.dir.members[(project, user) := role]);
      if role != ProjectViewer then Done(db.(dir := dir))
      else Done(Db(dir.(devices := UnassignDevices(dir.devices, project, Some(user))),
                   CloseProjectWork(db.ledger, project, Some(user), now), db.receipts))
  }

  /** An insert that overwrites the role of a member who is already there. */
  function AddMember(db: Db, project: ProjectId, user: UserId, role: ProjectRole): Db {
    db.(dir := db.dir.(members := db.dir.members[(project, user) := role]))
  }

  // ----- People and devices -----

  function DisableDevices(devices: map<DeviceId, Device>, owner: UserId): map<DeviceId, Device> {
    map d | d in devices :: if devices[d].owner == Some(owner) then devices[d].(enabled := false) else devices[d]
  }

  function SetUserEnabled(db: Db, user: UserId, enabled: bool, now: int): Change {
    if user !in db.dir.users then NotFound
    else
      var dir := db.dir.(users := db.dir.users[user := db.dir.users[user].(enabled := enabled)]);
      if enabled then Done(db.(dir := dir))
      else Done(Db(dir.(devices := DisableDevices(dir.devices, user)),
                   StopAll(db.ledger, SessionsIn(db.ledger, OfUser(user)), now), db.receipts))
  }

  /** The role an administrator gives a user; nothing is closed. The role of a viewer is refused. */
  function SetUserRole(db: Db, user: UserId, role: Role): Db
    requires user in db.dir.users
  {
    if role == Viewer then db
    else db.(dir := db.dir.(users := db.dir.users[user := db.dir.users[user].(role := role)]))
  }

  function SetDeviceEnabled(db: Db, device: DeviceId, enabled: bool, now: int): Change {
    if device !in db.dir.devices then Done(db)
    else
      var dir := db.dir.(devices := db.dir.devices[device := db.dir.devices[device].(enabled := enabled)]);
      if enabled then Done(db.(dir := dir))
      else Done(Db(dir, StopAll(db.ledger, SessionsIn(db.ledger, OfDevice(device)), now), db.receipts))
  }

  // ----- Tasks -----

  function CutTaskWork(l: Ledger, task: TaskId, now: int): Ledger {
    var ids := SessionsIn(l, OfTask(task));
    Ledger(
      seq(|l.sessions|, i requires 0 <= i < |l.sessions| =>
        if i in ids then l.sessions[i].(status := Stopped, ended := Some(now), updated := now) else l.sessions[i]),
      CutSegments(l.segments, ids, now))
  }

  function SetTaskActive(db: Db, task: TaskId, active: bool, now: int): Change {
    if task !in db.dir.tasks then NotFound
    else if db.dir.tasks[task].managed then Managed
    else
      var dir := db.dir.(tasks := db.dir.tasks[task := db.dir.tasks[task].(active := active)]);
      if active then Done(db.(dir := dir)) else Done(Db(dir, CutTaskWork(db.ledger, task, now), db.receipts))
  }

  // ----- What each of them keeps -----

  lemma StopAllKeeps(l: Ledger, ids: set<SessionId>, now: int)
    requires Consistent(l)
    ensures Consistent(StopAll(l, ids, now))
    ensures WellFormed(l) ==> WellFormed(StopAll(l, ids, now))
    ensures OnlyStops(l, StopAll(l, ids, now))
    ensures forall k :: 0 <= k < |l.segments| && StopAll(l, ids, now).segments[k].Open() ==>
      l.segments[k].session !in ids
  {
    StopAllStops(l, ids, now);
    StopsKeepsConsistent(l, StopAll(l, ids, now), ids);
  }

  /** No session or segment is added, none that was closed changes, and the others keep what they are about. */
  ghost predicate OnlyStops(l: Ledger, l': Ledger) {
    && |l'.sessions| == |l.sessions| && |l'.segments| == |l.segments|
    && (forall i :: 0 <= i < |l.sessions| ==>
          && (l'.sessions[i].Open() || !l.sessions[i].Open() ==> l'.sessions[i] == l.sessions[i])
          && l'.sessions[i].user == l.sessions[i].user && l'.sessions[i].device == l.sessions[i].device
          && l'.sessions[i].project == l.sessions[i].project && l'.sessions[i].started == l.sessions[i].started)
    && (forall k :: 0 <= k < |l.segments| ==>
          && l'.segments[k].session == l.segments[k].session && l'.segments[k].start == l.segments[k].start
          && (l'.segments[k].Open() || !l.segments[k].Open() ==> l'.segments[k] == l.segments[k]))
  }

  /** Ending a task's segments at the server's clock without comparing it to their start keeps segments
      well formed exactly when no open segment of that work starts in the server's future. */
  lemma TaskArchivalWellFormed(l: Ledger, task: TaskId, now: int)
    requires Consistent(l) && WellFormed(l)
    ensures WellFormed(CutTaskWork(l, task, now)) <==>
      forall k ::
        0 <= k < |l.segments| && l.segments[k].Open() && l.sessions[l.segments[k].session].task == Some(task) ==>
          l.segments[k].start <= now
  {
    var l' := CutTaskWork(l, task, now);
    forall k | 0 <= k < |l.segments|
      ensures l.segments[k].Open() && l.sessions[l.segments[k].session].task == Some(task) ==>
        l.segments[k].session in SessionsIn(l, OfTask(task)) && l'.segments[k] == l.segments[k].(end := Some(now))
      ensures !(l.segments[k].Open() && l.sessions[l.segments[k].session].task == Some(task)) ==>
        l'.segments[k] == l.segments[k]
    {}
  }

  lemma CutTaskWorkKeeps(l: Ledger, task: TaskId, now: int)
    requires Consistent(l)
    ensures Consistent(CutTaskWork(l, task, now))
    ensures OnlyStops(l, CutTaskWork(l, task, now))
  {
    var l' := CutTaskWork(l, task, now);
    var ids := SessionsIn(l, OfTask(task));
    assert Stops(l, l', ids);
    StopsKeepsConsistent(l, l', ids);
  }

  /** What a change from outside keeps; if open work was authorized before, what is still open still is. */
  ghost predicate Closed(db: Db, change: Change)
    requires Coherent(db)
  {
    change.Done? ==>
      && Coherent(change.db)
      && (Inv(db) ==> Inv(change.db))
      && OnlyStops(db.ledger, change.db.ledger)
      && change.db.receipts == db.receipts
  }

  /** Devices keep their owner, and none becomes enabled. */
  ghost predicate DevicesOnlyLose(dir: Directory, dir': Directory) {
    && dir'.devices.Keys == dir.devices.Keys
    && (forall d :: d in dir.devices ==>
          dir'.devices[d].owner == dir.devices[d].owner && (dir'.devices[d].enabled ==> dir.devices[d].enabled))
  }

  /** What is closed from outside stays coherent, and authorized if what is still open still is. */
  lemma ClosingKeeps(db: Db, dir: Directory, l: Ledger)
    requires Coherent(db) && Consistent(l) && OnlyStops(db.ledger, l)
    requires dir.devices.Keys == db.dir.devices.Keys
    requires forall d :: d in dir.devices ==> dir.devices[d].owner == db.dir.devices[d].owner
    requires Inv(db) ==> StillAuthorized(db, dir, l)
    ensures Closed(db, Done(Db(dir, l, db.receipts)))
  {}

  ghost predicate StillAuthorized(db: Db, dir: Directory, l: Ledger)
    requires ReferencesResolve(db.ledger) && |l.segments| == |db.ledger.segments|
  {
    forall k :: 0 <= k < |l.segments| && l.segments[k].Open() ==>
      var s := db.ledger.sessions[db.ledger.segments[k].session]; Authorized(dir, s.user, s.project)
  }

  lemma SetProjectEnabledCloses(db: Db, project: ProjectId, enabled: bool, now: int)
    requires Coherent(db)
    ensures Closed(db, SetProjectEnabled(db, project, enabled, now))
  {
    StopAllKeeps(db.ledger, SessionsIn(db.ledger, OfProject(project)), now);
  }

  lemma SetProjectEnabledOnlyTakes(db: Db, project: ProjectId, enabled: bool, now: int)
    requires Coherent(db)
    ensures SetProjectEnabled(db, project, enabled, now).Done? ==>
      && DevicesOnlyLose(db.dir, SetProjectEnabled(db, project, enabled, now).db.dir)
      && (WellFormed(db.ledger) ==> WellFormed(SetProjectEnabled(db, project, enabled, now).db.ledger))
  {
    StopAllKeeps(db.ledger, SessionsIn(db.ledger, OfProject(project)), now);
  }

  lemma SetProjectEnabledKeeps(db: Db, project: ProjectId, enabled: bool, now: int)
    requires Coherent(db)
    ensures Closed(db, SetProjectEnabled(db, project, enabled, now))
    ensures SetProjectEnabled(db, project, enabled, now).Done? ==>
      && DevicesOnlyLose(db.dir, SetProjectEnabled(db, project, enabled, now).db.dir)
      && (WellFormed(db.ledger) ==> WellFormed(SetProjectEnabled(db, project, enabled, now).db.ledger))
  {
    SetProjectEnabledCloses(db, project, enabled, now);
    SetProjectEnabledOnlyTakes(db, project, enabled, now);
  }

  lemma RemoveMemberKeeps(db: Db, project: ProjectId, user: UserId, now: int)
    requires Coherent(db)
    ensures Closed(db, RemoveMember(db, project, user, now))
    ensures DevicesOnlyLose(db.dir, RemoveMember(db, project, user, now).db.dir)
    ensures WellFormed(db.ledger) ==> WellFormed(RemoveMember(db, project, user, now).db.ledger)
  {
    StopAllKeeps(db.ledger, SessionsIn(db.ledger, OfMember(project, user)), now);
  }

  lemma SetMemberRoleCloses(db: Db, project: ProjectId, user: UserId, role: ProjectRole, now: int)
    requires Coherent(db)
    ensures Closed(db, SetMemberRole(db, project, user, role, now))
  {
    StopAllKeeps(db.ledger, SessionsIn(db.ledger, OfMember(project, user)), now);
    var change := SetMemberRole(db, project, user, role, now);
    if change.Done? {
      assert OnlyStops(db.ledger, change.db.ledger);
      if Inv(db) {
        assert StillAuthorized(db, change.db.dir, change.db.ledger);
      }
      ClosingKeeps(db, change.db.dir, change.db.ledger);
    }
  }

  lemma SetMemberRoleKeeps(db: Db, project: ProjectId, user: UserId, role: ProjectRole, now: int)
    requires Coherent(db)
    ensures Closed(db, SetMemberRole(db, project, user, role, now))
    ensures SetMemberRole(db, project, user, role, now).Done? ==>
      && DevicesOnlyLose(db.dir, SetMemberRole(db, project, user, role, now).db.dir)
      && (WellFormed(db.ledger) ==> WellFormed(SetMemberRole(db, project, user, role, now).db.ledger))
  {
    SetMemberRoleCloses(db, project, user, role, now);
    StopAllStops(db.ledger, SessionsIn(db.ledger, OfMember(project, user)), now);
  }

  lemma SetUserEnabledCloses(db: Db, user: UserId, enabled: bool, now: int)
    requires Coherent(db)
    ensures Closed(db, SetUserEnabled(db, user, enabled, now))
  {
    StopAllKeeps(db.ledger, SessionsIn(db.ledger, OfUser(user)), now);
  }

  lemma SetUserEnabledOnlyTakes(db: Db, user: UserId, enabled: bool, now: int)
    requires Coherent(db)
    ensures SetUserEnabled(db, user, enabled, now).Done? ==>
      && DevicesOnlyLose(db.dir, SetUserEnabled(db, user, enabled, now).db.dir)
      && (WellFormed(db.ledger) ==> WellFormed(SetUserEnabled(db, user, enabled, now).db.ledger))
  {
    StopAllKeeps(db.ledger, SessionsIn(db.ledger, OfUser(user)), now);
  }

  lemma SetUserEnabledKeeps(db: Db, user: UserId, enabled: bool, now: int)
    requires Coherent(db)
    ensures Closed(db, SetUserEnabled(db, user, enabled, now))
    ensures SetUserEnabled(db, user, enabled, now).Done? ==>
      && DevicesOnlyLose(db.dir, SetUserEnabled(db, user, enabled, now).db.dir)
      && (WellFormed(db.ledger) ==> WellFormed(SetUserEnabled(db, user, enabled, now).db.ledger))
  {
    SetUserEnabledCloses(db, user, enabled, now);
    SetUserEnabledOnlyTakes(db, user, enabled, now);
  }

  lemma DevicesAuthorizeNothing(db: Db, dir: Directory, l: Ledger)
    requires Inv(db) && OnlyStops(db.ledger, l) && dir == db.dir.(devices := dir.devices)
    ensures StillAuthorized(db, dir, l)
  {}

  lemma SetDeviceEnabledCloses(db: Db, device: DeviceId, enabled: bool, now: int)
    requires Coherent(db)
    ensures Closed(db, SetDeviceEnabled(db, device, enabled, now))
  {
    StopAllKeeps(db.ledger, SessionsIn(db.ledger, OfDevice(device)), now);
    var db' := SetDeviceEnabled(db, device, enabled, now).db;
    assert OnlyStops(db.ledger, db'.ledger);
    if Inv(db) {
      DevicesAuthorizeNothing(db, db'.dir, db'.ledger);
    }
    ClosingKeeps(db, db'.dir, db'.ledger);
  }

  lemma SetDeviceEnabledKeeps(db: Db, device: DeviceId, enabled: bool, now: int)
    requires Coherent(db)
    ensures Closed(db, SetDeviceEnabled(db, device, enabled, now))
    ensures WellFormed(db.ledger) ==> WellFormed(SetDeviceEnabled(db, device, enabled, now).db.ledger)
  {
    SetDeviceEnabledCloses(db, device, enabled, now);
    StopAllKeeps(db.ledger, SessionsIn(db.ledger, OfDevice(device)), now);
  }

  lemma SetTaskActiveKeeps(db: Db, task: TaskId, active: bool, now: int)
    requires Coherent(db)
    ensures Closed(db, SetTaskActive(db, task, active, now))
    ensures SetTaskActive(db, task, active, now).Done? ==>
      DevicesOnlyLose(db.dir, SetTaskActive(db, task, active, now).db.dir)
  {
    CutTaskWorkKeeps(db.ledger, task, now);
  }

  // ----- Changes that close nothing -----

  ghost predicate HasOpenWork(l: Ledger, user: UserId, project: ProjectId)
    requires ReferencesResolve(l)
  {
    exists k :: 0 <= k < |l.segments| && l.segments[k].Open() &&
        InScope(l.sessions[l.segments[k].session], OfMember(project, user))
  }

  /** Adding someone who is already a member overwrites their role without closing their work. The tables stay
      authorized exactly when this is not a plain member with running work who becomes a viewer; in particular
      they do for someone who is not yet a member, which is what the project page checks first. */
  lemma AddMemberAuthorization(db: Db, project: ProjectId, user: UserId, role: ProjectRole)
    requires Inv(db)
    ensures Inv(AddMember(db, project, user, role)) <==>
      !(role == ProjectViewer && user in db.dir.users && db.dir.users[user].role == Member &&
          HasOpenWork(db.ledger, user, project))
    ensures (project, user) !in db.dir.members ==> Inv(AddMember(db, project, user, role))
  {
    var db' := AddMember(db, project, user, role);
    if HasOpenWork(db.ledger, user, project) {
      var k :| 0 <= k < |db.ledger.segments| && db.ledger.segments[k].Open()
        && InScope(db.ledger.sessions[db.ledger.segments[k].session], OfMember(project, user));
      var s := db.ledger.sessions[db.ledger.segments[k].session];
      assert Authorized(db.dir, s.user, s.project);
      assert Inv(db') ==> Authorized(db'.dir, s.user, s.project);
    }
  }

  /** An administrator's change of a user's role closes nothing either. The tables stay authorized exactly when
      no running work is left to a plain member without a tracking membership. */
  lemma SetUserRoleAuthorization(db: Db, user: UserId, role: Role)
    requires Inv(db) && user in db.dir.users
    ensures Inv(SetUserRole(db, user, role)) <==>
      (role == Member ==> forall p :: HasOpenWork(db.ledger, user, p) ==> MayTrackAsMember(db.dir, user, p))
  {
    var db' := SetUserRole(db, user, role);
    if Inv(db') && role == Member {
      forall p | HasOpenWork(db.ledger, user, p)
        ensures MayTrackAsMember(db.dir, user, p)
      {
        var k :| 0 <= k < |db.ledger.segments| && db.ledger.segments[k].Open()
          && InScope(db.ledger.sessions[db.ledger.segments[k].session], OfMember(p, user));
        var s := db'.ledger.sessions[db'.ledger.segments[k].session];
        assert Authorized(db'.dir, s.user, s.project);
      }
    }
    if role == Member ==> forall p :: HasOpenWork(db.ledger, user, p) ==> MayTrackAsMember(db.dir, user, p) {
      forall k | 0 <= k < |db'.ledger.segments| && db'.ledger.segments[k].Open()
        ensures var s := db'.ledger.sessions[db'.ledger.segments[k].session]; Authorized(db'.dir, s.user, s.project)
      {
        var s := db.ledger.sessions[db.ledger.segments[k].session];
        assert Authorized(db.dir, s.user, s.project);
        if s.user == Some(user) {
          assert HasOpenWork(db.ledger, user, s.project.value);
        }
      }
    }
  }

  // ----- The migration -----

  predicate OpenFor(s: Session, user: Option<UserId>) {
    s.Open() && s.user == user
  }

  /** The order in which the migration ranks a user's open sessions: last update, then identifier. */
  predicate Above(l: Ledger, j: SessionId, i: SessionId)
    requires j < |l.sessions| && i < |l.sessions|
  {
    l.sessions[j].updated > l.sessions[i].updated || (l.sessions[j].updated == l.sessions[i].updated && j > i)
  }

  predicate Outranked(l: Ledger, i: SessionId)
    requires i < |l.sessions|
  {
    exists j: SessionId :: j < |l.sessions| && OpenFor(l.sessions[j], l.sessions[i].user) && Above(l, j, i)
  }

  function Duplicates(l: Ledger): set<SessionId> {
    set i | 0 <= i < |l.sessions| && l.sessions[i].Open() && l.sessions[i].user.Some? && Outranked(l, i) :: i
  }

  /** `_enforce_single_active_timer`: a duplicate ends when it was last updated. */
  function EnforceSingleTimer(l: Ledger): Ledger
    requires ReferencesResolve(l)
  {
    var duplicates := Duplicates(l);
    Ledger(
      seq(|l.sessions|, i requires 0 <= i < |l.sessions| =>
        if i in duplicates
        then l.sessions[i].(status := Stopped,
                            ended := if l.sessions[i].ended.Some?
                                     then l.sessions[i].ended else Some(l.sessions[i].updated))
        else l.sessions[i]),
      seq(|l.segments|, k requires 0 <= k < |l.segments| =>
        if l.segments[k].Open() && l.segments[k].session in duplicates
        then l.segments[k].(end := Some(Max(l.segments[k].start, l.sessions[l.segments[k].session].updated)))
        else l.segments[k]))
  }

  /** Among the first n sessions, a user's open ones have a highest. */
  lemma {:induction false} HighestAmong(l: Ledger, user: Option<UserId>, n: nat) returns (top: SessionId)
    requires n <= |l.sessions|
    requires exists i :: 0 <= i < n && OpenFor(l.sessions[i], user)
    ensures top < n && OpenFor(l.sessions[top], user)
    ensures forall j: SessionId :: j < n && OpenFor(l.sessions[j], user) ==> !Above(l, j, top)
  {
    if !OpenFor(l.sessions[n - 1], user) {
      top := HighestAmong(l, user, n - 1);
    } else if exists i :: 0 <= i < n - 1 && OpenFor(l.sessions[i], user) {
      top := HighestAmong(l, user, n - 1);
      if Above(l, n - 1, top) {
        top := n - 1;
      }
    } else {
      top := n - 1;
    }
  }

  ghost predicate KeepsOne(l: Ledger, l': Ledger, user: Option<UserId>)
    requires |l'.sessions| == |l.sessions|
  {
    exists top :: 0 <= top < |l.sessions| && OpenFor(l.sessions[top], user) && l'.sessions[top] == l.sessions[top]
  }

  lemma MigrationKeepsOne(l: Ledger, i: SessionId)
    requires ReferencesResolve(l)
    requires i < |l.sessions| && l.sessions[i].Open() && l.sessions[i].user.Some?
    ensures KeepsOne(l, EnforceSingleTimer(l), l.sessions[i].user)
  {
    assert OpenFor(l.sessions[i], l.sessions[i].user);
    var top := HighestAmong(l, l.sessions[i].user, |l.sessions|);
    assert !Outranked(l, top);
    assert EnforceSingleTimer(l).sessions[top] == l.sessions[top];
  }

  lemma DuplicatesCoverPairs(l: Ledger, i: SessionId, j: SessionId)
    requires i < j < |l.sessions| && l.sessions[i].Open() && l.sessions[j].Open()
    requires l.sessions[i].user.Some? && l.sessions[i].user == l.sessions[j].user
    ensures i in Duplicates(l) || j in Duplicates(l)
  {
    assert OpenFor(l.sessions[j], l.sessions[i].user) && OpenFor(l.sessions[i], l.sessions[j].user);
    assert Above(l, j, i) || Above(l, i, j);
  }

  lemma MigrationStops(l: Ledger)
    requires TablesAgree(l)
    ensures Stops(l, EnforceSingleTimer(l), Duplicates(l))
    ensures WellFormed(l) ==> WellFormed(EnforceSingleTimer(l))
  {}

  /** The migration makes tables that agree consistent, so its unique index can be created; and every user who
      had an open session keeps exactly one, untouched. */
  lemma MigrationEstablishesSingleTimer(l: Ledger)
    requires TablesAgree(l)
    ensures Consistent(EnforceSingleTimer(l))
    ensures WellFormed(l) ==> WellFormed(EnforceSingleTimer(l))
    ensures forall i :: 0 <= i < |l.sessions| && l.sessions[i].Open() && l.sessions[i].user.Some? ==>
      KeepsOne(l, EnforceSingleTimer(l), l.sessions[i].user)
  {
    var l' := EnforceSingleTimer(l);
    MigrationStops(l);
    StopsKeepsConsistent(l, l', Duplicates(l));
    forall i: SessionId, j: SessionId | i < j < |l'.sessions| && l'.sessions[i].Open() && l'.sessions[j].Open() &&
        l'.sessions[i].user.Some?
      ensures l'.sessions[i].user != l'.sessions[j].user
    {
      if l.sessions[i].user == l.sessions[j].user {
        DuplicatesCoverPairs(l, i, j);
      }
    }
    forall i: SessionId | i < |l.sessions| && l.sessions[i].Open() && l.sessions[i].user.Some?
      ensures KeepsOne(l, l', l.sessions[i].user)
    {
      MigrationKeepsOne(l, i);
    }
  }
}
