/** The repository object: the tables as fields, and the calls that update them in place. */
module WorkRepository {
  import opened Records
  import opened TimeLedger
  import opened WorkSync
  import opened Closers
  import Compaction
  import opened TrackedTime

  lemma OpenOnIsUnique(l: Ledger, device: DeviceId, i: SessionId)
    requires Consistent(l)
    requires i < |l.sessions| && l.sessions[i].Open() && l.sessions[i].device == device
    ensures OpenOn(l, device) == Some(i)
  {}

  lemma OpenElsewhereIsUnique(l: Ledger, user: UserId, device: DeviceId, i: SessionId)
    requires Consistent(l)
    requires i < |l.sessions| && IsOpenElsewhere(l.sessions[i], user, device)
    ensures OpenElsewhere(l, user, device) == Some(i)
  {}

  lemma PreviousExists(receipts: Receipts, device: DeviceId) returns (prev: Option<Receipt>)
    ensures IsPrevious(receipts, device, prev)
  {
    prev := None;
    if k :| k in receipts && k.0 == device {
      var top := Compaction.LatestExists(receipts, device, k);
      prev := Some(receipts[top]);
      assert (device, top.1) in receipts;
      forall n | n in receipts && n.0 == device
        ensures receipts[n].observed <= receipts[top].observed
      {
        if receipts[n].observed > receipts[top].observed {
          assert Compaction.Outdates(receipts, n, receipts[top], device);
        }
      }
    }
  }

  class WorkStore {
    var dir: Directory
    var sessions: seq<Session>
    var segments: seq<Segment>
    var receipts: Receipts

    ghost function Tables(): Db
      reads this
    {
      Db(dir, Ledger(sessions, segments), receipts)
    }

    constructor (dir: Directory)
      ensures Tables() == Db(dir, Ledger([], []), map[]) && Inv(Tables())
    {
      this.dir, sessions, segments, receipts := dir, [], [], map[];
    }

    // ----- Lookups -----

    method FindOpenOn(device: DeviceId) returns (found: Option<SessionId>)
      requires Consistent(Ledger(sessions, segments))
      ensures found == OpenOn(Ledger(sessions, segments), device)
    {
      for i := 0 to |sessions|
        invariant forall j :: 0 <= j < i && sessions[j].Open() ==> sessions[j].device != device
      {
        if sessions[i].Open() && sessions[i].device == device {
          OpenOnIsUnique(Ledger(sessions, segments), device, i);
          return Some(i);
        }
      }
      return None;
    }

    method FindOpenElsewhere(user: UserId, device: DeviceId) returns (found: Option<SessionId>)
      requires Consistent(Ledger(sessions, segments))
      ensures found == OpenElsewhere(Ledger(sessions, segments), user, device)
    {
      for i := 0 to |sessions|
        invariant forall j :: 0 <= j < i ==> !IsOpenElsewhere(sessions[j], user, device)
      {
        if IsOpenElsewhere(sessions[i], user, device) {
          OpenElsewhereIsUnique(Ledger(sessions, segments), user, device, i);
          return Some(i);
        }
      }
      return None;
    }

    /** One of the latest receipts of a device; rows are visited in no particular order. */
    method FindPrevious(device: DeviceId) returns (prev: Option<Receipt>)
      ensures IsPrevious(receipts, device, prev)
    {
      prev := None;
      var rest := receipts.Keys;
      while rest != {}
        invariant rest <= receipts.Keys
        invariant prev.None? ==> forall k :: k in receipts.Keys - rest ==> k.0 != device
        invariant prev.Some? ==> exists id: EventId :: (device, id) in receipts && receipts[(device, id)] == prev.value
        invariant prev.Some? ==>
          forall k :: k in receipts.Keys - rest && k.0 == device ==> receipts[k].observed <= prev.value.observed
        decreases rest
      {
        var k :| k in rest;
        rest := rest - {k};
        if k.0 == device && (prev.None? || receipts[k].observed > prev.value.observed) {
          prev := Some(receipts[k]);
          assert (device, k.1) in receipts && receipts[(device, k.1)] == prev.value;
        }
      }
    }

    // ----- Row updates -----

    method CloseSegmentsOf(session: SessionId, at: int)
      modifies this`segments
      ensures segments == CloseSegments(old(segments), {session}, at)
    {
      segments := CloseSegments(segments, {session}, at);
    }

    method StartSegment(session: SessionId, at: int)
      modifies this`segments
      ensures segments == old(segments) + [Segment(session, at, None)]
    {
      segments := segments + [Segment(session, at, None)];
    }

    method Stop(session: SessionId, at: int)
      requires session < |sessions|
      modifies this`sessions, this`segments
      ensures Ledger(sessions, segments) == StopSession(old(Ledger(sessions, segments)), session, at)
    {
      CloseSegmentsOf(session, at);
      sessions := sessions[session := sessions[session].(status := Stopped, ended := Some(at), updated := at)];
    }

    method InsertReceipt(ev: Event, now: int, session: Option<SessionId>)
      modifies this`receipts
      ensures receipts == Remember(old(receipts), ev, now, session)
    {
      if ev.id.Some? {
        receipts := receipts[(ev.device, ev.id.value) := ReceiptOf(ev, now, session)];
      }
    }

    // ----- sync_work_session -----

    /** Stop the owner's work on another device, or refuse. */
    method DisplaceOther(ev: Event) returns (refusal: Option<Error>)
      requires Consistent(Ledger(sessions, segments))
      modifies this`sessions, this`segments
      ensures refusal.Some? ==>
        sessions == old(sessions) && segments == old(segments)
        && Displace(old(Ledger(sessions, segments)), ev) == Err(refusal.value)
      ensures refusal.None? ==> Displace(old(Ledger(sessions, segments)), ev) == Ok(Ledger(sessions, segments))
    {
      refusal := None;
      if ev.status != Stopped && ev.user.Some? {
        var other := FindOpenElsewhere(ev.user.value, ev.device);
        if other.Some? {
          if !ev.transition {
            return Some(AnotherDeviceTracking);
          }
          if ev.at < sessions[other.value].started {
            return Some(AnotherDeviceNewer);
          }
          Stop(other.value, ev.at);
        }
      }
    }

    /** Retire the device's session when its lease ran out or its work changed. */
    method RetireSession(found: Option<SessionId>, ev: Event, prev: Option<Receipt>)
        returns (session: Option<SessionId>)
      requires found.Some? ==> found.value < |sessions|
      modifies this`sessions, this`segments
      ensures var l := old(Ledger(sessions, segments));
        var at := if found.Some? then RetireAt(l.sessions[found.value], ev, prev) else None;
        if at.Some?
        then session.None? && Ledger(sessions, segments) == StopSession(l, found.value, at.value)
        else session == found && Ledger(sessions, segments) == l
    {
      session := found;
      if ev.id.Some? && prev.Some? && session.Some? && prev.value.status == Active {
        var lease := Max(90, Max(prev.value.interval * 2, ev.interval * 2));
        if ev.at - prev.value.observed > lease * SECOND {
          Stop(session.value, prev.value.observed + prev.value.interval * SECOND);
          session := None;
        }
      }
      if session.Some? && (sessions[session.value].task != ev.task || sessions[session.value].project != ev.project) {
        Stop(session.value, ev.at);
        session := None;
      }
    }

    method ApplyStatus(found: Option<SessionId>, ev: Event, now: int) returns (session: Option<SessionId>)
      requires found.Some? ==> found.value < |sessions| && sessions[found.value].Open()
      modifies this`sessions, this`segments
      ensures (Ledger(sessions, segments), session) == Record(old(Ledger(sessions, segments)), found, ev, now)
    {
      session := found;
      if ev.status == Stopped {
        if session.Some? {
          Stop(session.value, ev.at);
        }
        return None;
      }
      if session.None? {
        session := Some(|sessions|);
        sessions := sessions + [Session(ev.user, ev.device, ev.project, ev.task, ev.status, ev.at, None, now)];
        if ev.status == Active {
          StartSegment(session.value, ev.at);
        }
      } else {
        if ev.status == Paused && sessions[session.value].status == Active {
          CloseSegmentsOf(session.value, ev.at - ev.idle * SECOND);
        } else if ev.status == Active && sessions[session.value].status == Paused {
          StartSegment(session.value, ev.at);
        }
        sessions := sessions[session.value := sessions[session.value].(status := ev.status, updated := now)];
      }
    }

    /** The part of the call that changes tables. */
    method Transact(ev: Event, prev: Option<Receipt>, now: int) returns (outcome: Outcome)
      requires Consistent(Ledger(sessions, segments)) && OwnersAgree(Ledger(sessions, segments), ev)
      modifies this`sessions, this`segments, this`receipts
      ensures (Tables(), outcome) == Commit(old(Tables()), ev, now, prev)
    {
      ghost var l := Ledger(sessions, segments);
      var refusal := DisplaceOther(ev);
      if refusal.Some? {
        return Rejected(refusal.value);
      }
      DisplaceKeeps(l, ev);
      var session := FindOpenOn(ev.device);
      session := RetireSession(session, ev, prev);
      session := ApplyStatus(session, ev, now);
      InsertReceipt(ev, now, session);
      outcome := Accepted(session);
    }

    /** One call, as one transaction. Whatever receipt it picks as the previous one, the result is what the
        specification says, and the tables stay sound. */
    method SyncWorkSession(req: Request, now: int) returns (outcome: Outcome)
      requires Inv(Tables()) && req.device in dir.devices
      modifies this`sessions, this`segments, this`receipts
      ensures exists prev ::
        IsPrevious(old(receipts), req.device, prev) && Sync(old(Tables()), req, now, prev) == (Tables(), outcome)
      ensures Inv(Tables())
    {
      ghost var before := Tables();
      ghost var chosen := PreviousExists(receipts, req.device);
      var admitted := Admit(Db(dir, Ledger(sessions, segments), receipts), req, now);
      var prev: Option<Receipt> := None;
      if admitted.Err? {
        outcome := Rejected(admitted.error);
      } else if admitted.value.id.Some? && (admitted.value.device, admitted.value.id.value) in receipts {
        outcome := Accepted(receipts[(admitted.value.device, admitted.value.id.value)].session);
      } else if admitted.value.id.Some? {
        var ev := admitted.value;
        prev := FindPrevious(req.device);
        chosen := prev;
        if prev.Some? && ev.at < prev.value.observed {
          ev := ev.(at := prev.value.observed);
        }
        assert ev == Clamp(admitted.value, prev);
        outcome := Transact(ev, prev, now);
      } else {
        PreviousIrrelevant(before, admitted.value, now, chosen);
        outcome := Transact(admitted.value, prev, now);
      }
      SyncKeepsInv(before, req, now, chosen);
      assert Sync(before, req, now, chosen) == (Tables(), outcome);
    }

    /** Resolve a queued capture: among the device's segments that cover the instant, one that starts last. */
    method GetWorkSessionForCapture(device: DeviceId, at: int) returns (found: Option<SessionId>)
      requires ReferencesResolve(Ledger(sessions, segments))
      ensures found.Some? <==> (exists k ::
        && 0 <= k < |segments| && sessions[segments[k].session].device == device
        && segments[k].start <= at && (segments[k].end.None? || at <= segments[k].end.value))
      ensures Answers(Ledger(sessions, segments), device, at, found)
    {
      var best: Option<nat> := None;
      for k := 0 to |segments|
        invariant best.None? ==> forall j :: 0 <= j < k ==> !CoversOn(j, device, at)
        invariant best.Some? ==> best.value < k && CoversOn(best.value, device, at)
        invariant best.Some? ==>
          forall j :: 0 <= j < k && CoversOn(j, device, at) ==> segments[j].start <= segments[best.value].start
      {
        if CoversOn(k, device, at) && (best.None? || segments[k].start > segments[best.value].start) {
          best := Some(k);
        }
      }
      assert best.Some? ==> StartsLast(best.value, device, at) && segments[best.value] in segments;
      LookupIsAnswered(device, at, best);
      found := if best.Some? then Some(segments[best.value].session) else None;
    }

    predicate CoversOn(k: nat, device: DeviceId, at: int)
      requires ReferencesResolve(Ledger(sessions, segments)) && k < |segments|
      reads this
    {
      sessions[segments[k].session].device == device && CoversInstant(segments[k], at)
    }

    ghost predicate StartsLast(k: nat, device: DeviceId, at: int)
      requires ReferencesResolve(Ledger(sessions, segments)) && k < |segments|
      reads this
    {
      && CoversOn(k, device, at)
      && forall j :: 0 <= j < |segments| && CoversOn(j, device, at) ==> segments[j].start <= segments[k].start
    }

    lemma LookupIsAnswered(device: DeviceId, at: int, best: Option<nat>)
      requires ReferencesResolve(Ledger(sessions, segments))
      requires best.Some? ==> best.value < |segments| && StartsLast(best.value, device, at)
      requires best.None? ==> forall k :: 0 <= k < |segments| ==> !CoversOn(k, device, at)
      ensures best.Some? <==> (exists k ::
        && 0 <= k < |segments| && sessions[segments[k].session].device == device
        && segments[k].start <= at && (segments[k].end.None? || at <= segments[k].end.value))
      ensures Answers(Ledger(sessions, segments), device, at,
                      if best.Some? then Some(segments[best.value].session) else None)
    {
      if best.Some? {
        var g := segments[best.value];
        assert g in segments && CoversOn(best.value, device, at);
        forall h | h in segments && sessions[h.session].device == device && h.start > g.start && h.start <= at
          ensures h.end.Some? && h.end.value < at
        {
          var k :| 0 <= k < |segments| && segments[k] == h;
          assert !CoversOn(k, device, at);
        }
      } else {
        forall g | g in segments && sessions[g.session].device == device && g.start <= at
          ensures g.end.Some? && g.end.value < at
        {
          var k :| 0 <= k < |segments| && segments[k] == g;
          assert !CoversOn(k, device, at);
        }
      }
    }

    method DeleteStateEventsBefore(cutoff: int) returns (deleted: nat)
      modifies this`receipts
      ensures receipts == Compaction.Compact(old(receipts), cutoff)
      ensures deleted == |old(receipts)| - |receipts|
      ensures forall k :: k in receipts ==> k in old(receipts) && receipts[k] == old(receipts)[k]
      ensures forall k :: k in old(receipts) ==>
        (k in receipts <==> old(receipts)[k].received >= cutoff || !HasLater(old(receipts), k))
    {
      var doomed := set k | k in receipts && receipts[k].received < cutoff && Compaction.Outdated(receipts, k) :: k;
      deleted := |doomed|;
      Compaction.CountDeleted(receipts, doomed);
      receipts := receipts - doomed;
    }

    // ----- Closing work from outside -----

    /** The two UPDATE statements every closer issues on the time tables. */
    method CloseScope(scope: Scope, now: int)
      modifies this`sessions, this`segments
      ensures var l := old(Ledger(sessions, segments));
        Ledger(sessions, segments) == StopAll(l, SessionsIn(l, scope), now)
    {
      var ids := SessionsIn(Ledger(sessions, segments), scope);
      segments := CloseSegments(segments, ids, now);
      sessions := seq(|sessions|, i requires 0 <= i < |sessions| reads this =>
        if i in ids && sessions[i].Open()
        then sessions[i].(status := Stopped, ended := Some(Max(now, sessions[i].started)), updated := now)
        else sessions[i]);
    }

    method SetProjectEnabled(project: ProjectId, enabled: bool, now: int) returns (found: bool)
      requires Inv(Tables())
      modifies this
      ensures Became(old(Tables()), Closers.SetProjectEnabled(old(Tables()), project, enabled, now), found)
      ensures Inv(Tables())
    {
      SetProjectEnabledKeeps(Tables(), project, enabled, now);
      found := project in dir.projects;
      if found {
        dir := dir.(projects := dir.projects[project := enabled]);
        if !enabled {
          CloseScope(OfProject(project), now);
          dir := dir.(devices := UnassignDevices(dir.devices, project, None));
        }
      }
    }

    method RemoveProjectMember(project: ProjectId, user: UserId, now: int)
      requires Inv(Tables())
      modifies this
      ensures Closers.RemoveMember(old(Tables()), project, user, now) == Done(Tables())
      ensures Inv(Tables())
    {
      RemoveMemberKeeps(Tables(), project, user, now);
      CloseScope(OfMember(project, user), now);
      dir := dir.(devices := UnassignDevices(dir.devices, project, Some(user)));
      dir := dir.(members := dir.members - {(project, user)});
    }

    method SetProjectMemberRole(project: ProjectId, user: UserId, role: ProjectRole, now: int) returns (found: bool)
      requires Inv(Tables())
      modifies this
      ensures Became(old(Tables()), SetMemberRole(old(Tables()), project, user, role, now), found)
      ensures Inv(Tables())
    {
      SetMemberRoleKeeps(Tables(), project, user, role, now);
      found := (project, user) in dir.members;
      if found {
        dir := dir.(members := dir.members[(project, user) := role]);
        if role == ProjectViewer {
          CloseScope(OfMember(project, user), now);
          dir := dir.(devices := UnassignDevices(dir.devices, project, Some(user)));
        }
      }
    }

    method SetUserEnabled(user: UserId, enabled: bool, now: int) returns (found: bool)
      requires Inv(Tables())
      modifies this
      ensures Became(old(Tables()), Closers.SetUserEnabled(old(Tables()), user, enabled, now), found)
      ensures Inv(Tables())
    {
      SetUserEnabledKeeps(Tables(), user, enabled, now);
      found := user in dir.users;
      if found {
        dir := dir.(users := dir.users[user := dir.users[user].(enabled := enabled)]);
        if !enabled {
          CloseScope(OfUser(user), now);
          dir := dir.(devices := DisableDevices(dir.devices, user));
        }
      }
    }

    method SetDeviceEnabled(device: DeviceId, enabled: bool, now: int)
      requires Inv(Tables())
      modifies this
      ensures Closers.SetDeviceEnabled(old(Tables()), device, enabled, now) == Done(Tables())
      ensures Inv(Tables())
    {
      SetDeviceEnabledKeeps(Tables(), device, enabled, now);
      if device in dir.devices {
        dir := dir.(devices := dir.devices[device := dir.devices[device].(enabled := enabled)]);
        if !enabled {
          CloseScope(OfDevice(device), now);
        }
      }
    }

    method SetTaskStatus(task: TaskId, active: bool, now: int) returns (change: Change)
      requires Inv(Tables())
      modifies this
      ensures change == SetTaskActive(old(Tables()), task, active, now)
      ensures Tables() == if change.Done? then change.db else old(Tables())
      ensures Inv(Tables())
    {
      SetTaskActiveKeeps(Tables(), task, active, now);
      if task !in dir.tasks {
        return NotFound;
      }
      if dir.tasks[task].managed {
        return Managed;
      }
      dir := dir.(tasks := dir.tasks[task := dir.tasks[task].(active := active)]);
      if !active {
        var ids := SessionsIn(Ledger(sessions, segments), OfTask(task));
        segments := CutSegments(segments, ids, now);
        sessions := seq(|sessions|, i requires 0 <= i < |sessions| reads this =>
          if i in ids then sessions[i].(status := Stopped, ended := Some(now), updated := now) else sessions[i]);
      }
      change := Done(Db(dir, Ledger(sessions, segments), receipts));
    }

    /** A statement that updated no row raises, and the transaction leaves everything as it was. */
    ghost predicate Became(before: Db, change: Change, found: bool)
      reads this
    {
      && (found <==> change.Done?)
      && Tables() == if change.Done? then change.db else before
    }
  }

  /** A receipt of the same device was observed later. */
  predicate HasLater(receipts: Receipts, k: (DeviceId, EventId))
    requires k in receipts
  {
    exists n :: n in receipts && n.0 == k.0 && receipts[n].observed > receipts[k].observed
  }

  /** Without an event id, as old agents send, the receipts play no part. */
  lemma PreviousIrrelevant(db: Db, ev: Event, now: int, prev: Option<Receipt>)
    requires ev.id.None?
    ensures Commit(db, ev, now, prev) == Commit(db, ev, now, None)
  {}
}
