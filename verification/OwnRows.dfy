/** The rows of one device among those of all others: what an event does to them is what it would do if the device
    were the only one that has work. */
module OwnRows {
  import opened Records
  import opened TimeLedger
  import opened WorkSync
  import opened Closers
  import opened ServerRuns

  /** The segments of a device's sessions, in the order of the table. */
  function Own(sessions: seq<Session>, segments: seq<Segment>, device: DeviceId): seq<Segment>
    requires forall k :: 0 <= k < |segments| ==> segments[k].session < |sessions|
  {
    if segments == [] then []
    else
      var g := segments[|segments| - 1];
      var rest := Own(sessions, segments[..|segments| - 1], device);
      if sessions[g.session].device == device then rest + [g] else rest
  }

  function Muted(s: Session, device: DeviceId): Session {
    if s.device == device then s else s.(status := Stopped, ended := Some(s.started), updated := s.started)
  }

  /** The ledger as it would be without any other device's segments and open sessions. */
  function Solo(l: Ledger, device: DeviceId): Ledger
    requires ReferencesResolve(l)
  {
    Ledger(seq(|l.sessions|, i requires 0 <= i < |l.sessions| => Muted(l.sessions[i], device)),
           Own(l.sessions, l.segments, device))
  }

  // ----- Filtering -----

  lemma {:induction false} OwnMembers(sessions: seq<Session>, segments: seq<Segment>, device: DeviceId)
    requires forall k :: 0 <= k < |segments| ==> segments[k].session < |sessions|
    ensures forall g :: g in Own(sessions, segments, device) <==> g in segments && sessions[g.session].device == device
  {
    if segments != [] {
      var front, last := segments[..|segments| - 1], segments[|segments| - 1];
      OwnMembers(sessions, front, device);
      assert segments == front + [last];
    }
  }

  lemma OwnAppend(sessions: seq<Session>, segments: seq<Segment>, g: Segment, device: DeviceId)
    requires forall k :: 0 <= k < |segments| ==> segments[k].session < |sessions|
    requires g.session < |sessions|
    ensures Own(sessions, segments + [g], device)
         == if sessions[g.session].device == device
            then Own(sessions, segments, device) + [g] else Own(sessions, segments, device)
  {
    assert (segments + [g])[..|segments|] == segments;
  }

  /** Only the devices of the sessions matter. */
  lemma {:induction false} OwnOfOtherSessions(a: seq<Session>, b: seq<Session>, segments: seq<Segment>,
      device: DeviceId)
    requires forall k :: 0 <= k < |segments| ==> segments[k].session < |a|
    requires |a| <= |b| && forall i :: 0 <= i < |a| ==> b[i].device == a[i].device
    ensures Own(b, segments, device) == Own(a, segments, device)
  {
    if segments != [] {
      OwnOfOtherSessions(a, b, segments[..|segments| - 1], device);
    }
  }

  /** The device's segments are closed in the table as they are on their own. */
  lemma {:induction false} OwnClosed(sessions: seq<Session>, segments: seq<Segment>, stopped: set<SessionId>, at: int,
      device: DeviceId)
    requires forall k :: 0 <= k < |segments| ==> segments[k].session < |sessions|
    ensures Own(sessions, CloseSegments(segments, stopped, at), device)
         == CloseSegments(Own(sessions, segments, device), stopped, at)
  {
    if segments != [] {
      var front := segments[..|segments| - 1];
      OwnClosed(sessions, front, stopped, at, device);
      assert CloseSegments(segments, stopped, at)[..|segments| - 1] == CloseSegments(front, stopped, at);
    }
  }

  lemma OthersClosed(sessions: seq<Session>, segments: seq<Segment>, i: SessionId, at: int, device: DeviceId)
    requires forall k :: 0 <= k < |segments| ==> segments[k].session < |sessions|
    requires i < |sessions| && sessions[i].device != device
    ensures Own(sessions, CloseSegments(segments, {i}, at), device) == Own(sessions, segments, device)
  {
    OwnClosed(sessions, segments, {i}, at, device);
    OwnMembers(sessions, segments, device);
    var own := Own(sessions, segments, device);
    forall k | 0 <= k < |own|
      ensures CloseSegments(own, {i}, at)[k] == own[k]
    {
      assert own[k] in own;
    }
  }

  lemma {:induction false} NothingOwn(sessions: seq<Session>, segments: seq<Segment>, device: DeviceId)
    requires forall k :: 0 <= k < |segments| ==> segments[k].session < |sessions|
    requires forall i :: 0 <= i < |sessions| ==> sessions[i].device != device
    ensures Own(sessions, segments, device) == []
  {
    if segments != [] {
      NothingOwn(sessions, segments[..|segments| - 1], device);
    }
  }

  // ----- What the device's rows keep -----

  lemma {:induction false} OwnUnique(sessions: seq<Session>, segments: seq<Segment>, device: DeviceId)
    requires forall k :: 0 <= k < |segments| ==> segments[k].session < |sessions|
    requires OpenSegmentsAreUnique(Ledger(sessions, segments))
    ensures OpenSegmentsAreUnique(Ledger(sessions, Own(sessions, segments, device)))
  {
    if segments != [] {
      var front, last := segments[..|segments| - 1], segments[|segments| - 1];
      OwnUnique(sessions, front, device);
      OwnMembers(sessions, front, device);
      var own := Own(sessions, front, device);
      forall j | 0 <= j < |own| && own[j].Open() && last.Open()
        ensures own[j].session != last.session
      {
        assert own[j] in front;
        var k :| 0 <= k < |front| && front[k] == own[j];
        assert segments[k] == own[j];
      }
    }
  }

  /** One device alone: its sessions are the only open ones, and all segments are theirs. */
  ghost predicate Alone(l: Ledger, device: DeviceId)
    requires ReferencesResolve(l)
  {
    && (forall i :: 0 <= i < |l.sessions| && l.sessions[i].Open() ==> l.sessions[i].device == device)
    && (forall k :: 0 <= k < |l.segments| ==> l.sessions[l.segments[k].session].device == device)
  }

  lemma SoloResolves(l: Ledger, device: DeviceId)
    requires ReferencesResolve(l)
    ensures ReferencesResolve(Solo(l, device)) && Alone(Solo(l, device), device)
  {
    OwnMembers(l.sessions, l.segments, device);
    forall k | 0 <= k < |Solo(l, device).segments|
      ensures Solo(l, device).segments[k].session < |l.sessions|
      ensures l.sessions[Solo(l, device).segments[k].session].device == device
    {
      assert Solo(l, device).segments[k] in l.segments;
    }
  }

  lemma SoloHasSegment(l: Ledger, device: DeviceId, i: SessionId)
    requires ReferencesResolve(l) && i < |l.sessions| && l.sessions[i].device == device && HasOpenSegment(l, i)
    ensures HasOpenSegment(Solo(l, device), i)
  {
    var k :| 0 <= k < |l.segments| && l.segments[k].Open() && l.segments[k].session == i;
    OwnMembers(l.sessions, l.segments, device);
    var own := Own(l.sessions, l.segments, device);
    assert l.segments[k] in own;
    var j :| 0 <= j < |own| && own[j] == l.segments[k];
    assert Solo(l, device).segments[j] == own[j];
  }

  lemma SoloIsConsistent(l: Ledger, device: DeviceId)
    requires Consistent(l)
    ensures ReferencesResolve(Solo(l, device)) && Consistent(Solo(l, device))
    ensures WellFormed(l) ==> WellFormed(Solo(l, device))
  {
    SoloResolves(l, device);
    OwnMembers(l.sessions, l.segments, device);
    OwnUnique(l.sessions, l.segments, device);
    var s := Solo(l, device);
    forall k | 0 <= k < |s.segments|
      ensures s.segments[k] in l.segments
    {}
    forall i | 0 <= i < |s.sessions| && s.sessions[i].status == Active
      ensures HasOpenSegment(s, i)
    {
      SoloHasSegment(l, device, i);
    }
  }

  // ----- Every operation on the device's own session -----

  lemma SoloOpenOn(l: Ledger, device: DeviceId)
    requires Consistent(l)
    ensures OpenOn(Solo(l, device), device) == OpenOn(l, device)
  {
    var a, b := OpenOn(l, device), OpenOn(Solo(l, device), device);
    if a.Some? {
      assert Solo(l, device).sessions[a.value] == l.sessions[a.value];
    }
    if b.Some? {
      assert l.sessions[b.value].device == device && l.sessions[b.value].Open();
    }
  }

  lemma SoloStop(l: Ledger, i: SessionId, at: int, device: DeviceId)
    requires ReferencesResolve(l) && i < |l.sessions|
    ensures ReferencesResolve(StopSession(l, i, at))
    ensures l.sessions[i].device == device ==>
      Solo(StopSession(l, i, at), device) == StopSession(Solo(l, device), i, at)
    ensures l.sessions[i].device != device ==>
      Solo(StopSession(l, i, at), device) == Solo(l, device)
  {
    var l' := StopSession(l, i, at);
    OwnOfOtherSessions(l.sessions, l'.sessions, l'.segments, device);
    if l.sessions[i].device == device {
      OwnClosed(l.sessions, l.segments, {i}, at, device);
    } else {
      OthersClosed(l.sessions, l.segments, i, at, device);
      assert Solo(l', device).sessions == Solo(l, device).sessions;
    }
  }

  lemma SoloPause(l: Ledger, i: SessionId, at: int, now: int, device: DeviceId)
    requires ReferencesResolve(l) && i < |l.sessions| && l.sessions[i].device == device
    ensures ReferencesResolve(PauseSession(l, i, at, now))
    ensures Solo(PauseSession(l, i, at, now), device) == PauseSession(Solo(l, device), i, at, now)
  {
    var l' := PauseSession(l, i, at, now);
    OwnOfOtherSessions(l.sessions, l'.sessions, l'.segments, device);
    OwnClosed(l.sessions, l.segments, {i}, at, device);
  }

  lemma SoloResume(l: Ledger, i: SessionId, at: int, now: int, device: DeviceId)
    requires ReferencesResolve(l) && i < |l.sessions| && l.sessions[i].device == device
    ensures ReferencesResolve(ResumeSession(l, i, at, now))
    ensures Solo(ResumeSession(l, i, at, now), device) == ResumeSession(Solo(l, device), i, at, now)
  {
    var l' := ResumeSession(l, i, at, now);
    OwnOfOtherSessions(l.sessions, l'.sessions, l'.segments, device);
    OwnAppend(l.sessions, l.segments, Segment(i, at, None), device);
  }

  lemma SoloTouch(l: Ledger, i: SessionId, now: int, device: DeviceId)
    requires ReferencesResolve(l) && i < |l.sessions| && l.sessions[i].device == device
    ensures ReferencesResolve(TouchSession(l, i, now))
    ensures Solo(TouchSession(l, i, now), device) == TouchSession(Solo(l, device), i, now)
  {
    OwnOfOtherSessions(l.sessions, TouchSession(l, i, now).sessions, l.segments, device);
  }

  lemma SoloOpen(l: Ledger, s: Session)
    requires ReferencesResolve(l)
    ensures ReferencesResolve(OpenSession(l, s))
    ensures Solo(OpenSession(l, s), s.device) == OpenSession(Solo(l, s.device), s)
  {
    var l' := OpenSession(l, s);
    OwnOfOtherSessions(l.sessions, l'.sessions, l.segments, s.device);
    if s.status == Active {
      OwnAppend(l'.sessions, l.segments, Segment(|l.sessions|, s.started, None), s.device);
    }
  }

  lemma SoloRecord(l: Ledger, own: Option<SessionId>, ev: Event, now: int)
    requires ReferencesResolve(l)
    requires own.Some? ==> own.value < |l.sessions| && l.sessions[own.value].device == ev.device
    ensures ReferencesResolve(Record(l, own, ev, now).0)
    ensures Solo(Record(l, own, ev, now).0, ev.device) == Record(Solo(l, ev.device), own, ev, now).0
  {
    if own.None? {
      SoloOpen(l, Fresh(ev, now));
    } else {
      SoloStop(l, own.value, ev.at, ev.device);
      SoloPause(l, own.value, ev.at - ev.idle * SECOND, now, ev.device);
      SoloResume(l, own.value, ev.at, now, ev.device);
      SoloTouch(l, own.value, now, ev.device);
    }
  }

  /** Recording an event on the device's session does to the device's rows what it would do if they were alone. */
  lemma SoloAdvance(l: Ledger, ev: Event, prev: Option<Receipt>, now: int)
    requires Consistent(l)
    ensures ReferencesResolve(Advance(l, ev, prev, now).0)
    ensures Solo(Advance(l, ev, prev, now).0, ev.device) == Advance(Solo(l, ev.device), ev, prev, now).0
  {
    SoloOpenOn(l, ev.device);
    var own := OpenOn(l, ev.device);
    if own.Some? && RetireAt(l.sessions[own.value], ev, prev).Some? {
      var at := RetireAt(l.sessions[own.value], ev, prev).value;
      SoloStop(l, own.value, at, ev.device);
      SoloRecord(StopSession(l, own.value, at), None, ev, now);
    } else {
      SoloRecord(l, own, ev, now);
    }
  }

  /** Displacing the owner's work on another device does nothing to the rows of this one. */
  lemma SoloDisplace(l: Ledger, ev: Event)
    requires Consistent(l) && Displace(l, ev).Ok?
    ensures ReferencesResolve(Displace(l, ev).value) && Solo(Displace(l, ev).value, ev.device) == Solo(l, ev.device)
  {
    if ev.status != Stopped && ev.user.Some? {
      var other := OpenElsewhere(l, ev.user.value, ev.device);
      if other.Some? {
        SoloStop(l, other.value, ev.at, ev.device);
      }
    }
  }

  // ----- What others do -----

  /** The rows of the device are the same before and after. */
  ghost predicate OwnRowsStay(l: Ledger, l': Ledger, device: DeviceId)
    requires ReferencesResolve(l) && ReferencesResolve(l')
  {
    && Own(l'.sessions, l'.segments, device) == Own(l.sessions, l.segments, device)
    && |l.sessions| <= |l'.sessions|
    && (forall i :: 0 <= i < |l.sessions| ==> l'.sessions[i].device == l.sessions[i].device)
    && (forall i :: 0 <= i < |l.sessions| && l.sessions[i].device == device ==> l'.sessions[i] == l.sessions[i])
    && (forall i :: |l.sessions| <= i < |l'.sessions| ==> l'.sessions[i].device != device)
  }

  lemma {:induction false} OwnKept(a: seq<Session>, b: seq<Session>, segments: seq<Segment>, segments': seq<Segment>,
      device: DeviceId)
    requires forall k :: 0 <= k < |segments| ==> segments[k].session < |a|
    requires forall k :: 0 <= k < |segments'| ==> segments'[k].session < |b|
    requires |a| <= |b| && forall i :: 0 <= i < |a| ==> b[i].device == a[i].device
    requires |segments| <= |segments'|
    requires forall k :: 0 <= k < |segments| ==> segments'[k].session == segments[k].session
    requires forall k :: 0 <= k < |segments| && a[segments[k].session].device == device ==> segments'[k] == segments[k]
    requires forall k :: |segments| <= k < |segments'| ==> b[segments'[k].session].device != device
    ensures Own(b, segments', device) == Own(a, segments, device)
    decreases |segments'|
  {
    if |segments'| > |segments| {
      OwnKept(a, b, segments, segments'[..|segments'| - 1], device);
    } else if segments != [] {
      OwnKept(a, b, segments[..|segments| - 1], segments'[..|segments| - 1], device);
    }
  }

  lemma ReplaySpares(db: Db, ev: Event, prev: Option<Receipt>, now: int, device: DeviceId)
    requires Coherent(db) && OwnersAgree(db.ledger, ev) && ev.device != device && Replay(db.ledger, ev, prev, now).Ok?
    requires ev.user.Some? ==> device in db.dir.devices && db.dir.devices[device].owner != ev.user
    ensures ReferencesResolve(Replay(db.ledger, ev, prev, now).value.0)
    ensures OwnRowsStay(db.ledger, Replay(db.ledger, ev, prev, now).value.0, device)
  {
    var l, l' := db.ledger, Replay(db.ledger, ev, prev, now).value.0;
    OthersAreUntouched(db, ev, now, prev);
    ReplayedRows(l, ev, prev, now);
    assert forall i :: 0 <= i < |l.sessions| && l.sessions[i].device == device ==> Foreign(l.sessions[i], ev);
    assert SessionsPersist(l, l', ev);
    OwnKept(l.sessions, l'.sessions, l.segments, l'.segments, device);
  }

  /** A device of another owner, or of none, leaves the rows of this one as they are. */
  lemma OtherOwnersSpare(db: Db, req: Request, now: int, prev: Option<Receipt>, device: DeviceId)
    requires Coherent(db) && req.device in db.dir.devices && device in db.dir.devices && req.device != device
    requires db.dir.devices[req.device].owner.Some? ==> db.dir.devices[device].owner != db.dir.devices[req.device].owner
    ensures Coherent(Sync(db, req, now, prev).0)
    ensures OwnRowsStay(db.ledger, Sync(db, req, now, prev).0.ledger, device)
  {
    SyncKeepsInv(db, req, now, prev);
    var admitted := Admit(db, req, now);
    if admitted.Ok? && !AlreadyApplied(db.receipts, admitted.value) {
      var ev := if admitted.value.id.Some? then Clamp(admitted.value, prev) else admitted.value;
      if Replay(db.ledger, ev, prev, now).Ok? {
        ReplaySpares(db, ev, prev, now, device);
      }
    }
  }

  /** A command leaves the device's rows as they are. */
  ghost predicate Spares(db: Db, c: Command, device: DeviceId)
    requires Coherent(db) && Allowed(db, c)
  {
    ExecuteKeeps(db, c);
    OwnRowsStay(db.ledger, Execute(db, c).ledger, device)
  }

  lemma StoppingOthersSpares(l: Ledger, l': Ledger, device: DeviceId)
    requires Consistent(l) && Consistent(l') && OnlyStops(l, l')
    requires OpenOn(l, device).Some? ==> l'.sessions[OpenOn(l, device).value].Open()
    ensures OwnRowsStay(l, l', device)
  {
    forall i | 0 <= i < |l.sessions| && l.sessions[i].device == device
      ensures l'.sessions[i] == l.sessions[i]
    {
      if l.sessions[i].Open() {
        assert OpenOn(l, device) == Some(i);
      }
    }
    forall k | 0 <= k < |l.segments| && l.sessions[l.segments[k].session].device == device
      ensures l'.segments[k] == l.segments[k]
    {
      if l.segments[k].Open() {
        var i := l.segments[k].session;
        assert HasOpenSegment(l', i);
        var j :| 0 <= j < |l'.segments| && l'.segments[j].Open() && l'.segments[j].session == i;
        assert l'.segments[j] == l.segments[j];
      }
    }
    OwnKept(l.sessions, l'.sessions, l.segments, l'.segments, device);
  }

  /** An administrative command spares the device's rows if and only if it does not stop the device's open session. */
  lemma SparesUnlessItStops(db: Db, c: Command, device: DeviceId)
    requires Coherent(db) && Allowed(db, c) && !c.Heartbeat?
    ensures |Execute(db, c).ledger.sessions| == |db.ledger.sessions|
    ensures Spares(db, c, device) <==>
      (OpenOn(db.ledger, device).Some? ==> Execute(db, c).ledger.sessions[OpenOn(db.ledger, device).value].Open())
  {
    ExecuteKeeps(db, c);
    if OpenOn(db.ledger, device).Some? ==> Execute(db, c).ledger.sessions[OpenOn(db.ledger, device).value].Open() {
      StoppingOthersSpares(db.ledger, Execute(db, c).ledger, device);
    }
  }
}
