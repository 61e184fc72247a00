/** What a recorded event does to the tables, row by row: what becomes of a session or a segment depends on that row,
    the
    event and the latest receipt alone. */
module RowRules {
  import opened Records
  import opened TimeLedger
  import opened WorkSync

  // ----- Sessions and segments -----

  /** The gap since the device's latest receipt, while it was active, is longer than a minute and a half and than two
      heartbeats of either event. */
  predicate RanOut(ev: Event, prev: Option<Receipt>) {
    && ev.id.Some? && prev.Some? && prev.value.status == Active
    && ev.at > prev.value.observed + 90_000_000
    && ev.at > prev.value.observed + 2_000_000 * prev.value.interval
    && ev.at > prev.value.observed + 2_000_000 * ev.interval
  }

  predicate Displaces(s: Session, ev: Event) {
    s.device != ev.device && ev.status != Stopped && ev.user.Some? && s.user == ev.user
  }

  function EndedRow(s: Session, at: int): Session {
    s.(status := Stopped, ended := Some(at), updated := at)
  }

  /** An open session of the same user elsewhere ends at the event. One of the device ends a heartbeat after the latest
      receipt if the lease ran out, at the event if that stops or is about other work, and otherwise takes its
      status. */
  function RowAfter(s: Session, ev: Event, prev: Option<Receipt>, now: int): Session {
    if s.status == Stopped then s
    else if Displaces(s, ev) then EndedRow(s, ev.at)
    else if s.device != ev.device then s
    else if RanOut(ev, prev) then EndedRow(s, prev.value.observed + 1_000_000 * prev.value.interval)
    else if s.task != ev.task || s.project != ev.project || ev.status == Stopped then EndedRow(s, ev.at)
    else s.(status := ev.status, updated := now)
  }

  function EndedSegment(g: Segment, at: int): Segment {
    g.(end := Some(if at < g.start then g.start else at))
  }

  /** The open segment of such a session ends when the session does, or at a pause less the idle time; never before it
      began. */
  function SegmentAfter(g: Segment, s: Session, ev: Event, prev: Option<Receipt>): Segment {
    if g.end.Some? then g
    else if Displaces(s, ev) then EndedSegment(g, ev.at)
    else if s.device != ev.device then g
    else if RanOut(ev, prev) then EndedSegment(g, prev.value.observed + 1_000_000 * prev.value.interval)
    else if s.task != ev.task || s.project != ev.project || ev.status == Stopped then EndedSegment(g, ev.at)
    else if ev.status == Paused then EndedSegment(g, ev.at - 1_000_000 * ev.idle)
    else g
  }

  /** A session of the device that the event goes on with. */
  ghost predicate GoesOn(l: Ledger, i: int, ev: Event, prev: Option<Receipt>) {
    && 0 <= i < |l.sessions| && l.sessions[i].status != Stopped && l.sessions[i].device == ev.device
    && !RanOut(ev, prev) && l.sessions[i].task == ev.task && l.sessions[i].project == ev.project
  }

  /** An event that does not stop and has nothing to go on with begins a session. */
  ghost predicate NeedsSession(l: Ledger, ev: Event, prev: Option<Receipt>) {
    ev.status != Stopped && forall i :: !GoesOn(l, i, ev, prev)
  }

  function NewRow(ev: Event, now: int): Session {
    Session(ev.user, ev.device, ev.project, ev.task, ev.status, ev.at, None, now)
  }

  /** An active event begins a segment on the session that it begins, or that it resumes. */
  ghost predicate RowsFollow(l: Ledger, l': Ledger, ev: Event, prev: Option<Receipt>, now: int)
    requires ReferencesResolve(l)
  {
    && |l.sessions| <= |l'.sessions|
    && (forall i :: 0 <= i < |l.sessions| ==> l'.sessions[i] == RowAfter(l.sessions[i], ev, prev, now))
    && |l.segments| <= |l'.segments|
    && (forall k :: 0 <= k < |l.segments| ==>
          l'.segments[k] == SegmentAfter(l.segments[k], l.sessions[l.segments[k].session], ev, prev))
    && (if NeedsSession(l, ev, prev)
        then |l'.sessions| == |l.sessions| + 1 && l'.sessions[|l.sessions|] == NewRow(ev, now)
        else |l'.sessions| == |l.sessions|)
    && (forall i: SessionId :: ev.status == Active && BeginsOn(l, i, ev, prev) ==>
          |l'.segments| == |l.segments| + 1 && l'.segments[|l.segments|] == Segment(i, ev.at, None))
    && ((forall i: SessionId :: !(ev.status == Active && BeginsOn(l, i, ev, prev))) ==> |l'.segments| == |l.segments|)
  }

  ghost predicate BeginsOn(l: Ledger, i: SessionId, ev: Event, prev: Option<Receipt>) {
    || (i == |l.sessions| && NeedsSession(l, ev, prev))
    || (GoesOn(l, i, ev, prev) && l.sessions[i].status == Paused)
  }

  // ----- The transaction follows them -----

  lemma RunsOutIsExpiry(ev: Event, prev: Option<Receipt>)
    ensures LeaseExpired(ev, prev) <==> RanOut(ev, prev)
  {}

  lemma RetiresUnlessItGoesOn(s: Session, ev: Event, prev: Option<Receipt>)
    ensures RetireAt(s, ev, prev) ==
      if RanOut(ev, prev) then Some(prev.value.observed + 1_000_000 * prev.value.interval)
      else if s.task != ev.task || s.project != ev.project then Some(ev.at) else None
  {
    RunsOutIsExpiry(ev, prev);
  }

  /** The displaced session and its segment. */
  lemma DisplacedRows(l: Ledger, ev: Event)
    requires Consistent(l) && Displace(l, ev).Ok?
    ensures var l1 := Displace(l, ev).value;
      && |l1.sessions| == |l.sessions| && |l1.segments| == |l.segments|
      && (forall i :: 0 <= i < |l.sessions| ==>
            l1.sessions[i] == if l.sessions[i].Open() && Displaces(l.sessions[i], ev)
                              then EndedRow(l.sessions[i], ev.at) else l.sessions[i])
      && (forall k :: 0 <= k < |l.segments| ==>
            l1.segments[k] == if l.segments[k].Open() && Displaces(l.sessions[l.segments[k].session], ev)
                              then EndedSegment(l.segments[k], ev.at) else l.segments[k])
  {
    if ev.status != Stopped && ev.user.Some? {
      var other := OpenElsewhere(l, ev.user.value, ev.device);
      forall i | 0 <= i < |l.sessions| && l.sessions[i].Open() && Displaces(l.sessions[i], ev)
        ensures other == Some(i)
      {
        assert IsOpenElsewhere(l.sessions[i], ev.user.value, ev.device);
      }
    }
  }

  /** The device's own session and its segment. */
  lemma AdvancedRows(l: Ledger, ev: Event, prev: Option<Receipt>, now: int)
    requires Consistent(l)
    ensures var l' := Advance(l, ev, prev, now).0;
      && |l.sessions| <= |l'.sessions| && |l.segments| <= |l'.segments|
      && (forall i :: 0 <= i < |l.sessions| ==>
            l'.sessions[i] == if l.sessions[i].device == ev.device
                              then RowAfter(l.sessions[i], ev, prev, now) else l.sessions[i])
      && (forall k :: 0 <= k < |l.segments| ==>
            l'.segments[k] == if l.sessions[l.segments[k].session].device == ev.device
                              then SegmentAfter(l.segments[k], l.sessions[l.segments[k].session], ev, prev)
                              else l.segments[k])
  {
    var own := OpenOn(l, ev.device);
    if own.Some? {
      RetiresUnlessItGoesOn(l.sessions[own.value], ev, prev);
      forall i | 0 <= i < |l.sessions| && l.sessions[i].Open() && l.sessions[i].device == ev.device
        ensures i == own.value
      {}
    }
  }

  lemma AdvancedAdditions(l: Ledger, ev: Event, prev: Option<Receipt>, now: int)
    requires Consistent(l)
    ensures var l' := Advance(l, ev, prev, now).0;
      && (if NeedsSession(l, ev, prev)
          then |l'.sessions| == |l.sessions| + 1 && l'.sessions[|l.sessions|] == NewRow(ev, now)
          else |l'.sessions| == |l.sessions|)
      && (forall i: SessionId :: ev.status == Active && BeginsOn(l, i, ev, prev) ==>
            |l'.segments| == |l.segments| + 1 && l'.segments[|l.segments|] == Segment(i, ev.at, None))
      && ((forall i: SessionId :: !(ev.status == Active && BeginsOn(l, i, ev, prev))) ==> |l'.segments| == |l.segments|)
  {
    var own := OpenOn(l, ev.device);
    forall i | GoesOn(l, i, ev, prev)
      ensures own == Some(i)
    {}
    if own.Some? {
      RetiresUnlessItGoesOn(l.sessions[own.value], ev, prev);
      assert RetireAt(l.sessions[own.value], ev, prev).None? <==> GoesOn(l, own.value, ev, prev);
    }
    assert NeedsSession(l, ev, prev) ==> BeginsOn(l, |l.sessions|, ev, prev);
    assert own.Some? && GoesOn(l, own.value, ev, prev) && l.sessions[own.value].status == Paused ==>
      BeginsOn(l, own.value, ev, prev);
  }

  /** What the device's event finds is not changed by the displacement. */
  lemma DisplacementSparesTheDevice(l: Ledger, ev: Event, prev: Option<Receipt>)
    requires Consistent(l) && OwnersAgree(l, ev) && Displace(l, ev).Ok?
    ensures var l1 := Displace(l, ev).value;
      && (forall i :: GoesOn(l1, i, ev, prev) <==> GoesOn(l, i, ev, prev))
      && (forall i: SessionId :: BeginsOn(l1, i, ev, prev) <==> BeginsOn(l, i, ev, prev))
  {
    DisplacedRows(l, ev);
  }

  lemma OldRowsFollow(l: Ledger, ev: Event, prev: Option<Receipt>, now: int)
    requires Consistent(l) && OwnersAgree(l, ev) && Replay(l, ev, prev, now).Ok?
    ensures var l' := Replay(l, ev, prev, now).value.0;
      && |l.sessions| <= |l'.sessions| && |l.segments| <= |l'.segments|
      && (forall i :: 0 <= i < |l.sessions| ==> l'.sessions[i] == RowAfter(l.sessions[i], ev, prev, now))
      && (forall k :: 0 <= k < |l.segments| ==>
            l'.segments[k] == SegmentAfter(l.segments[k], l.sessions[l.segments[k].session], ev, prev))
  {
    DisplaceKeeps(l, ev);
    DisplacedRows(l, ev);
    AdvancedRows(Displace(l, ev).value, ev, prev, now);
  }

  /** Every row follows its rule, and the rows that the event begins are the only new ones. */
  lemma EveryRowFollowsItsRule(l: Ledger, ev: Event, prev: Option<Receipt>, now: int)
    requires Consistent(l) && OwnersAgree(l, ev) && Replay(l, ev, prev, now).Ok?
    ensures RowsFollow(l, Replay(l, ev, prev, now).value.0, ev, prev, now)
  {
    OldRowsFollow(l, ev, prev, now);
    DisplaceKeeps(l, ev);
    DisplacedRows(l, ev);
    DisplacementSparesTheDevice(l, ev, prev);
    AdvancedAdditions(Displace(l, ev).value, ev, prev, now);
    assert NeedsSession(Displace(l, ev).value, ev, prev) <==> NeedsSession(l, ev, prev);
  }

  predicate Objects(s: Session, ev: Event) { s.status != Stopped && Displaces(s, ev) }

  /** An event is refused exactly if an open session of its user elsewhere objects: it is no switch, or an older one. */
  lemma RefusedForTheOtherDevice(l: Ledger, ev: Event, prev: Option<Receipt>, now: int)
    requires Consistent(l)
    ensures Replay(l, ev, prev, now) == Err(AnotherDeviceTracking)
      <==> !ev.transition && exists i :: 0 <= i < |l.sessions| && Objects(l.sessions[i], ev)
    ensures Replay(l, ev, prev, now) == Err(AnotherDeviceNewer)
      <==> ev.transition
           && exists i :: 0 <= i < |l.sessions| && Objects(l.sessions[i], ev) && ev.at < l.sessions[i].started
    ensures Replay(l, ev, prev, now).Err? ==>
      Replay(l, ev, prev, now).error in {AnotherDeviceTracking, AnotherDeviceNewer}
  {
    if ev.status != Stopped && ev.user.Some? {
      var other := OpenElsewhere(l, ev.user.value, ev.device);
      forall i | 0 <= i < |l.sessions| && l.sessions[i].Open() && Displaces(l.sessions[i], ev)
        ensures other == Some(i)
      {
        assert IsOpenElsewhere(l.sessions[i], ev.user.value, ev.device);
      }
      if other.Some? {
        assert Objects(l.sessions[other.value], ev);
      }
    }
  }

  // ----- A whole call -----

  /** The event as it is recorded: at its own time, or at that of the latest receipt if that is later. */
  function RecordedAt(admitted: Event, prev: Option<Receipt>): int {
    if admitted.id.Some? && prev.Some? && admitted.at < prev.value.observed then prev.value.observed else admitted.at
  }

  /** An admitted request whose event is known changes nothing; otherwise it is refused for another device, or its event
      is recorded on every row and, if it has an identifier, remembered with what it was about. */
  lemma WhatACallRecords(db: Db, req: Request, now: int, prev: Option<Receipt>)
    requires Coherent(db) && req.device in db.dir.devices && Admit(db, req, now).Ok?
    ensures var admitted := Admit(db, req, now).value;
      var ev, (db', outcome) := admitted.(at := RecordedAt(admitted, prev)), Sync(db, req, now, prev);
      var known := req.id.Some? && (req.device, req.id.value) in db.receipts;
      && (known ==> db' == db && outcome == Accepted(db.receipts[(req.device, req.id.value)].session))
      && (!known && outcome.Rejected? ==> db' == db && Replay(db.ledger, ev, prev, now) == Err(outcome.error))
      && (!known && outcome.Accepted? ==>
            && db'.dir == db.dir && RowsFollow(db.ledger, db'.ledger, ev, prev, now)
            && db'.receipts ==
                 if req.id.None? then db.receipts
                 else db.receipts[(req.device, req.id.value) :=
                   Receipt(ev.at, now, req.status, req.task, admitted.project, req.idle, req.interval,
                           if req.status == Stopped then None else outcome.session)])
  {
    var admitted := Admit(db, req, now).value;
    var ev := admitted.(at := RecordedAt(admitted, prev));
    assert ev == if admitted.id.Some? then Clamp(admitted, prev) else admitted;
    if Replay(db.ledger, ev, prev, now).Ok? {
      EveryRowFollowsItsRule(db.ledger, ev, prev, now);
    }
  }
}
