/** Work sessions and their time segments, what makes the two tables agree, and the two ways the server
    changes them: work is stopped, or work is started. */
module TimeLedger {
  import opened Records

  datatype Ledger = Ledger(sessions: seq<Session>, segments: seq<Segment>)

  // ----- Consistency -----

  ghost predicate ReferencesResolve(l: Ledger) {
    forall k :: 0 <= k < |l.segments| ==> l.segments[k].session < |l.sessions|
  }

  ghost predicate OpenSegmentsAreActive(l: Ledger)
    requires ReferencesResolve(l)
  {
    forall k :: 0 <= k < |l.segments| && l.segments[k].Open() ==> l.sessions[l.segments[k].session].status == Active
  }

  ghost predicate OpenSegmentsAreUnique(l: Ledger) {
    forall j, k :: 0 <= j < k < |l.segments| && l.segments[j].Open() && l.segments[k].Open() ==>
      l.segments[j].session != l.segments[k].session
  }

  ghost predicate HasOpenSegment(l: Ledger, i: SessionId) {
    exists k :: 0 <= k < |l.segments| && l.segments[k].Open() && l.segments[k].session == i
  }

  ghost predicate ActiveSessionsHaveSegment(l: Ledger) {
    forall i :: 0 <= i < |l.sessions| && l.sessions[i].status == Active ==> HasOpenSegment(l, i)
  }

  ghost predicate EndedIffStopped(l: Ledger) {
    forall i :: 0 <= i < |l.sessions| ==> (l.sessions[i].ended.Some? <==> !l.sessions[i].Open())
  }

  /** The unique index `idx_sessions_one_open_per_device`. */
  ghost predicate OneOpenPerDevice(l: Ledger) {
    forall i, j :: 0 <= i < j < |l.sessions| && l.sessions[i].Open() && l.sessions[j].Open() ==>
      l.sessions[i].device != l.sessions[j].device
  }

  /** The unique index `uq_work_sessions_one_active_per_user`, which ignores sessions without a user. */
  ghost predicate OneOpenPerUser(l: Ledger) {
    forall i, j ::
      0 <= i < j < |l.sessions| && l.sessions[i].Open() && l.sessions[j].Open() && l.sessions[i].user.Some? ==>
      l.sessions[i].user != l.sessions[j].user
  }

  /** A session is active iff it has exactly one open segment, and each device has at most one open session. */
  ghost predicate TablesAgree(l: Ledger) {
    && ReferencesResolve(l)
    && OpenSegmentsAreActive(l)
    && OpenSegmentsAreUnique(l)
    && ActiveSessionsHaveSegment(l)
    && EndedIffStopped(l)
    && OneOpenPerDevice(l)
  }

  ghost predicate Consistent(l: Ledger) {
    TablesAgree(l) && OneOpenPerUser(l)
  }

  /** No segment ends before it starts. */
  ghost predicate WellFormed(l: Ledger) {
    forall k :: 0 <= k < |l.segments| && !l.segments[k].Open() ==> l.segments[k].start <= l.segments[k].end.value
  }

  // ----- Stopping work -----

  /** `UPDATE work_session_segments SET ended_at = GREATEST(started_at, at)` on the open segments of a set of
      sessions. */
  function CloseSegments(segments: seq<Segment>, stopped: set<SessionId>, at: int): (r: seq<Segment>)
    ensures |r| == |segments|
  {
    seq(|segments|, k requires 0 <= k < |segments| =>
      if segments[k].Open() && segments[k].session in stopped
      then segments[k].(end := Some(Max(segments[k].start, at)))
      else segments[k])
  }

  /** The same statement without `GREATEST`, as task archival issues it. */
  function CutSegments(segments: seq<Segment>, stopped: set<SessionId>, at: int): (r: seq<Segment>)
    ensures |r| == |segments|
  {
    seq(|segments|, k requires 0 <= k < |segments| =>
      if segments[k].Open() && segments[k].session in stopped then segments[k].(end := Some(at)) else segments[k])
  }

  /** `_stop_session`: close the session's segment and mark it stopped at the given instant. */
  function StopSession(l: Ledger, i: SessionId, at: int): Ledger
    requires i < |l.sessions|
  {
    Ledger(l.sessions[i := l.sessions[i].(status := Stopped, ended := Some(at), updated := at)],
           CloseSegments(l.segments, {i}, at))
  }

  /** What every way of stopping work has in common: the open sessions of a set become stopped, their open
      segments get an end, and nothing else changes. */
  ghost predicate Stops(l: Ledger, l': Ledger, stopped: set<SessionId>) {
    && |l'.sessions| == |l.sessions|
    && |l'.segments| == |l.segments|
    && (forall i :: 0 <= i < |l.sessions| ==> SessionStops(l.sessions[i], l'.sessions[i], i in stopped))
    && (forall k :: 0 <= k < |l.segments| ==>
        SegmentStops(l.segments[k], l'.segments[k], l.segments[k].session in stopped))
  }

  ghost predicate SessionStops(s: Session, s': Session, stop: bool) {
    && (stop && s.Open() ==> s' == s.(status := Stopped, ended := s'.ended, updated := s'.updated) && s'.ended.Some?)
    && (!(stop && s.Open()) ==> s' == s)
  }

  ghost predicate SegmentStops(g: Segment, g': Segment, stop: bool) {
    && (stop && g.Open() ==> g' == g.(end := g'.end) && g'.end.Some?)
    && (!(stop && g.Open()) ==> g' == g)
  }

  lemma StopsKeepsConsistent(l: Ledger, l': Ledger, stopped: set<SessionId>)
    requires TablesAgree(l) && Stops(l, l', stopped)
    ensures TablesAgree(l') && (OneOpenPerUser(l) ==> OneOpenPerUser(l'))
    ensures forall i :: i in stopped && i < |l'.sessions| ==> !l'.sessions[i].Open()
  {
    forall k | 0 <= k < |l'.segments|
      ensures l'.segments[k].session < |l'.sessions|
      ensures l'.segments[k].Open() ==> l'.segments[k] == l.segments[k] && l.segments[k].session !in stopped
    {
      assert SegmentStops(l.segments[k], l'.segments[k], l.segments[k].session in stopped);
    }
    forall i | 0 <= i < |l'.sessions|
      ensures l'.sessions[i].Open() ==> l'.sessions[i] == l.sessions[i]
      ensures i in stopped ==> !l'.sessions[i].Open()
      ensures l'.sessions[i].ended.Some? <==> !l'.sessions[i].Open()
      ensures i !in stopped ==> l'.sessions[i] == l.sessions[i]
    {
      assert SessionStops(l.sessions[i], l'.sessions[i], i in stopped);
    }
    forall i | 0 <= i < |l'.sessions| && l'.sessions[i].status == Active
      ensures HasOpenSegment(l', i)
    {
      assert HasOpenSegment(l, i);
      var k :| 0 <= k < |l.segments| && l.segments[k].Open() && l.segments[k].session == i;
      assert i !in stopped;
      assert SegmentStops(l.segments[k], l'.segments[k], false);
    }
  }

  lemma StopSessionStops(l: Ledger, i: SessionId, at: int)
    requires i < |l.sessions| && l.sessions[i].Open()
    ensures Stops(l, StopSession(l, i, at), {i})
    ensures WellFormed(l) ==> WellFormed(StopSession(l, i, at))
  {
    var l' := StopSession(l, i, at);
    forall k | 0 <= k < |l.segments|
      ensures SegmentStops(l.segments[k], l'.segments[k], l.segments[k].session in {i})
    {}
  }

  // ----- Starting work -----

  /** Insert a session; an active one gets its first segment at the same instant. */
  function OpenSession(l: Ledger, s: Session): Ledger {
    Ledger(l.sessions + [s],
           if s.status == Active then l.segments + [Segment(|l.sessions|, s.started, None)] else l.segments)
  }

  lemma OpenSessionKeepsConsistent(l: Ledger, s: Session)
    requires Consistent(l)
    requires s.Open() && s.ended.None?
    requires forall i :: 0 <= i < |l.sessions| && l.sessions[i].Open() ==>
               l.sessions[i].device != s.device && (s.user.Some? ==> l.sessions[i].user != s.user)
    ensures Consistent(OpenSession(l, s))
    ensures WellFormed(l) ==> WellFormed(OpenSession(l, s))
  {
    OpenSessionKeepsSegments(l, s);
    OpenSessionHasSegment(l, s);
    OpenSessionIsAlone(l, s);
  }

  lemma OpenSessionKeepsSegments(l: Ledger, s: Session)
    requires ReferencesResolve(l) && OpenSegmentsAreActive(l) && OpenSegmentsAreUnique(l)
    ensures ReferencesResolve(OpenSession(l, s))
    ensures OpenSegmentsAreActive(OpenSession(l, s)) && OpenSegmentsAreUnique(OpenSession(l, s))
  {
    var l' := OpenSession(l, s);
    forall k | 0 <= k < |l.segments|
      ensures l'.segments[k] == l.segments[k] && l'.segments[k].session < |l.sessions|
    {}
  }

  lemma OpenSessionIsAlone(l: Ledger, s: Session)
    requires OneOpenPerDevice(l) && OneOpenPerUser(l)
    requires forall i :: 0 <= i < |l.sessions| && l.sessions[i].Open() ==>
               l.sessions[i].device != s.device && (s.user.Some? ==> l.sessions[i].user != s.user)
    ensures OneOpenPerDevice(OpenSession(l, s)) && OneOpenPerUser(OpenSession(l, s))
  {}

  lemma OpenSessionHasSegment(l: Ledger, s: Session)
    requires ActiveSessionsHaveSegment(l)
    ensures ActiveSessionsHaveSegment(OpenSession(l, s))
  {
    var l' := OpenSession(l, s);
    forall i | 0 <= i < |l'.sessions| && l'.sessions[i].status == Active
      ensures HasOpenSegment(l', i)
    {
      if i < |l.sessions| {
        assert HasOpenSegment(l, i);
        var k :| 0 <= k < |l.segments| && l.segments[k].Open() && l.segments[k].session == i;
        assert l'.segments[k].Open() && l'.segments[k].session == i;
      } else {
        var k := |l.segments|;
        assert l'.segments[k].Open() && l'.segments[k].session == i;
      }
    }
  }

  /** Pause: close the session's segment and mark it paused. */
  function PauseSession(l: Ledger, i: SessionId, at: int, now: int): Ledger
    requires i < |l.sessions|
  {
    Ledger(l.sessions[i := l.sessions[i].(status := Paused, updated := now)], CloseSegments(l.segments, {i}, at))
  }

  lemma PauseKeepsConsistent(l: Ledger, i: SessionId, at: int, now: int)
    requires Consistent(l) && i < |l.sessions| && l.sessions[i].Open()
    ensures Consistent(PauseSession(l, i, at, now))
    ensures WellFormed(l) ==> WellFormed(PauseSession(l, i, at, now))
  {
    var l' := PauseSession(l, i, at, now);
    forall j | 0 <= j < |l'.sessions| && l'.sessions[j].status == Active
      ensures HasOpenSegment(l', j)
    {
      assert HasOpenSegment(l, j);
      var k :| 0 <= k < |l.segments| && l.segments[k].Open() && l.segments[k].session == j;
      assert l'.segments[k] == l.segments[k];
    }
  }

  /** Resume: open a new segment of a paused session. */
  function ResumeSession(l: Ledger, i: SessionId, at: int, now: int): Ledger
    requires i < |l.sessions|
  {
    Ledger(l.sessions[i := l.sessions[i].(status := Active, updated := now)], l.segments + [Segment(i, at, None)])
  }

  lemma ResumeKeepsConsistent(l: Ledger, i: SessionId, at: int, now: int)
    requires Consistent(l) && i < |l.sessions| && l.sessions[i].status == Paused
    ensures Consistent(ResumeSession(l, i, at, now))
    ensures WellFormed(l) ==> WellFormed(ResumeSession(l, i, at, now))
  {
    var l' := ResumeSession(l, i, at, now);
    forall k | 0 <= k < |l.segments|
      ensures l'.segments[k] == l.segments[k]
      ensures l.segments[k].Open() ==> l.segments[k].session != i
    {}
    forall j | 0 <= j < |l'.sessions| && l'.sessions[j].status == Active
      ensures HasOpenSegment(l', j)
    {
      if j == i {
        assert l'.segments[|l.segments|].Open() && l'.segments[|l.segments|].session == i;
      } else {
        assert HasOpenSegment(l, j);
        var k :| 0 <= k < |l.segments| && l.segments[k].Open() && l.segments[k].session == j;
        assert l'.segments[k] == l.segments[k];
      }
    }
  }

  /** A heartbeat that changes neither status nor work only refreshes the session row. */
  function TouchSession(l: Ledger, i: SessionId, now: int): Ledger
    requires i < |l.sessions|
  {
    l.(sessions := l.sessions[i := l.sessions[i].(updated := now)])
  }

  lemma TouchKeepsConsistent(l: Ledger, i: SessionId, now: int)
    requires Consistent(l) && i < |l.sessions|
    ensures Consistent(TouchSession(l, i, now))
    ensures WellFormed(l) ==> WellFormed(TouchSession(l, i, now))
  {
    var l' := TouchSession(l, i, now);
    forall j | 0 <= j < |l'.sessions| && l'.sessions[j].status == Active
      ensures HasOpenSegment(l', j)
    {
      assert HasOpenSegment(l, j);
    }
  }
}
