/** What the tracked time of one device is booked on: the segments, each with the work of its session, against the
    pieces that the journal alone describes. */
module AttributedTime {
  import opened Records
  import opened TimeLedger
  import opened WorkSync
  import opened ServerRuns
  import opened OwnRows
  import opened TrackedTime

  /** A stretch of time on some work; one that still runs has no end. */
  datatype Piece = Piece(task: Option<TaskId>, project: Option<ProjectId>, start: int, end: Option<int>)

  function PieceOf(sessions: seq<Session>, g: Segment): Piece
    requires g.session < |sessions|
  {
    Piece(sessions[g.session].task, sessions[g.session].project, g.start, g.end)
  }

  /** The segment table as it is booked. */
  function Booked(l: Ledger): (pieces: seq<Piece>)
    requires ReferencesResolve(l)
    ensures |pieces| == |l.segments|
  {
    seq(|l.segments|, k requires 0 <= k < |l.segments| => PieceOf(l.sessions, l.segments[k]))
  }

  predicate Runs(pieces: seq<Piece>) { pieces != [] && pieces[|pieces| - 1].end.None? }

  function EndPiece(pieces: seq<Piece>, at: int): seq<Piece> {
    if Runs(pieces)
    then pieces[|pieces| - 1 := pieces[|pieces| - 1].(end := Some(Max(pieces[|pieces| - 1].start, at)))]
    else pieces
  }

  /** When the piece that ran until event a ends because of event b, if it does. */
  function EndedBy(a: Event, b: Event): Option<int> {
    if !WithinLease(a, b) then Some(a.at + a.interval * SECOND)
    else if !SameWork(a, b) || b.status == Stopped then Some(b.at)
    else if b.status == Paused then Some(b.at - b.idle * SECOND)
    else None
  }

  /** The pieces of a journal: an active event begins one on its work unless one goes on; the next event that does not
      continue it ends it. */
  function Pieces(journal: seq<Event>): seq<Piece> {
    if journal == [] then []
    else
      var front, ev := journal[..|journal| - 1], journal[|journal| - 1];
      var end := if front != [] && front[|front| - 1].status == Active then EndedBy(front[|front| - 1], ev) else None;
      Continued(Left(Pieces(front), end), ev)
  }

  function Left(pieces: seq<Piece>, end: Option<int>): seq<Piece> {
    if end.Some? then EndPiece(pieces, end.value) else pieces
  }

  function Continued(left: seq<Piece>, ev: Event): seq<Piece> {
    if ev.status == Active && !Runs(left) then left + [Piece(ev.task, ev.project, ev.at, None)] else left
  }

  // ----- How one event changes the bookings -----

  /** Sessions keep what they are about. */
  predicate SameSessions(l: Ledger, l': Ledger) {
    && |l.sessions| <= |l'.sessions|
    && forall i :: 0 <= i < |l.sessions| ==>
         l'.sessions[i].task == l.sessions[i].task && l'.sessions[i].project == l.sessions[i].project
  }

  lemma BookedAfterEnd(l: Ledger, l': Ledger, end: int)
    requires ReferencesResolve(l) && ReferencesResolve(l') && SameSessions(l, l')
    requires l'.segments == EndLast(l.segments, end)
    ensures Booked(l') == EndPiece(Booked(l), end)
  {}

  lemma BookedAfterBegin(l': Ledger, segments: seq<Segment>, g: Segment)
    requires ReferencesResolve(l') && l'.segments == segments + [g] && g.session < |l'.sessions|
    requires ReferencesResolve(Ledger(l'.sessions, segments))
    ensures Booked(l') == Booked(Ledger(l'.sessions, segments)) + [PieceOf(l'.sessions, g)]
  {}

  predicate NothingRuns(segments: seq<Segment>) { forall k :: 0 <= k < |segments| ==> !segments[k].Open() }

  function LeftSegments(segments: seq<Segment>, end: Option<int>): seq<Segment> {
    if end.Some? then EndLast(segments, end.value) else segments
  }

  /** What is left of the segments, and the segment that begins on some session, if any. */
  ghost predicate Becomes(l: Ledger, l': Ledger, end: Option<int>, ev: Event) {
    var left := LeftSegments(l.segments, end);
    if ev.status == Active && (end.Some? || NothingRuns(l.segments))
    then exists i: SessionId ::
           i < |l'.sessions| && l'.sessions[i].task == ev.task && l'.sessions[i].project == ev.project
                                && l'.segments == left + [Segment(i, ev.at, None)]
    else l'.segments == left
  }

  lemma AfterInactive(l: Ledger, journal: seq<Event>, ev: Event, prev: Option<Receipt>, now: int)
    requires Follows(l, journal, ev, prev) && journal[|journal| - 1].status != Active
    ensures Becomes(l, Advance(l, ev, prev, now).0, None, ev)
  {
    var l' := Advance(l, ev, prev, now).0;
    var own := OpenOn(l, ev.device);
    NoOpenSegment(l, ev.device);
    if own.None? {
      if ev.status == Active {
        assert l'.segments == l.segments + [Segment(|l.sessions|, ev.at, None)];
      }
    } else {
      InOrderShape(l.segments);
      var retired := RetireAt(l.sessions[own.value], ev, prev);
      if retired.Some? {
        CloseIsEndLast(l, ev.device, own.value, retired.value);
        if ev.status == Active {
          assert l'.segments == l.segments + [Segment(|l.sessions|, ev.at, None)];
        }
      } else if ev.status == Active {
        assert l'.segments == l.segments + [Segment(own.value, ev.at, None)];
      } else {
        CloseIsEndLast(l, ev.device, own.value, ev.at);
      }
    }
  }

  lemma AfterActiveRetired(l: Ledger, journal: seq<Event>, ev: Event, prev: Option<Receipt>, now: int)
    requires Follows(l, journal, ev, prev) && journal[|journal| - 1].status == Active
    requires !WithinLease(journal[|journal| - 1], ev) || !SameWork(journal[|journal| - 1], ev)
    ensures Becomes(l, Advance(l, ev, prev, now).0, EndedBy(journal[|journal| - 1], ev), ev)
  {
    var l' := Advance(l, ev, prev, now).0;
    var own := OpenOn(l, ev.device).value;
    InOrderShape(l.segments);
    var end := RetireAt(l.sessions[own], ev, prev).value;
    CloseIsEndLast(l, ev.device, own, end);
    if ev.status == Active {
      assert l'.segments == EndLast(l.segments, end) + [Segment(|l.sessions|, ev.at, None)];
    }
  }

  lemma AfterActiveKept(l: Ledger, journal: seq<Event>, ev: Event, prev: Option<Receipt>, now: int)
    requires Follows(l, journal, ev, prev) && journal[|journal| - 1].status == Active
    requires WithinLease(journal[|journal| - 1], ev) && SameWork(journal[|journal| - 1], ev)
    ensures Becomes(l, Advance(l, ev, prev, now).0, EndedBy(journal[|journal| - 1], ev), ev)
  {
    var own := OpenOn(l, ev.device).value;
    InOrderShape(l.segments);
    var end := if ev.status == Paused then ev.at - ev.idle * SECOND else ev.at;
    CloseIsEndLast(l, ev.device, own, end);
    assert OpenSince(l.segments, StretchStart(journal, |journal| - 1));
  }

  lemma AdvanceBecomes(l: Ledger, journal: seq<Event>, ev: Event, prev: Option<Receipt>, now: int)
    requires Follows(l, journal, ev, prev)
    ensures var last := journal[|journal| - 1];
            Becomes(l, Advance(l, ev, prev, now).0, if last.status == Active then EndedBy(last, ev) else None, ev)
  {
    var last := journal[|journal| - 1];
    if last.status != Active {
      AfterInactive(l, journal, ev, prev, now);
    } else if WithinLease(last, ev) && SameWork(last, ev) {
      AfterActiveKept(l, journal, ev, prev, now);
    } else {
      AfterActiveRetired(l, journal, ev, prev, now);
    }
  }

  lemma RunsMeansOpen(l: Ledger)
    requires ReferencesResolve(l) && OnlyLastMayBeOpen(l.segments)
    ensures Runs(Booked(l)) <==> !NothingRuns(l.segments)
  {
    if !NothingRuns(l.segments) {
      var k :| 0 <= k < |l.segments| && l.segments[k].Open();
      assert k == |l.segments| - 1;
    }
  }

  lemma BookedLeft(l: Ledger, sessions: seq<Session>, end: Option<int>)
    requires ReferencesResolve(l) && SameSessions(l, Ledger(sessions, l.segments))
    ensures ReferencesResolve(Ledger(sessions, LeftSegments(l.segments, end)))
    ensures Booked(Ledger(sessions, LeftSegments(l.segments, end))) == Left(Booked(l), end)
  {
    var kept := Ledger(sessions, LeftSegments(l.segments, end));
    assert |kept.segments| == |l.segments|;
    if end.Some? {
      BookedAfterEnd(l, kept, end.value);
    } else {
      assert Booked(kept) == Booked(l);
    }
  }

  /** The bookings follow. */
  lemma BookedBecomes(l: Ledger, l': Ledger, end: Option<int>, ev: Event)
    requires Consistent(l) && Consistent(l') && SameSessions(l, l') && OnlyLastMayBeOpen(l.segments)
    requires Becomes(l, l', end, ev)
    ensures Booked(l') == Continued(Left(Booked(l), end), ev)
  {
    BookedLeft(l, l'.sessions, end);
    RunsMeansOpen(l);
    if ev.status == Active && (end.Some? || NothingRuns(l.segments)) {
      var i: SessionId :| i < |l'.sessions| && l'.sessions[i].task == ev.task && l'.sessions[i].project == ev.project
                          && l'.segments == LeftSegments(l.segments, end) + [Segment(i, ev.at, None)];
      BookedAfterBegin(l', LeftSegments(l.segments, end), Segment(i, ev.at, None));
    }
  }

  lemma PiecesStep(journal: seq<Event>, ev: Event)
    requires journal != []
    ensures var last := journal[|journal| - 1];
            Pieces(journal + [ev])
                == Continued(Left(Pieces(journal), if last.status == Active then EndedBy(last, ev) else None), ev)
  {
    assert (journal + [ev])[..|journal|] == journal;
  }

  // ----- Every run -----

  lemma FirstIsBooked(l: Ledger, ev: Event, prev: Option<Receipt>, now: int)
    requires l.segments == [] && OpenOn(l, ev.device).None?
    ensures ReferencesResolve(Advance(l, ev, prev, now).0)
    ensures Booked(Advance(l, ev, prev, now).0) == Pieces([ev])
  {
    assert [ev][..0] == [] && Pieces([]) == [];
  }

  /** What the device's own rows are booked on. */
  ghost function OwnBooked(db: Db, device: DeviceId): seq<Piece>
    requires Coherent(db)
  {
    SoloResolves(db.ledger, device);
    Booked(Solo(db.ledger, device))
  }

  lemma ExtendIsBooked(h: History, c: Call, device: DeviceId)
    requires Accounts(h, device) && FromDevice(h.db, c, device) && Later(h, c)
    requires OwnBooked(h.db, device) == Pieces(h.journal)
    ensures Sound(Extend(h, c), device) && OwnBooked(Extend(h, c).db, device) == Pieces(Extend(h, c).journal)
  {
    ExtendSound(h, c, device);
    if Takes(h.db, c) {
      ExtendTakenIsBooked(h, c, device);
    }
  }

  lemma ExtendTakenIsBooked(h: History, c: Call, device: DeviceId)
    requires Accounts(h, device) && FromDevice(h.db, c, device) && Later(h, c) && Takes(h.db, c)
    requires OwnBooked(h.db, device) == Pieces(h.journal) && Coherent(Extend(h, c).db)
    ensures OwnBooked(Extend(h, c).db, device) == Pieces(h.journal + [Effective(h.db, c)])
  {
    var ev := Effective(h.db, c);
    TakenAdvances(h, c);
    SoloIsConsistent(h.db.ledger, device);
    SoloIsConsistent(Extend(h, c).db.ledger, device);
    if h.journal == [] {
      assert h.journal + [ev] == [ev];
      NoWorkIsOrdered(h.db, device, ev.at);
      FirstIsBooked(Solo(h.db.ledger, device), ev, c.prev, c.now);
    } else {
      PicksLastEvent(h, c, device);
      TakenIsBooked(Solo(h.db.ledger, device), h.journal, ev, c.prev, c.now);
    }
  }

  lemma SparedIsBooked(h: History, c: Command, device: DeviceId)
    requires Coherent(h.db) && Spared(h.db, c, device)
    ensures Coherent(Execute(h.db, c)) && OwnBooked(Execute(h.db, c), device) == OwnBooked(h.db, device)
  {
    ExecuteKeeps(h.db, c);
    SoloResolves(h.db.ledger, device);
    SoloResolves(Execute(h.db, c).ledger, device);
    SameRowsSameBookings(h.db.ledger, Execute(h.db, c).ledger, device);
  }

  lemma SameRowsSameBookings(l: Ledger, l': Ledger, device: DeviceId)
    requires ReferencesResolve(l) && ReferencesResolve(l') && OwnRowsStay(l, l', device)
    requires ReferencesResolve(Solo(l, device)) && ReferencesResolve(Solo(l', device)) && Alone(Solo(l, device), device)
    ensures Booked(Solo(l', device)) == Booked(Solo(l, device))
  {
    var s, s' := Solo(l, device), Solo(l', device);
    forall k | 0 <= k < |s.segments|
      ensures s'.sessions[s.segments[k].session] == s.sessions[s.segments[k].session]
    {}
  }

  lemma TakenIsBooked(l: Ledger, journal: seq<Event>, ev: Event, prev: Option<Receipt>, now: int)
    requires Follows(l, journal, ev, prev) && OwnersAgree(l, ev) && Booked(l) == Pieces(journal)
    requires Consistent(Advance(l, ev, prev, now).0)
    ensures Booked(Advance(l, ev, prev, now).0) == Pieces(journal + [ev])
  {
    var last := journal[|journal| - 1];
    InOrderShape(l.segments);
    SessionsStay(l, ev, prev, now);
    AdvanceBecomes(l, journal, ev, prev, now);
    BookedBecomes(l, Advance(l, ev, prev, now).0, if last.status == Active then EndedBy(last, ev) else None, ev);
    PiecesStep(journal, ev);
  }

  lemma SessionsStay(l: Ledger, ev: Event, prev: Option<Receipt>, now: int)
    ensures SameSessions(l, Advance(l, ev, prev, now).0)
  {}

  lemma TurnIsBooked(h: History, turn: Turn, device: DeviceId)
    requires Accounts(h, device) && MayFollow(h, turn, device) && (turn.Mine? ==> Later(h, turn.call))
    requires OwnBooked(h.db, device) == Pieces(h.journal)
    ensures var h' := TakeTurn(h, turn, device); Accounts(h', device) && OwnBooked(h'.db, device) == Pieces(h'.journal)
  {
    TurnAccounts(h, turn, device);
    match turn
    case Mine(call) => ExtendIsBooked(h, call, device);
    case Theirs(command) => SparedIsBooked(h, command, device);
  }

  /** For every run with strictly increasing times of the device's events, and whatever others do that spares its rows,
      the device's segments with the work of their sessions are exactly what the journal of applied events describes:
      each stretch is booked on the task and project of the events that made it, from the event that began it to the
      instant that the event after its last one gives it. */
  lemma {:induction false} BookingsAreThePieces(h: History, turns: seq<Turn>, device: DeviceId)
    requires Accounts(h, device) && TimelyRun(h, turns, device) && OwnBooked(h.db, device) == Pieces(h.journal)
    ensures DeviceRun(h, turns, device)
    ensures var h' := RunAll(h, turns, device); Sound(h', device) && OwnBooked(h'.db, device) == Pieces(h'.journal)
    decreases |turns|
  {
    TimelyIsDeviceRun(h, turns, device);
    if |turns| > 0 {
      TurnKeepsSound(h, turns[0], device);
      TurnIsBooked(h, turns[0], device);
      BookingsAreThePieces(TakeTurn(h, turns[0], device), turns[1..], device);
    }
  }

  lemma NewDeviceIsBooked(db: Db, device: DeviceId)
    requires Coherent(db) && NoWorkYet(db, device)
    ensures OwnBooked(db, device) == Pieces([])
  {
    NoWorkIsOrdered(db, device, 0);
  }

  predicate Meets(p: Piece, at: int) { p.start <= at && (p.end.None? || at <= p.end.value) }

  /** A capture taken at an instant is attributed to the work of a piece that meets it; it is attributed to none exactly
      if no piece does. Two pieces meet an instant only where one ends and the next begins, and then it is one that
      begins there. */
  ghost predicate Attributed(l: Ledger, pieces: seq<Piece>, at: int, found: Option<SessionId>) {
    match found
    case None => forall k :: 0 <= k < |pieces| ==> !Meets(pieces[k], at)
    case Some(i) =>
      exists j :: 0 <= j < |pieces| && Meets(pieces[j], at) && i < |l.sessions|
        && l.sessions[i].task == pieces[j].task && l.sessions[i].project == pieces[j].project
        && forall k :: 0 <= k < |pieces| && Meets(pieces[k], at) ==> k == j || pieces[j].start == at
  }

  lemma RowsOfTheDevice(l: Ledger, device: DeviceId)
    requires ReferencesResolve(l) && ReferencesResolve(Solo(l, device))
    ensures forall g :: g in Solo(l, device).segments <==> g in l.segments && l.sessions[g.session].device == device
    ensures forall k :: 0 <= k < |Solo(l, device).segments| ==>
      Booked(Solo(l, device))[k] == PieceOf(l.sessions, Solo(l, device).segments[k])
  {
    OwnMembers(l.sessions, l.segments, device);
    var rows := Solo(l, device).segments;
    forall k | 0 <= k < |rows|
      ensures rows[k].session < |l.sessions| && Solo(l, device).sessions[rows[k].session] == l.sessions[rows[k].session]
    {
      assert rows[k] in rows;
    }
  }

  /** Of two segments in order that meet an instant, the later one begins there. */
  lemma TheLaterBegins(rows: seq<Segment>, j: int, k: int, at: int)
    requires InOrder(rows) && 0 <= j < |rows| && 0 <= k < |rows| && rows[k].start <= rows[j].start <= at
    requires (rows[j].end.None? || at <= rows[j].end.value) && (rows[k].end.None? || at <= rows[k].end.value)
    ensures k == j || rows[j].start == at
  {}

  lemma AnswerIsAttributed(l: Ledger, device: DeviceId, at: int, found: Option<SessionId>)
    requires ReferencesResolve(l) && ReferencesResolve(Solo(l, device)) && Answers(l, device, at, found)
    requires InOrder(Solo(l, device).segments)
    ensures Attributed(l, Booked(Solo(l, device)), at, found)
  {
    var rows := Solo(l, device).segments;
    var pieces := Booked(Solo(l, device));
    RowsOfTheDevice(l, device);
    if found.Some? {
      var g :| g in l.segments && g.session == found.value && l.sessions[found.value].device == device
        && g.start <= at && (g.end.None? || at <= g.end.value) && NoneStartsLater(l, device, at, g);
      assert g in rows;
      var j :| 0 <= j < |rows| && rows[j] == g;
      assert Meets(pieces[j], at);
      forall k | 0 <= k < |pieces| && Meets(pieces[k], at)
        ensures k == j || pieces[j].start == at
      {
        assert rows[k] in rows;
        TheLaterBegins(rows, j, k, at);
      }
    } else {
      forall k | 0 <= k < |pieces|
        ensures !Meets(pieces[k], at)
      {
        assert rows[k] in rows;
      }
    }
  }

  /** After every such run, the capture lookup attributes every instant to the work that the journal alone describes. */
  lemma CapturesGoToTheirPiece(h: History, turns: seq<Turn>, device: DeviceId, at: int, found: Option<SessionId>)
    requires Accounts(h, device) && TimelyRun(h, turns, device) && OwnBooked(h.db, device) == Pieces(h.journal)
    requires (TimelyIsDeviceRun(h, turns, device); SegmentsStayDisjoint(h, turns, device);
      Answers(RunAll(h, turns, device).db.ledger, device, at, found))
    ensures (TimelyIsDeviceRun(h, turns, device);
      var h' := RunAll(h, turns, device); Attributed(h'.db.ledger, Pieces(h'.journal), at, found))
  {
    TimelyIsDeviceRun(h, turns, device);
    SegmentsStayDisjoint(h, turns, device);
    BookingsAreThePieces(h, turns, device);
    var l := RunAll(h, turns, device).db.ledger;
    SoloResolves(l, device);
    AnswerIsAttributed(l, device, at, found);
  }

  /** The total of the pieces, a running one measured up to a given instant. */
  function Length(pieces: seq<Piece>, asOf: int): int {
    if pieces == [] then 0
    else
      var p := pieces[|pieces| - 1];
      Length(pieces[..|pieces| - 1], asOf) + (if p.end.Some? then p.end.value else asOf) - p.start
  }

  lemma {:induction false} BookedLength(l: Ledger, asOf: int)
    requires ReferencesResolve(l)
    ensures Length(Booked(l), asOf) == Tracked(l.segments, asOf)
    decreases |l.segments|
  {
    if l.segments != [] {
      var n := |l.segments| - 1;
      var shorter := Ledger(l.sessions, l.segments[..n]);
      assert Booked(l)[..n] == Booked(shorter);
      BookedLength(shorter, asOf);
    }
  }

  /** At whatever instant after such a run the two are measured, the pieces that the journal alone describes last
      exactly as long as the server has tracked the device. */
  lemma PiecesLastTheTrackedTotal(h: History, turns: seq<Turn>, device: DeviceId, asOf: int)
    requires Accounts(h, device) && TimelyRun(h, turns, device) && OwnBooked(h.db, device) == Pieces(h.journal)
    ensures DeviceRun(h, turns, device) && Coherent(RunAll(h, turns, device).db)
    ensures var h' := RunAll(h, turns, device);
            Length(Pieces(h'.journal), asOf) == Tracked(Solo(h'.db.ledger, device).segments, asOf)
  {
    BookingsAreThePieces(h, turns, device);
    var h' := RunAll(h, turns, device);
    SoloResolves(h'.db.ledger, device);
    BookedLength(Solo(h'.db.ledger, device), asOf);
  }

  lemma LengthAppend(pieces: seq<Piece>, p: Piece, asOf: int)
    ensures Length(pieces + [p], asOf) == Length(pieces, asOf) + (if p.end.Some? then p.end.value else asOf) - p.start
  {
    assert (pieces + [p])[..|pieces|] == pieces;
  }

  ghost predicate OnlyLastRuns(pieces: seq<Piece>) {
    forall k :: 0 <= k < |pieces| - 1 ==> pieces[k].end.Some?
  }

  lemma {:induction false} LengthEnded(pieces: seq<Piece>, a: int, b: int)
    requires forall k :: 0 <= k < |pieces| ==> pieces[k].end.Some?
    ensures Length(pieces, a) == Length(pieces, b)
  {
    if pieces != [] {
      LengthEnded(pieces[..|pieces| - 1], a, b);
    }
  }

  /** Measuring a running last piece at another instant, or ending it, changes the length by that much. */
  lemma LengthLeft(pieces: seq<Piece>, end: int, a: int, b: int)
    requires OnlyLastRuns(pieces) && Runs(pieces)
    ensures Length(EndPiece(pieces, end), b) == Length(pieces, a) + Max(pieces[|pieces| - 1].start, end) - a
    ensures Length(pieces, b) == Length(pieces, a) + b - a
    ensures forall k :: 0 <= k < |pieces| ==> EndPiece(pieces, end)[k].end.Some?
  {
    var n := |pieces| - 1;
    assert EndPiece(pieces, end)[..n] == pieces[..n];
    LengthEnded(pieces[..n], a, b);
  }

  /** The pieces fit the journal: one runs exactly while the journal is active, since the stretch began. */
  ghost predicate Fit(pieces: seq<Piece>, journal: seq<Event>)
    requires journal != []
  {
    var last := |journal| - 1;
    && OnlyLastRuns(pieces)
    && (Runs(pieces) <==> journal[last].status == Active)
    && (Runs(pieces) ==> pieces[|pieces| - 1].start == StretchStart(journal, last))
    && Length(pieces, journal[last].at) == Earned(journal)
  }

  lemma {:induction false} InactiveFits(journal: seq<Event>, ev: Event, pieces: seq<Piece>)
    requires journal != [] && Fit(pieces, journal) && journal[|journal| - 1].status != Active
    ensures Fit(Continued(pieces, ev), journal + [ev])
  {
    EarnedStep(journal, ev);
    assert pieces != [] ==> pieces[|pieces| - 1].end.Some?;
    LengthEnded(pieces, journal[|journal| - 1].at, ev.at);
    if ev.status == Active {
      LengthAppend(pieces, Piece(ev.task, ev.project, ev.at, None), ev.at);
    }
  }

  lemma {:induction false} StretchIsPast(journal: seq<Event>, i: nat)
    requires i < |journal| && forall j :: 0 < j < |journal| ==> journal[j - 1].at <= journal[j].at
    ensures StretchStart(journal, i) <= journal[i].at
  {
    if i > 0 {
      StretchIsPast(journal, i - 1);
    }
  }

  lemma {:induction false} ActiveFits(journal: seq<Event>, ev: Event, pieces: seq<Piece>)
    requires journal != [] && Fit(pieces, journal) && journal[|journal| - 1].status == Active
    requires StretchStart(journal, |journal| - 1) <= journal[|journal| - 1].at <= ev.at
    ensures Fit(Continued(Left(pieces, EndedBy(journal[|journal| - 1], ev)), ev), journal + [ev])
  {
    var last := journal[|journal| - 1];
    var end := EndedBy(last, ev);
    EarnedStep(journal, ev);
    StretchOfPrefix(journal, ev, |journal| - 1);
    LengthLeft(pieces, if end.Some? then end.value else ev.at, last.at, ev.at);
    if end.Some? && ev.status == Active {
      LengthAppend(EndPiece(pieces, end.value), Piece(ev.task, ev.project, ev.at, None), ev.at);
    }
  }

  lemma {:induction false} PiecesFit(journal: seq<Event>)
    requires journal != [] && forall i :: 0 < i < |journal| ==> journal[i - 1].at <= journal[i].at
    ensures Fit(Pieces(journal), journal)
  {
    var front, ev := journal[..|journal| - 1], journal[|journal| - 1];
    assert front + [ev] == journal;
    if front == [] {
      assert Pieces(front) == [];
    } else {
      PiecesFit(front);
      StretchIsPast(front, |front| - 1);
      if front[|front| - 1].status == Active {
        ActiveFits(front, ev, Pieces(front));
      } else {
        InactiveFits(front, ev, Pieces(front));
      }
    }
  }

  /** The pieces of any journal whose times do not step back last as long as the journal has earned: two descriptions
      of the same time. */
  lemma PiecesLastWhatIsEarned(journal: seq<Event>)
    requires journal != [] && forall i :: 0 < i < |journal| ==> journal[i - 1].at <= journal[i].at
    ensures Length(Pieces(journal), journal[|journal| - 1].at) == Earned(journal)
  {
    PiecesFit(journal);
  }
}
