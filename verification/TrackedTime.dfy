/** One device's journal against the segments it leaves on the server, among the rows of all other devices and the
    changes that others make: its segments are disjoint and in order, the capture lookup finds the right one, and
    its tracked total is a function of the journal alone. */
module TrackedTime {
  import opened Records
  import opened TimeLedger
  import opened WorkSync
  import opened ServerRuns
  import opened OwnRows
  import opened Compaction

  // ----- Runs of one device -----

  datatype Call = Call(req: Request, now: int, prev: Option<Receipt>)

  ghost predicate FromDevice(db: Db, c: Call, device: DeviceId) {
    && c.req.device == device && device in db.dir.devices
    && c.req.id.Some?
    && IsPrevious(db.receipts, device, c.prev)
  }

  ghost predicate Takes(db: Db, c: Call)
    requires ReferencesResolve(db.ledger) && c.req.device in db.dir.devices
  {
    && Admit(db, c.req, c.now).Ok?
    && !AlreadyApplied(db.receipts, Admit(db, c.req, c.now).value)
    && Sync(db, c.req, c.now, c.prev).1.Accepted?
  }

  function Effective(db: Db, c: Call): Event
    requires ReferencesResolve(db.ledger) && c.req.device in db.dir.devices
    requires Admit(db, c.req, c.now).Ok?
  {
    Clamp(Admit(db, c.req, c.now).value, c.prev)
  }

  /** What the calls so far did: the tables, and the journal of the events that were applied, in order. */
  datatype History = History(db: Db, journal: seq<Event>)

  ghost function Extend(h: History, c: Call): History
    requires ReferencesResolve(h.db.ledger) && c.req.device in h.db.dir.devices
  {
    History(Sync(h.db, c.req, c.now, c.prev).0,
            if Takes(h.db, c) then h.journal + [Effective(h.db, c)] else h.journal)
  }

  // ----- Order and disjointness -----

  ghost predicate OnlyLastMayBeOpen(segments: seq<Segment>) {
    forall k :: 0 <= k < |segments| - 1 ==> !segments[k].Open()
  }

  /** Each segment ends before, or when, any later one starts. */
  ghost predicate InOrder(segments: seq<Segment>) {
    forall j, k :: 0 <= j < k < |segments| ==> !segments[j].Open() && segments[j].end.value <= segments[k].start
  }

  ghost predicate NotAfter(segments: seq<Segment>, at: int) {
    forall k :: 0 <= k < |segments| ==> segments[k].start <= at && (segments[k].Open() || segments[k].end.value <= at)
  }

  /** A device alone has at most one open session, hence at most one open segment. */
  lemma OneOpenSegment(l: Ledger, device: DeviceId, k: nat)
    requires Consistent(l) && Alone(l, device)
    requires k < |l.segments| && l.segments[k].Open()
    ensures OpenOn(l, device) == Some(l.segments[k].session)
    ensures forall j :: 0 <= j < |l.segments| && l.segments[j].Open() ==> j == k
  {
    var i := OpenOn(l, device);
    assert l.sessions[l.segments[k].session].device == device;
  }

  lemma NoOpenSegment(l: Ledger, device: DeviceId)
    requires Consistent(l) && Alone(l, device)
    requires OpenOn(l, device).None? || l.sessions[OpenOn(l, device).value].status == Paused
    ensures forall k :: 0 <= k < |l.segments| ==> !l.segments[k].Open()
  {
    forall k | 0 <= k < |l.segments|
      ensures !l.segments[k].Open()
    {
      if l.segments[k].Open() {
        OneOpenSegment(l, device, k);
      }
    }
  }

  /** Closing the device's session only affects the last segment. */
  function EndLast(segments: seq<Segment>, at: int): seq<Segment> {
    if |segments| > 0 && segments[|segments| - 1].Open()
    then segments[|segments| - 1 := segments[|segments| - 1].(end := Some(Max(segments[|segments| - 1].start, at)))]
    else segments
  }

  lemma CloseIsEndLast(l: Ledger, device: DeviceId, i: SessionId, at: int)
    requires Consistent(l) && Alone(l, device) && OnlyLastMayBeOpen(l.segments)
    requires OpenOn(l, device) == Some(i)
    ensures CloseSegments(l.segments, {i}, at) == EndLast(l.segments, at)
  {
    forall k | 0 <= k < |l.segments|
      ensures CloseSegments(l.segments, {i}, at)[k] == EndLast(l.segments, at)[k]
    {
      if l.segments[k].Open() {
        OneOpenSegment(l, device, k);
      }
    }
  }

  ghost predicate Ordered(l: Ledger, device: DeviceId, at: int) {
    && Consistent(l) && WellFormed(l) && Alone(l, device)
    && InOrder(l.segments) && NotAfter(l.segments, at)
  }

  lemma InOrderShape(segments: seq<Segment>)
    requires InOrder(segments)
    ensures OnlyLastMayBeOpen(segments)
  {
    forall k | 0 <= k < |segments| - 1
      ensures !segments[k].Open()
    {
      var last := segments[|segments| - 1];
      assert !segments[k].Open() && segments[k].end.value <= last.start;
    }
  }

  lemma EndLastOrdered(segments: seq<Segment>, end: int, at: int)
    requires InOrder(segments) && NotAfter(segments, at) && end <= at
    ensures InOrder(EndLast(segments, end)) && NotAfter(EndLast(segments, end), at)
    ensures forall k :: 0 <= k < |segments| ==> !EndLast(segments, end)[k].Open()
  {}

  lemma AppendOrdered(segments: seq<Segment>, g: Segment, at: int)
    requires InOrder(segments) && NotAfter(segments, at)
    requires forall k :: 0 <= k < |segments| ==> !segments[k].Open()
    requires g.start == at && g.Open()
    ensures InOrder(segments + [g]) && NotAfter(segments + [g], at)
  {}

  /** The segments an event leaves, in terms of the ones it found. */
  ghost predicate SegmentsAdvance(before: seq<Segment>, after: seq<Segment>, ev: Event, end: int) {
    || after == before
    || after == EndLast(before, end)
    || (exists i: SessionId :: after == EndLast(before, end) + [Segment(i, ev.at, None)])
  }

  lemma AdvanceSegments(l: Ledger, ev: Event, prev: Option<Receipt>, now: int) returns (end: int)
    requires Consistent(l) && Alone(l, ev.device) && OnlyLastMayBeOpen(l.segments) && OwnersAgree(l, ev)
    requires prev.Some? ==> prev.value.observed <= ev.at
    ensures end <= ev.at
    ensures SegmentsAdvance(l.segments, Advance(l, ev, prev, now).0.segments, ev, end)
  {
    end := ev.at;
    var own := OpenOn(l, ev.device);
    if own.None? {
      NoOpenSegment(l, ev.device);
      assert EndLast(l.segments, end) == l.segments;
      return;
    }
    CloseIsEndLast(l, ev.device, own.value, ev.at);
    var retired := RetireAt(l.sessions[own.value], ev, prev);
    if retired.Some? {
      end := retired.value;
      CloseIsEndLast(l, ev.device, own.value, end);
      assert EndLast(l.segments, end) + [] == EndLast(l.segments, end);
    } else if ev.status == Paused && l.sessions[own.value].status == Active {
      end := ev.at - ev.idle * SECOND;
      CloseIsEndLast(l, ev.device, own.value, end);
    } else if ev.status == Active && l.sessions[own.value].status == Paused {
      NoOpenSegment(l, ev.device);
      assert EndLast(l.segments, end) == l.segments;
    }
  }

  lemma AdvanceAlone(l: Ledger, ev: Event, prev: Option<Receipt>, now: int)
    requires ReferencesResolve(l) && Alone(l, ev.device)
    ensures ReferencesResolve(Advance(l, ev, prev, now).0) && Alone(Advance(l, ev, prev, now).0, ev.device)
  {}

  lemma AdvanceOrdered(l: Ledger, ev: Event, prev: Option<Receipt>, now: int, at: int)
    requires Ordered(l, ev.device, at) && OwnersAgree(l, ev) && at <= ev.at
    requires prev.Some? ==> prev.value.observed <= ev.at
    ensures Ordered(Advance(l, ev, prev, now).0, ev.device, ev.at)
  {
    AdvanceKeeps(l, ev, prev, now);
    AdvanceAlone(l, ev, prev, now);
    AdvanceInOrder(l, ev, prev, now, at);
  }

  lemma AdvanceInOrder(l: Ledger, ev: Event, prev: Option<Receipt>, now: int, at: int)
    requires Ordered(l, ev.device, at) && OwnersAgree(l, ev) && at <= ev.at
    requires prev.Some? ==> prev.value.observed <= ev.at
    ensures InOrder(Advance(l, ev, prev, now).0.segments) && NotAfter(Advance(l, ev, prev, now).0.segments, ev.at)
  {
    InOrderShape(l.segments);
    var end := AdvanceSegments(l, ev, prev, now);
    var after := Advance(l, ev, prev, now).0.segments;
    EndLastOrdered(l.segments, end, ev.at);
    if i: SessionId :| after == EndLast(l.segments, end) + [Segment(i, ev.at, None)] {
      AppendOrdered(EndLast(l.segments, end), Segment(i, ev.at, None), ev.at);
    }
  }

  // ----- Every run, whatever the clocks do -----

  /** The device's rows after a journal whose last event was observed at a given instant. */
  ghost predicate Sound(h: History, device: DeviceId) {
    && Coherent(h.db)
    && (h.journal == [] ==> NoWorkYet(h.db, device))
    && (h.journal != [] ==>
          && Ordered(Solo(h.db.ledger, device), device, h.journal[|h.journal| - 1].at)
          && LatestIs(h.db.receipts, device, h.journal[|h.journal| - 1].at))
  }

  /** The device was enrolled, and nothing of it was recorded. */
  ghost predicate NoWorkYet(db: Db, device: DeviceId)
    requires ReferencesResolve(db.ledger)
  {
    && (forall i :: 0 <= i < |db.ledger.sessions| ==> db.ledger.sessions[i].device != device)
    && (forall k :: k in db.receipts ==> k.0 != device)
  }

  /** The device's latest receipts all carry a given instant. */
  ghost predicate LatestIs(receipts: Receipts, device: DeviceId, at: int) {
    && (exists id: EventId :: (device, id) in receipts && receipts[(device, id)].observed == at)
    && (forall k :: k in receipts && k.0 == device ==> receipts[k].observed <= at)
  }

  lemma NoWorkIsOrdered(db: Db, device: DeviceId, at: int)
    requires Coherent(db) && NoWorkYet(db, device)
    ensures Solo(db.ledger, device).segments == []
    ensures Ordered(Solo(db.ledger, device), device, at)
  {
    NothingOwn(db.ledger.sessions, db.ledger.segments, device);
    SoloIsConsistent(db.ledger, device);
    SoloResolves(db.ledger, device);
  }

  lemma SoundIsOrdered(h: History, device: DeviceId, at: int)
    requires Sound(h, device) && (h.journal != [] ==> at == h.journal[|h.journal| - 1].at)
    ensures Ordered(Solo(h.db.ledger, device), device, at)
  {
    if h.journal == [] {
      NoWorkIsOrdered(h.db, device, at);
    }
  }

  lemma SoloOwnersAgree(l: Ledger, ev: Event)
    requires ReferencesResolve(l) && OwnersAgree(l, ev)
    ensures OwnersAgree(Solo(l, ev.device), ev)
  {}

  lemma RememberLatest(receipts: Receipts, ev: Event, now: int, session: Option<SessionId>)
    requires ev.id.Some?
    requires forall k :: k in receipts && k.0 == ev.device ==> receipts[k].observed <= ev.at
    ensures LatestIs(Remember(receipts, ev, now, session), ev.device, ev.at)
  {
    assert (ev.device, ev.id.value) in Remember(receipts, ev, now, session);
  }

  /** What an applied event does to the device's rows. */
  lemma TakenAdvances(h: History, c: Call)
    requires Coherent(h.db) && c.req.device in h.db.dir.devices && c.req.id.Some? && Takes(h.db, c)
    ensures Coherent(Extend(h, c).db)
    ensures OwnersAgree(h.db.ledger, Effective(h.db, c))
    ensures OwnersAgree(Solo(h.db.ledger, c.req.device), Effective(h.db, c))
    ensures Solo(Extend(h, c).db.ledger, c.req.device)
         == Advance(Solo(h.db.ledger, c.req.device), Effective(h.db, c), c.prev, c.now).0
    ensures exists session: Option<SessionId> ::
      Extend(h, c).db.receipts == Remember(h.db.receipts, Effective(h.db, c), c.now, session)
  {
    SyncKeepsInv(h.db, c.req, c.now, c.prev);
    var ev := Effective(h.db, c);
    SoloOwnersAgree(h.db.ledger, ev);
    DisplaceKeeps(h.db.ledger, ev);
    SoloDisplace(h.db.ledger, ev);
    SoloAdvance(Displace(h.db.ledger, ev).value, ev, c.prev, c.now);
    var session := Replay(h.db.ledger, ev, c.prev, c.now).value.1;
    assert Extend(h, c).db.receipts
        == Remember(h.db.receipts, ev, c.now, if ev.status == Stopped then None else session);
  }

  lemma ExtendSound(h: History, c: Call, device: DeviceId)
    requires Sound(h, device) && FromDevice(h.db, c, device)
    ensures Sound(Extend(h, c), device)
    ensures !Takes(h.db, c) ==> Extend(h, c) == h
  {
    if Takes(h.db, c) {
      var ev := Effective(h.db, c);
      TakenAdvances(h, c);
      ExtendOrdered(h, c, device);
      ExtendLatest(h, c, device);
      assert Extend(h, c).journal == h.journal + [ev];
    }
  }

  lemma ExtendLatest(h: History, c: Call, device: DeviceId)
    requires Sound(h, device) && FromDevice(h.db, c, device) && Takes(h.db, c)
    ensures LatestIs(Extend(h, c).db.receipts, device, Effective(h.db, c).at)
  {
    var ev := Effective(h.db, c);
    TakenAdvances(h, c);
    var session :| Extend(h, c).db.receipts == Remember(h.db.receipts, ev, c.now, session);
    RememberLatest(h.db.receipts, ev, c.now, session);
  }

  lemma ExtendOrdered(h: History, c: Call, device: DeviceId)
    requires Sound(h, device) && FromDevice(h.db, c, device) && Takes(h.db, c)
    ensures Coherent(Extend(h, c).db)
    ensures Ordered(Solo(Extend(h, c).db.ledger, device), device, Effective(h.db, c).at)
  {
    var ev := Effective(h.db, c);
    var at := if h.journal == [] then ev.at else h.journal[|h.journal| - 1].at;
    TakenAdvances(h, c);
    SoundIsOrdered(h, device, at);
    AdvanceOrdered(Solo(h.db.ledger, device), ev, c.prev, c.now, at);
  }

  /** What others may do between two calls of the device: anything that spares its rows, and purges. */
  ghost predicate Spared(db: Db, c: Command, device: DeviceId)
    requires Coherent(db)
  {
    Allowed(db, c) && (c.Heartbeat? ==> c.req.device != device) && Spares(db, c, device)
  }

  /** The device keeps its latest receipts and gets none. */
  ghost predicate ReceiptsStay(before: Receipts, after: Receipts, device: DeviceId) {
    && (forall k :: k in after && k.0 == device ==> k in before && after[k] == before[k])
    && (forall k :: k in before && k.0 == device && k !in after ==> Outdated(before, k))
  }

  lemma SparedReceiptsStay(db: Db, c: Command, device: DeviceId)
    requires Coherent(db) && Spared(db, c, device)
    ensures ReceiptsStay(db.receipts, Execute(db, c).receipts, device)
    ensures Execute(db, c).dir.devices.Keys == db.dir.devices.Keys
  {
    if !c.PurgeReceipts? {
      ExecuteLeavesReceipts(db, c, device);
    }
  }

  lemma LatestStays(before: Receipts, after: Receipts, device: DeviceId, at: int)
    requires LatestIs(before, device, at) && ReceiptsStay(before, after, device)
    ensures LatestIs(after, device, at)
  {
    var id: EventId :| (device, id) in before && before[(device, id)].observed == at;
    assert !Outdated(before, (device, id));
  }

  lemma OwnRowsStayOrdered(l: Ledger, l': Ledger, device: DeviceId, at: int)
    requires Consistent(l) && Consistent(l') && OwnRowsStay(l, l', device) && Ordered(Solo(l, device), device, at)
    ensures Ordered(Solo(l', device), device, at)
  {
    SoloResolves(l', device);
    SoloIsConsistent(l', device);
  }

  lemma SparedSound(h: History, c: Command, device: DeviceId)
    requires Sound(h, device) && Spared(h.db, c, device)
    ensures Sound(h.(db := Execute(h.db, c)), device)
  {
    ExecuteKeeps(h.db, c);
    SparedReceiptsStay(h.db, c, device);
    if h.journal != [] {
      var at := h.journal[|h.journal| - 1].at;
      LatestStays(h.db.receipts, Execute(h.db, c).receipts, device, at);
      OwnRowsStayOrdered(h.db.ledger, Execute(h.db, c).ledger, device, at);
    }
  }

  /** A run from the device's point of view: its own calls, and what others do. */
  datatype Turn = Mine(call: Call) | Theirs(command: Command)

  ghost predicate MayFollow(h: History, turn: Turn, device: DeviceId)
    requires Sound(h, device)
  {
    match turn
    case Mine(call) => FromDevice(h.db, call, device)
    case Theirs(command) => Spared(h.db, command, device)
  }

  ghost function TakeTurn(h: History, turn: Turn, device: DeviceId): History
    requires Sound(h, device) && MayFollow(h, turn, device)
  {
    match turn
    case Mine(call) => Extend(h, call)
    case Theirs(command) => h.(db := Execute(h.db, command))
  }

  lemma TurnKeepsSound(h: History, turn: Turn, device: DeviceId)
    requires Sound(h, device) && MayFollow(h, turn, device)
    ensures Sound(TakeTurn(h, turn, device), device)
  {
    match turn
    case Mine(call) => ExtendSound(h, call, device);
    case Theirs(command) => SparedSound(h, command, device);
  }

  ghost predicate DeviceRun(h: History, turns: seq<Turn>, device: DeviceId)
    requires Sound(h, device)
    decreases |turns|
  {
    |turns| > 0 ==>
      && MayFollow(h, turns[0], device)
      && (TurnKeepsSound(h, turns[0], device); DeviceRun(TakeTurn(h, turns[0], device), turns[1..], device))
  }

  ghost function RunAll(h: History, turns: seq<Turn>, device: DeviceId): History
    requires Sound(h, device) && DeviceRun(h, turns, device)
    decreases |turns|
  {
    if |turns| == 0 then h
    else TurnKeepsSound(h, turns[0], device); RunAll(TakeTurn(h, turns[0], device), turns[1..], device)
  }

  /** However its clock jumps, whichever of its tied receipts the server picks and whatever others do, the segments
      of a device that only sends journalled events are well formed, pairwise disjoint and in order. */
  lemma {:induction false} SegmentsStayDisjoint(h: History, turns: seq<Turn>, device: DeviceId)
    requires Sound(h, device) && DeviceRun(h, turns, device)
    ensures Coherent(RunAll(h, turns, device).db)
    ensures var l := Solo(RunAll(h, turns, device).db.ledger, device); InOrder(l.segments) && WellFormed(l)
    decreases |turns|
  {
    if |turns| > 0 {
      TurnKeepsSound(h, turns[0], device);
      SegmentsStayDisjoint(TakeTurn(h, turns[0], device), turns[1..], device);
    } else {
      SoundIsOrdered(h, device, if h.journal == [] then 0 else h.journal[|h.journal| - 1].at);
    }
  }

  // ----- The capture lookup -----

  predicate CoversInstant(g: Segment, at: int) {
    g.start <= at && (g.Open() || g.end.value >= at)
  }

  /** `get_work_session_for_capture`: among the segments that cover an instant, one with the greatest start. */
  ghost predicate IsCaptureSegment(segments: seq<Segment>, at: int, k: int) {
    && 0 <= k < |segments| && CoversInstant(segments[k], at)
    && forall j :: 0 <= j < |segments| && CoversInstant(segments[j], at) ==> segments[j].start <= segments[k].start
  }

  /** The latest segment that starts at or before an instant. */
  ghost predicate IsLatestStart(segments: seq<Segment>, at: int, k: int) {
    && 0 <= k < |segments| && segments[k].start <= at
    && forall j :: k < j < |segments| ==> segments[j].start > at
  }

  /** With segments in order the lookup finds something exactly when the latest segment that starts at or
      before the instant covers it, and then it finds that segment or one that starts at the same instant. */
  lemma CaptureFindsTheLatestSegment(l: Ledger, at: int, latest: int)
    requires WellFormed(l) && InOrder(l.segments) && IsLatestStart(l.segments, at, latest)
    ensures (exists k :: IsCaptureSegment(l.segments, at, k))
      <==> l.segments[latest].end.None? || at <= l.segments[latest].end.value
    ensures forall k :: IsCaptureSegment(l.segments, at, k) ==> l.segments[k].start == l.segments[latest].start
  {
    forall j | 0 <= j < |l.segments| && CoversInstant(l.segments[j], at)
      ensures CoversInstant(l.segments[latest], at) && l.segments[j].start <= l.segments[latest].start
    {
      if j < latest {
        assert l.segments[j].end.value <= l.segments[latest].start;
      }
    }
    if CoversInstant(l.segments[latest], at) {
      assert IsCaptureSegment(l.segments, at, latest);
    }
  }

  /** The answer to a lookup in the whole table: a session of the device,
      if one of its segments starts by the instant and
      is still open or ends at it or later; and of those segments one that starts last. */
  ghost predicate Answers(l: Ledger, device: DeviceId, at: int, found: Option<SessionId>)
    requires ReferencesResolve(l)
  {
    match found
    case None =>
      forall g :: g in l.segments && l.sessions[g.session].device == device && g.start <= at ==>
        g.end.Some? && g.end.value < at
    case Some(i) =>
      exists g :: g in l.segments && g.session == i && l.sessions[i].device == device
        && g.start <= at && (g.end.None? || at <= g.end.value) && NoneStartsLater(l, device, at, g)
  }

  ghost predicate NoneStartsLater(l: Ledger, device: DeviceId, at: int, g: Segment)
    requires ReferencesResolve(l)
  {
    forall h :: h in l.segments && l.sessions[h.session].device == device && h.start > g.start && h.start <= at ==>
      h.end.Some? && h.end.value < at
  }

  // ----- The tracked total -----

  /** Total length of the segments, an open one measured up to a given instant. */
  function Tracked(segments: seq<Segment>, asOf: int): int {
    if |segments| == 0 then 0
    else
      var g := segments[|segments| - 1];
      Tracked(segments[..|segments| - 1], asOf) + (if g.Open() then asOf else g.end.value) - g.start
  }

  predicate SameWork(a: Event, b: Event) {
    a.task == b.task && a.project == b.project
  }

  /** The gap between two successive events of the journal was spent with the tracker running: it is at most a minute
      and a half, or at most two heartbeats of the earlier event or of the later one. */
  predicate WithinLease(a: Event, b: Event) {
    || b.at - a.at <= 90 * SECOND
    || b.at - a.at <= 2 * a.interval * SECOND
    || b.at - a.at <= 2 * b.interval * SECOND
  }

  /** When the uninterrupted stretch of active events on the same work that ends with event i began. */
  function StretchStart(journal: seq<Event>, i: nat): int
    requires i < |journal|
  {
    if i > 0 && journal[i - 1].status == Active && journal[i].status == Active
      && SameWork(journal[i - 1], journal[i]) && WithinLease(journal[i - 1], journal[i])
    then StretchStart(journal, i - 1)
    else journal[i].at
  }

  /** What event i adds to the total: after an active event, the gap since it; or only that event's heartbeat
      interval, if the gap exceeds the lease; less the reported idle time, as far as the stretch goes back, if
      it is a pause of the same work. */
  function Gain(journal: seq<Event>, i: nat): int
    requires 0 < i < |journal|
  {
    var a, b := journal[i - 1], journal[i];
    if a.status != Active then 0
    else if !WithinLease(a, b) then a.interval * SECOND
    else if b.status == Paused && SameWork(a, b) then
      b.at - a.at - Min(b.idle * SECOND, b.at - StretchStart(journal, i - 1))
    else b.at - a.at
  }

  /** The time that a journal has earned: a function of its events alone. */
  function Earned(journal: seq<Event>): int {
    if |journal| <= 1 then 0 else Earned(journal[..|journal| - 1]) + Gain(journal, |journal| - 1)
  }

  lemma {:induction false} StretchOfPrefix(journal: seq<Event>, ev: Event, i: nat)
    requires i < |journal|
    ensures StretchStart(journal + [ev], i) == StretchStart(journal, i)
  {
    if i > 0 {
      StretchOfPrefix(journal, ev, i - 1);
    }
  }

  lemma EarnedStep(journal: seq<Event>, ev: Event)
    requires journal != []
    ensures Earned(journal + [ev]) == Earned(journal) + Gain(journal + [ev], |journal|)
  {
    assert (journal + [ev])[..|journal|] == journal;
  }

  lemma TrackedAppend(segments: seq<Segment>, g: Segment, asOf: int)
    ensures Tracked(segments + [g], asOf)
      == Tracked(segments, asOf) + (if g.Open() then asOf else g.end.value) - g.start
  {
    assert (segments + [g])[..|segments|] == segments;
  }

  lemma {:induction false} TrackedClosed(segments: seq<Segment>, a: int, b: int)
    requires forall k :: 0 <= k < |segments| ==> !segments[k].Open()
    ensures Tracked(segments, a) == Tracked(segments, b)
  {
    if |segments| > 0 {
      TrackedClosed(segments[..|segments| - 1], a, b);
    }
  }

  /** Measuring an open last segment at another instant, or ending it, changes the total by that much. */
  lemma TrackedEndLast(segments: seq<Segment>, end: int, a: int, b: int)
    requires OnlyLastMayBeOpen(segments) && |segments| > 0 && segments[|segments| - 1].Open()
    ensures Tracked(EndLast(segments, end), b) == Tracked(segments, a) + Max(segments[|segments| - 1].start, end) - a
    ensures Tracked(segments, b) == Tracked(segments, a) + b - a
  {
    var n := |segments| - 1;
    assert EndLast(segments, end)[..n] == segments[..n];
    TrackedClosed(segments[..n], a, b);
  }

  /** The state a non-empty journal with strictly increasing times leaves. */
  ghost predicate Accounts(h: History, device: DeviceId) {
    && Sound(h, device)
    && (forall j :: 0 <= j < |h.journal| ==> h.journal[j].device == device)
    && (h.journal != [] ==>
          var last, l := h.journal[|h.journal| - 1], Solo(h.db.ledger, device);
          && IsCurrent(l, last, if last.status == Stopped then None else OpenOn(l, device))
          && LatestLooksLike(h.db.receipts, last)
          && Tracked(l.segments, last.at) == Earned(h.journal)
          && (last.status == Active ==> OpenSince(l.segments, StretchStart(h.journal, |h.journal| - 1))))
  }

  ghost predicate OpenSince(segments: seq<Segment>, start: int) {
    |segments| > 0 && segments[|segments| - 1].Open() && segments[|segments| - 1].start == start
  }

  ghost predicate LatestLooksLike(receipts: Receipts, last: Event) {
    forall k :: k in receipts && k.0 == last.device && receipts[k].observed == last.at ==>
      receipts[k].status == last.status && receipts[k].interval == last.interval
  }

  /** Beginning a new session with the event adds nothing to the total yet. */
  lemma FreshAccounts(l: Ledger, ev: Event, now: int)
    requires forall k :: 0 <= k < |l.segments| ==> !l.segments[k].Open()
    ensures var l' := Record(l, None, ev, now).0;
      && Tracked(l'.segments, ev.at) == Tracked(l.segments, ev.at)
      && (ev.status == Active ==> OpenSince(l'.segments, ev.at))
  {
    if ev.status == Active {
      TrackedAppend(l.segments, Segment(|l.sessions|, ev.at, None), ev.at);
    }
  }

  ghost predicate Follows(l: Ledger, journal: seq<Event>, ev: Event, prev: Option<Receipt>) {
    && journal != []
    && var last := journal[|journal| - 1];
      && last.device == ev.device && last.at < ev.at && ev.id.Some?
      && Ordered(l, ev.device, last.at)
      && IsCurrent(l, last, if last.status == Stopped then None else OpenOn(l, ev.device))
      && Tracked(l.segments, last.at) == Earned(journal)
      && (last.status == Active ==> OpenSince(l.segments, StretchStart(journal, |journal| - 1)))
      && prev.Some? && prev.value.observed == last.at && prev.value.status == last.status
      && prev.value.interval == last.interval
  }

  ghost predicate AccountsAfter(l': Ledger, journal: seq<Event>, ev: Event) {
    && Tracked(l'.segments, ev.at) == Earned(journal + [ev])
    && (ev.status == Active ==> OpenSince(l'.segments, StretchStart(journal + [ev], |journal|)))
  }

  lemma AfterInactive(l: Ledger, journal: seq<Event>, ev: Event, prev: Option<Receipt>, now: int)
    requires Follows(l, journal, ev, prev) && journal[|journal| - 1].status != Active
    ensures AccountsAfter(Advance(l, ev, prev, now).0, journal, ev)
  {
    var last := journal[|journal| - 1];
    var own := OpenOn(l, ev.device);
    EarnedStep(journal, ev);
    NoOpenSegment(l, ev.device);
    TrackedClosed(l.segments, last.at, ev.at);
    if own.None? {
      FreshAccounts(l, ev, now);
    } else {
      InOrderShape(l.segments);
      var retired := RetireAt(l.sessions[own.value], ev, prev);
      if retired.Some? {
        CloseIsEndLast(l, ev.device, own.value, retired.value);
        FreshAccounts(StopSession(l, own.value, retired.value), ev, now);
      } else if ev.status == Active {
        TrackedAppend(l.segments, Segment(own.value, ev.at, None), ev.at);
      } else {
        CloseIsEndLast(l, ev.device, own.value, ev.at);
      }
    }
  }

  lemma AfterActiveRetired(l: Ledger, journal: seq<Event>, ev: Event, prev: Option<Receipt>, now: int)
    requires Follows(l, journal, ev, prev) && journal[|journal| - 1].status == Active
    requires !WithinLease(journal[|journal| - 1], ev) || !SameWork(journal[|journal| - 1], ev)
    ensures AccountsAfter(Advance(l, ev, prev, now).0, journal, ev)
  {
    var last := journal[|journal| - 1];
    var own := OpenOn(l, ev.device).value;
    EarnedStep(journal, ev);
    InOrderShape(l.segments);
    var end := RetireAt(l.sessions[own], ev, prev).value;
    CloseIsEndLast(l, ev.device, own, end);
    TrackedEndLast(l.segments, end, last.at, ev.at);
    var l1 := StopSession(l, own, end);
    FreshAccounts(l1, ev, now);
  }

  /** While the tracker was running, the lease has not run out and the session goes on. */
  lemma LeaseLasts(s: Session, last: Event, ev: Event, prev: Option<Receipt>)
    requires prev.Some? && prev.value.observed == last.at && prev.value.status == last.status
    requires prev.value.interval == last.interval && last.status == Active && ev.id.Some?
    ensures LeaseExpired(ev, prev) <==> !WithinLease(last, ev)
    ensures s.task == last.task && s.project == last.project ==>
      (RetireAt(s, ev, prev).None? <==> WithinLease(last, ev) && SameWork(last, ev))
  {}

  lemma AfterActiveKept(l: Ledger, journal: seq<Event>, ev: Event, prev: Option<Receipt>, now: int)
    requires Follows(l, journal, ev, prev) && journal[|journal| - 1].status == Active
    requires WithinLease(journal[|journal| - 1], ev) && SameWork(journal[|journal| - 1], ev)
    ensures AccountsAfter(Advance(l, ev, prev, now).0, journal, ev)
  {
    var last := journal[|journal| - 1];
    var own := OpenOn(l, ev.device).value;
    LeaseLasts(l.sessions[own], last, ev, prev);
    EarnedStep(journal, ev);
    StretchOfPrefix(journal, ev, |journal| - 1);
    InOrderShape(l.segments);
    var end := if ev.status == Paused then ev.at - ev.idle * SECOND else ev.at;
    CloseIsEndLast(l, ev.device, own, end);
    TrackedEndLast(l.segments, end, last.at, ev.at);
    if ev.status == Active {
      assert Advance(l, ev, prev, now).0.segments == l.segments;
    } else {
      assert Advance(l, ev, prev, now).0.segments == EndLast(l.segments, end);
    }
  }

  lemma AdvanceAccounts(l: Ledger, journal: seq<Event>, ev: Event, prev: Option<Receipt>, now: int)
    requires Follows(l, journal, ev, prev)
    ensures AccountsAfter(Advance(l, ev, prev, now).0, journal, ev)
  {
    var last := journal[|journal| - 1];
    if last.status != Active {
      AfterInactive(l, journal, ev, prev, now);
    } else if WithinLease(last, ev) && SameWork(last, ev) {
      AfterActiveKept(l, journal, ev, prev, now);
    } else {
      AfterActiveRetired(l, journal, ev, prev, now);
    }
  }

  /** A call whose event, if it is a new one, is later than everything before it. */
  ghost predicate Later(h: History, c: Call)
    requires ReferencesResolve(h.db.ledger) && c.req.device in h.db.dir.devices
  {
    h.journal != [] && Takes(h.db, c) ==> h.journal[|h.journal| - 1].at < c.req.at
  }

  /** The predecessor that the server picks is the receipt of the last event of the journal. */
  lemma PicksLastEvent(h: History, c: Call, device: DeviceId)
    requires Accounts(h, device) && FromDevice(h.db, c, device) && Later(h, c) && Takes(h.db, c) && h.journal != []
    ensures Effective(h.db, c).at == c.req.at
    ensures Follows(Solo(h.db.ledger, device), h.journal, Effective(h.db, c), c.prev)
  {
    var last := h.journal[|h.journal| - 1];
    var id: EventId :| (device, id) in h.db.receipts && h.db.receipts[(device, id)].observed == last.at;
    assert c.prev.Some?;
    var picked: EventId :| (device, picked) in h.db.receipts && h.db.receipts[(device, picked)] == c.prev.value;
    assert c.prev.value.observed == last.at;
  }

  lemma RememberLooksLike(receipts: Receipts, ev: Event, now: int, session: Option<SessionId>)
    requires ev.id.Some?
    requires forall k :: k in receipts && k.0 == ev.device ==> receipts[k].observed < ev.at
    ensures LatestLooksLike(Remember(receipts, ev, now, session), ev)
  {}

  lemma TakenAccounts(h: History, c: Call, device: DeviceId)
    requires Accounts(h, device) && FromDevice(h.db, c, device) && Later(h, c) && Takes(h.db, c)
    ensures AccountsAfter(Advance(Solo(h.db.ledger, device), Effective(h.db, c), c.prev, c.now).0, h.journal,
      Effective(h.db, c))
  {
    var ev := Effective(h.db, c);
    if h.journal == [] {
      NoWorkIsOrdered(h.db, device, ev.at);
      FirstAccounts(Solo(h.db.ledger, device), ev, c.prev, c.now);
    } else {
      PicksLastEvent(h, c, device);
      AdvanceAccounts(Solo(h.db.ledger, device), h.journal, ev, c.prev, c.now);
    }
  }

  lemma FirstAccounts(l: Ledger, ev: Event, prev: Option<Receipt>, now: int)
    requires l.segments == [] && OpenOn(l, ev.device).None?
    ensures AccountsAfter(Advance(l, ev, prev, now).0, [], ev)
  {
    FreshAccounts(l, ev, now);
    assert [] + [ev] == [ev];
  }

  lemma TakenReceipts(h: History, c: Call, device: DeviceId)
    requires Accounts(h, device) && FromDevice(h.db, c, device) && Later(h, c) && Takes(h.db, c)
    ensures LatestLooksLike(Extend(h, c).db.receipts, Effective(h.db, c))
  {
    var ev := Effective(h.db, c);
    TakenAdvances(h, c);
    if h.journal != [] {
      PicksLastEvent(h, c, device);
    }
    var session :| Extend(h, c).db.receipts == Remember(h.db.receipts, ev, c.now, session);
    RememberLooksLike(h.db.receipts, ev, c.now, session);
  }

  lemma ExtendAccounts(h: History, c: Call, device: DeviceId)
    requires Accounts(h, device) && FromDevice(h.db, c, device) && Later(h, c)
    ensures Accounts(Extend(h, c), device)
  {
    ExtendSound(h, c, device);
    if Takes(h.db, c) {
      TakenAccounts(h, c, device);
      TakenReceipts(h, c, device);
      TakenCurrent(h, c, device);
      TakenAdvances(h, c);
      var ev := Effective(h.db, c);
      assert Extend(h, c).journal == h.journal + [ev];
      AccountsWith(Extend(h, c), h.journal, ev, device);
    }
  }

  lemma TakenCurrent(h: History, c: Call, device: DeviceId)
    requires Sound(h, device) && FromDevice(h.db, c, device) && Takes(h.db, c)
    ensures Coherent(Extend(h, c).db)
    ensures var ev, l' := Effective(h.db, c), Solo(Extend(h, c).db.ledger, device);
      IsCurrent(l', ev, if ev.status == Stopped then None else OpenOn(l', ev.device))
  {
    TakenAdvances(h, c);
    SoloIsConsistent(h.db.ledger, device);
    SoloIsConsistent(Extend(h, c).db.ledger, device);
    AdvanceCurrent(Solo(h.db.ledger, device), Effective(h.db, c), c.prev, c.now);
  }

  lemma AccountsWith(h: History, journal: seq<Event>, ev: Event, device: DeviceId)
    requires Sound(h, device) && h.journal == journal + [ev] && ev.device == device
    requires forall j :: 0 <= j < |journal| ==> journal[j].device == device
    requires var l := Solo(h.db.ledger, device);
      IsCurrent(l, ev, if ev.status == Stopped then None else OpenOn(l, device))
    requires LatestLooksLike(h.db.receipts, ev) && AccountsAfter(Solo(h.db.ledger, device), journal, ev)
    ensures Accounts(h, device)
  {}

  lemma AdvanceCurrent(l: Ledger, ev: Event, prev: Option<Receipt>, now: int)
    requires Consistent(l) && OwnersAgree(l, ev)
    requires Consistent(Advance(l, ev, prev, now).0)
    ensures var l' := Advance(l, ev, prev, now).0;
      IsCurrent(l', ev, if ev.status == Stopped then None else OpenOn(l', ev.device))
  {
    AdvanceIsCurrent(l, ev, prev, now);
  }

  lemma OwnRowsStayCurrent(l: Ledger, l': Ledger, last: Event)
    requires Consistent(l) && Consistent(l') && OwnRowsStay(l, l', last.device)
    requires var s := Solo(l, last.device);
      IsCurrent(s, last, if last.status == Stopped then None else OpenOn(s, last.device))
    ensures var s' := Solo(l', last.device);
      IsCurrent(s', last, if last.status == Stopped then None else OpenOn(s', last.device))
  {
    SoloOpenOn(l, last.device);
    SoloOpenOn(l', last.device);
    var s, s' := Solo(l, last.device), Solo(l', last.device);
    forall i | 0 <= i < |s'.sessions| && s'.sessions[i].Open()
      ensures i < |s.sessions| && s'.sessions[i] == s.sessions[i]
    {}
  }

  lemma SparedAccounts(h: History, c: Command, device: DeviceId)
    requires Accounts(h, device) && Spared(h.db, c, device)
    ensures Accounts(h.(db := Execute(h.db, c)), device)
  {
    ExecuteKeeps(h.db, c);
    SparedSound(h, c, device);
    SparedReceiptsStay(h.db, c, device);
    if h.journal != [] {
      OwnRowsStayCurrent(h.db.ledger, Execute(h.db, c).ledger, h.journal[|h.journal| - 1]);
    }
  }

  ghost predicate TimelyRun(h: History, turns: seq<Turn>, device: DeviceId)
    requires Sound(h, device)
    decreases |turns|
  {
    |turns| > 0 ==>
      && MayFollow(h, turns[0], device) && (turns[0].Mine? ==> Later(h, turns[0].call))
      && (TurnKeepsSound(h, turns[0], device); TimelyRun(TakeTurn(h, turns[0], device), turns[1..], device))
  }

  lemma {:induction false} TimelyIsDeviceRun(h: History, turns: seq<Turn>, device: DeviceId)
    requires Sound(h, device) && TimelyRun(h, turns, device)
    ensures DeviceRun(h, turns, device)
    decreases |turns|
  {
    if |turns| > 0 {
      TurnKeepsSound(h, turns[0], device);
      TimelyIsDeviceRun(TakeTurn(h, turns[0], device), turns[1..], device);
    }
  }

  lemma TurnAccounts(h: History, turn: Turn, device: DeviceId)
    requires Accounts(h, device) && MayFollow(h, turn, device) && (turn.Mine? ==> Later(h, turn.call))
    ensures Accounts(TakeTurn(h, turn, device), device)
  {
    match turn
    case Mine(call) => ExtendAccounts(h, call, device);
    case Theirs(command) => SparedAccounts(h, command, device);
  }

  lemma {:induction false} TimelyRunAccounts(h: History, turns: seq<Turn>, device: DeviceId)
    requires Accounts(h, device) && TimelyRun(h, turns, device)
    ensures DeviceRun(h, turns, device)
    ensures Accounts(RunAll(h, turns, device), device)
    decreases |turns|
  {
    TimelyIsDeviceRun(h, turns, device);
    if |turns| > 0 {
      TurnKeepsSound(h, turns[0], device);
      TurnAccounts(h, turns[0], device);
      TimelyRunAccounts(TakeTurn(h, turns[0], device), turns[1..], device);
    }
  }

  /** What the server has recorded for the device up to its last event is what its journal has earned. */
  ghost predicate TrackedIsEarned(h: History, device: DeviceId)
  {
    && Coherent(h.db)
    && (h.journal != [] ==>
      Tracked(Solo(h.db.ledger, device).segments, h.journal[|h.journal| - 1].at) == Earned(h.journal))
  }

  lemma AccountsIsEarned(h: History, device: DeviceId)
    requires Accounts(h, device)
    ensures TrackedIsEarned(h, device)
  {}

  /** For every run with strictly increasing times of the device's events, however often they are retried or turned
      away, and whatever others do that spares its rows, the total the server has recorded for the device is exactly
      what the journal of applied events has earned. */
  lemma TrackedTotalIsEarned(h: History, turns: seq<Turn>, device: DeviceId)
    requires Accounts(h, device) && TimelyRun(h, turns, device)
    ensures DeviceRun(h, turns, device)
    ensures TrackedIsEarned(RunAll(h, turns, device), device)
  {
    TimelyRunAccounts(h, turns, device);
    AccountsIsEarned(RunAll(h, turns, device), device);
  }

  lemma NewDeviceAccounts(db: Db, device: DeviceId)
    requires Coherent(db) && NoWorkYet(db, device)
    ensures Accounts(History(db, []), device)
  {}

  /** A journal with increasing times never earns more than the time it spans, nor less than nothing; while it
      is active it has earned at least its current stretch. */
  lemma {:induction false} EarnedIsBounded(journal: seq<Event>)
    requires journal != []
    requires forall i :: 0 < i < |journal| ==> journal[i - 1].at < journal[i].at
    ensures var last := |journal| - 1;
      && Earned(journal) <= journal[last].at - journal[0].at
      && var stretch := if journal[last].status == Active then journal[last].at - StretchStart(journal, last) else 0;
         0 <= stretch <= Earned(journal)
  {
    if |journal| > 1 {
      var last := |journal| - 1;
      var shorter := journal[..last];
      EarnedIsBounded(shorter);
      assert shorter + [journal[last]] == journal;
      StretchOfPrefix(shorter, journal[last], last - 1);
    }
  }
}
