/** The agent's durable journal, the network and the server as one state machine: events are journalled before
    they are sent, the head of the journal is retried until it is acknowledged or quarantined, requests and
    responses may be lost, duplicated or late, the agent may restart, its clock may step back, the server may purge
    receipts, and other devices and administrators change the tables in between. */
module JournalProtocol {
  import opened Records
  import opened TimeLedger
  import opened WorkSync
  import opened TrackedTime
  import opened ServerRuns
  import opened Compaction

  /** A row of the local journal: the event and when the row was created. */
  datatype Row = Row(req: Request, created: int)

  /** Requests and replies name the event they are about by its position among all events ever journalled. */
  datatype Reply = Reply(event: nat, accepted: bool)

  /** `journaled` lists every event the agent ever journalled, and `left` those that are no longer in the journal.
      `applied` lists the events the server applied, in order; `server.journal` is what it applied for each. */
  datatype System = System(
    server: History,
    journaled: seq<Row>,
    left: set<nat>,
    requests: set<nat>,
    replies: set<Reply>,
    quarantined: set<nat>,
    applied: seq<nat>)

  datatype Step =
    | Journal(row: Row)
    | Send(event: nat)
    | Serve(event: nat, now: int, prev: Option<Receipt>)
    | TurnAway(event: nat)
    | Lose(requests: set<nat>, replies: set<Reply>)
    | Restart
    | Acknowledge(event: nat)
    | Quarantine(event: nat)
    | Elsewhere(command: Command)

  // ----- Steps -----

  predicate Queued(s: System, i: nat) {
    i < |s.journaled| && i !in s.left
  }

  predicate Earlier(a: Row, b: Row) {
    a.req.at < b.req.at || (a.req.at == b.req.at && a.created < b.created)
  }

  /** `pending_states(limit=1)`: a row that no other row precedes in the order of observation, then creation. */
  ghost predicate IsHead(s: System, i: nat) {
    Queued(s, i) && forall j: nat :: Queued(s, j) ==> !Earlier(s.journaled[j], s.journaled[i])
  }

  /** Of the rows that are still there, the head is one with the earliest observation,
      and among those of one instant the
      first that was created. */
  lemma TheHeadIsEarliest(s: System, i: nat)
    ensures IsHead(s, i) <==>
      (&& i < |s.journaled| && i !in s.left
       && forall j: nat :: j < |s.journaled| && j !in s.left ==>
            || s.journaled[i].req.at < s.journaled[j].req.at
            || (s.journaled[i].req.at == s.journaled[j].req.at && s.journaled[i].created <= s.journaled[j].created))
  {
    if IsHead(s, i) {
      assert forall j: nat :: j < |s.journaled| && j !in s.left ==> Queued(s, j);
    }
  }

  predicate Sent(s: System, i: nat) {
    i in s.requests && i < |s.journaled| && s.journaled[i].req.id.Some?
  }

  /** What must hold for a step to be taken. Identifiers are never used twice, and other commands do not speak for
      this device; nothing is said about clocks, and a purge may come at any moment. */
  ghost predicate Enabled(s: System, step: Step, device: DeviceId)
    requires Coherent(s.server.db)
  {
    match step
    case Journal(row) =>
      && row.req.device == device && row.req.id.Some?
      && (forall j :: 0 <= j < |s.journaled| ==> s.journaled[j].req.id != row.req.id)
    case Send(i) => IsHead(s, i)
    case Serve(i, now, prev) =>
      Sent(s, i) && s.journaled[i].req.device == device && IsPrevious(s.server.db.receipts, device, prev)
    case TurnAway(i) => Sent(s, i)
    case Lose(requests, replies) => requests <= s.requests && replies <= s.replies
    case Restart => true
    case Acknowledge(i) => Queued(s, i) && Reply(i, true) in s.replies
    case Quarantine(i) => Queued(s, i) && Reply(i, false) in s.replies
    case Elsewhere(command) => Allowed(s.server.db, command) && (command.Heartbeat? ==> command.req.device != device)
  }

  function CallFor(s: System, i: nat, now: int, prev: Option<Receipt>): Call
    requires i < |s.journaled|
  {
    Call(s.journaled[i].req, now, prev)
  }

  ghost function Next(s: System, step: Step, device: DeviceId): System
    requires Coherent(s.server.db) && device in s.server.db.dir.devices
    requires Enabled(s, step, device)
  {
    match step
    case Journal(row) => s.(journaled := s.journaled + [row])
    case Send(i) => s.(requests := s.requests + {i})
    case Serve(i, now, prev) =>
      var c := CallFor(s, i, now, prev);
      Answered(s, i, Extend(s.server, c), Takes(s.server.db, c), Sync(s.server.db, c.req, now, prev).1.Accepted?)
    case TurnAway(i) => s.(replies := s.replies + {Reply(i, false)})
    case Lose(requests, replies) => s.(requests := requests, replies := replies)
    case Restart => s.(replies := {})
    case Acknowledge(i) => s.(left := s.left + {i})
    case Quarantine(i) => s.(left := s.left + {i}, quarantined := s.quarantined + {i})
    case Elsewhere(command) => s.(server := s.server.(db := Execute(s.server.db, command)))
  }

  /** The state after the server answered a request, having applied its event or not. */
  function Answered(s: System, i: nat, server: History, taken: bool, accepted: bool): System {
    s.(server := server,
       applied := if taken then s.applied + [i] else s.applied,
       replies := s.replies + {Reply(i, accepted)})
  }

  // ----- What a step changes, field by field -----

  /** The agent's journal: rows are only added, and leave when they are acknowledged or quarantined. */
  lemma JournalChanges(s: System, step: Step, device: DeviceId)
    requires Coherent(s.server.db) && device in s.server.db.dir.devices && Enabled(s, step, device)
    ensures var t := Next(s, step, device);
      && t.journaled == (if step.Journal? then s.journaled + [step.row] else s.journaled)
      && (forall i :: i in t.left <==> i in s.left || step == Acknowledge(i) || step == Quarantine(i))
      && (forall i :: i in t.quarantined <==> i in s.quarantined || step == Quarantine(i))
  {}

  /** The network: a request is under way from when it is sent until it is lost, a reply from when the server gives it
      until it is lost or the agent restarts. */
  lemma NetworkChanges(s: System, step: Step, device: DeviceId)
    requires Coherent(s.server.db) && device in s.server.db.dir.devices && Enabled(s, step, device)
    ensures var t := Next(s, step, device);
      && (forall i :: i in t.requests <==>
            if step.Lose? then i in step.requests else i in s.requests || step == Send(i))
      && (forall r :: r in t.replies <==>
            if step.Lose? then r in step.replies
            else if step.Restart? then false
            else r in s.replies || Gives(s, step, r))
  {}

  ghost predicate Gives(s: System, step: Step, r: Reply)
    requires Coherent(s.server.db)
  {
    || (step.TurnAway? && r == Reply(step.event, false))
    || (step.Serve? && step.event < |s.journaled| && s.journaled[step.event].req.device in s.server.db.dir.devices
        && r == Reply(step.event, Sync(s.server.db, s.journaled[step.event].req, step.now, step.prev).1.Accepted?))
  }

  /** The server: a call for the event, or another command, has its effect on the tables; an event is listed as applied
      exactly when its call is accepted and its receipt was not there. */
  lemma ServerChanges(s: System, step: Step, device: DeviceId)
    requires Coherent(s.server.db) && device in s.server.db.dir.devices && Enabled(s, step, device)
    ensures var t := Next(s, step, device);
      && (step.Elsewhere? ==> t.server.db == Execute(s.server.db, step.command) && t.applied == s.applied)
      && (!step.Serve? && !step.Elsewhere? ==> t.server == s.server && t.applied == s.applied)
      && (step.Serve? ==>
            var req := s.journaled[step.event].req;
            var (db, outcome) := Sync(s.server.db, req, step.now, step.prev);
            && t.server.db == db
            && t.applied == if outcome.Accepted? && (device, req.id.value) !in s.server.db.receipts
                            then s.applied + [step.event] else s.applied)
  {}

  // ----- What holds whatever the clocks and the purges do -----

  ghost predicate RowsAreNamed(s: System, device: DeviceId) {
    && (forall i :: 0 <= i < |s.journaled| ==> s.journaled[i].req.device == device && s.journaled[i].req.id.Some?)
    && (forall i, j :: 0 <= i < j < |s.journaled| ==> s.journaled[i].req.id != s.journaled[j].req.id)
  }

  /** Only journalled events are sent, answered, applied or removed, and a quarantined event is removed. */
  ghost predicate OnlyJournaled(s: System) {
    && s.quarantined <= s.left
    && (forall i :: i in s.left || i in s.requests ==> i < |s.journaled|)
    && (forall r :: r in s.replies ==> r.event < |s.journaled|)
    && (forall a :: 0 <= a < |s.applied| ==> s.applied[a] < |s.journaled|)
  }

  /** Every event is still queued, or was applied, or was quarantined. */
  ghost predicate NothingIsLost(s: System) {
    && (forall i :: i in s.left ==> i in s.applied || i in s.quarantined)
    && (forall r :: r in s.replies && r.accepted ==> r.event in s.applied)
  }

  ghost predicate JournalMatches(s: System)
    requires OnlyJournaled(s)
  {
    && |s.server.journal| == |s.applied|
    && forall a :: 0 <= a < |s.applied| ==> s.server.journal[a].id == s.journaled[s.applied[a]].req.id
  }

  predicate HasReceipt(s: System, device: DeviceId, i: nat) {
    i < |s.journaled| && s.journaled[i].req.id.Some? && (device, s.journaled[i].req.id.value) in s.server.db.receipts
  }

  ghost predicate IsOfApplied(s: System, id: EventId) {
    exists i: nat :: i < |s.journaled| && i in s.applied && s.journaled[i].req.id == Some(id)
  }

  ghost predicate IsTimeOfApplied(s: System, at: int) {
    exists i: nat :: i < |s.journaled| && i in s.applied && s.journaled[i].req.at == at
  }

  /** A receipt belongs to an applied event and carries the time of one. */
  ghost predicate ReceiptsAreOfApplied(s: System, device: DeviceId) {
    forall id: EventId :: (device, id) in s.server.db.receipts ==>
      IsOfApplied(s, id) && IsTimeOfApplied(s, s.server.db.receipts[(device, id)].observed)
  }

  ghost predicate ReceiptsAreNotEarlier(s: System, device: DeviceId) {
    forall i: nat :: HasReceipt(s, device, i) ==>
      s.journaled[i].req.at <= s.server.db.receipts[(device, s.journaled[i].req.id.value)].observed
  }

  ghost predicate Sane(s: System, device: DeviceId) {
    && Coherent(s.server.db) && device in s.server.db.dir.devices
    && RowsAreNamed(s, device)
    && OnlyJournaled(s)
    && NothingIsLost(s)
    && JournalMatches(s)
    && ReceiptsAreOfApplied(s, device)
    && ReceiptsAreNotEarlier(s, device)
  }

  // ----- Every step keeps it -----

  lemma MoreApplied(s: System, s': System)
    requires |s.journaled| <= |s'.journaled| && s'.journaled[..|s.journaled|] == s.journaled
    requires forall i :: i in s.applied ==> i in s'.applied
    ensures forall id: EventId :: IsOfApplied(s, id) ==> IsOfApplied(s', id)
    ensures forall at: int :: IsTimeOfApplied(s, at) ==> IsTimeOfApplied(s', at)
  {
    forall id: EventId | IsOfApplied(s, id)
      ensures IsOfApplied(s', id)
    {
      var i: nat :| i < |s.journaled| && i in s.applied && s.journaled[i].req.id == Some(id);
      assert s'.journaled[i] == s.journaled[i];
    }
    forall at: int | IsTimeOfApplied(s, at)
      ensures IsTimeOfApplied(s', at)
    {
      var i: nat :| i < |s.journaled| && i in s.applied && s.journaled[i].req.at == at;
      assert s'.journaled[i] == s.journaled[i];
    }
  }

  lemma JournalKeeps(s: System, row: Row, device: DeviceId)
    requires Sane(s, device) && Enabled(s, Journal(row), device)
    ensures Sane(Next(s, Journal(row), device), device)
    ensures !HasReceipt(Next(s, Journal(row), device), device, |s.journaled|)
  {
    var s' := Next(s, Journal(row), device);
    MoreApplied(s, s');
    assert forall i :: 0 <= i < |s.journaled| ==> s'.journaled[i] == s.journaled[i];
    assert !IsOfApplied(s, row.req.id.value);
    forall i: nat | HasReceipt(s', device, i)
      ensures i < |s.journaled| && HasReceipt(s, device, i)
    {}
  }

  /** Messages come and go. */
  lemma MessagesKeep(s: System, requests: set<nat>, replies: set<Reply>, device: DeviceId)
    requires Sane(s, device)
    requires forall i :: i in requests ==> i < |s.journaled|
    requires forall r :: r in replies ==> r.event < |s.journaled| && (r.accepted ==> r.event in s.applied)
    ensures Sane(s.(requests := requests, replies := replies), device)
  {
    MoreApplied(s, s.(requests := requests, replies := replies));
  }

  /** An event leaves the journal, because it was applied or because it is quarantined. */
  lemma LeaveKeeps(s: System, left: set<nat>, quarantined: set<nat>, device: DeviceId)
    requires Sane(s, device) && s.quarantined <= quarantined <= left
    requires forall i :: i in left ==> i < |s.journaled| && (i in s.applied || i in quarantined)
    ensures Sane(s.(left := left, quarantined := quarantined), device)
  {
    MoreApplied(s, s.(left := left, quarantined := quarantined));
  }

  /** A call that applies nothing changes nothing. */
  lemma NotTakenIsNoChange(h: History, c: Call)
    requires Coherent(h.db) && c.req.device in h.db.dir.devices && !Takes(h.db, c)
    ensures Extend(h, c) == h
  {}

  /** An accepted request that applies nothing is a retry of an event applied before. */
  lemma AcceptedIsApplied(s: System, i: nat, c: Call, device: DeviceId)
    requires Sane(s, device) && i < |s.journaled| && c.req == s.journaled[i].req
    requires !Takes(s.server.db, c) && Sync(s.server.db, c.req, c.now, c.prev).1.Accepted?
    ensures i in s.applied && HasReceipt(s, device, i)
  {
    assert HasReceipt(s, device, i);
    assert IsOfApplied(s, s.journaled[i].req.id.value);
    var j: nat :| j < |s.journaled| && j in s.applied && s.journaled[j].req.id == s.journaled[i].req.id;
    assert j == i;
  }

  /** An accepted request whose event has no receipt applies it. */
  lemma UnknownIsTaken(s: System, i: nat, c: Call, device: DeviceId)
    requires Sane(s, device) && i < |s.journaled| && c.req == s.journaled[i].req
    requires Sync(s.server.db, c.req, c.now, c.prev).1.Accepted?
    ensures Takes(s.server.db, c) <==> !HasReceipt(s, device, i)
  {}

  /** A call that applies an event adds its receipt, at the event's own time or, if that is later, at the time of a
      receipt that is there. */
  lemma TakenAddsReceipt(h: History, c: Call)
    requires Coherent(h.db) && c.req.device in h.db.dir.devices && Takes(h.db, c) && c.req.id.Some?
    ensures var h', ev, k := Extend(h, c), Effective(h.db, c), (c.req.device, c.req.id.value);
      && k !in h.db.receipts
      && h'.journal == h.journal + [ev] && ev.id == c.req.id
      && h'.db.dir == h.db.dir
      && h'.db.receipts.Keys == h.db.receipts.Keys + {k}
      && (forall n :: n in h.db.receipts ==> h'.db.receipts[n] == h.db.receipts[n])
      && h'.db.receipts[k].observed == ev.at
      && c.req.at <= ev.at
      && (ev.at == c.req.at || (c.prev.Some? && ev.at == c.prev.value.observed))
  {}

  lemma TakenKeeps(s: System, i: nat, c: Call, accepted: bool, device: DeviceId)
    requires Sane(s, device) && i < |s.journaled| && c.req == s.journaled[i].req
    requires IsPrevious(s.server.db.receipts, device, c.prev) && Takes(s.server.db, c)
    ensures Sane(Answered(s, i, Extend(s.server, c), true, accepted), device)
  {
    var s' := Answered(s, i, Extend(s.server, c), true, accepted);
    SyncKeepsInv(s.server.db, c.req, c.now, c.prev);
    TakenAddsReceipt(s.server, c);
    AppliedGrows(s, s', i);
    TakenKeepsTidy(s, i, c, accepted, device);
    TakenKeepsReceipts(s, i, c, accepted, device);
  }

  lemma AppliedGrows(s: System, s': System, i: nat)
    requires s'.applied == s.applied + [i]
    ensures i in s'.applied && forall j :: j in s.applied ==> j in s'.applied
    ensures forall j :: j in s'.applied ==> j in s.applied || j == i
  {
    assert s'.applied[|s.applied|] == i;
  }

  lemma TakenKeepsTidy(s: System, i: nat, c: Call, accepted: bool, device: DeviceId)
    requires Sane(s, device) && i < |s.journaled| && c.req == s.journaled[i].req && Takes(s.server.db, c)
    ensures var s' := Answered(s, i, Extend(s.server, c), true, accepted);
      RowsAreNamed(s', device) && OnlyJournaled(s') && NothingIsLost(s') && JournalMatches(s')
  {
    TakenAddsReceipt(s.server, c);
    AppliedGrows(s, Answered(s, i, Extend(s.server, c), true, accepted), i);
  }

  lemma TakenKeepsReceipts(s: System, i: nat, c: Call, accepted: bool, device: DeviceId)
    requires Sane(s, device) && i < |s.journaled| && c.req == s.journaled[i].req
    requires IsPrevious(s.server.db.receipts, device, c.prev) && Takes(s.server.db, c)
    ensures var s' := Answered(s, i, Extend(s.server, c), true, accepted);
      ReceiptsAreOfApplied(s', device) && ReceiptsAreNotEarlier(s', device)
  {
    var s' := Answered(s, i, Extend(s.server, c), true, accepted);
    TakenAddsReceipt(s.server, c);
    AppliedGrows(s, s', i);
    MoreApplied(s, s');
    forall id: EventId | (device, id) in s'.server.db.receipts
      ensures IsOfApplied(s', id) && IsTimeOfApplied(s', s'.server.db.receipts[(device, id)].observed)
    {
      if (device, id) !in s.server.db.receipts {
        assert s.journaled[i].req.id == Some(id);
        if Effective(s.server.db, c).at != c.req.at {
          var k: EventId :| (device, k) in s.server.db.receipts && s.server.db.receipts[(device, k)] == c.prev.value;
        }
      }
    }
    forall j: nat | HasReceipt(s', device, j)
      ensures s'.journaled[j].req.at <= s'.server.db.receipts[(device, s'.journaled[j].req.id.value)].observed
    {
      assert j != i ==> HasReceipt(s, device, j);
    }
  }

  lemma ServeKeeps(s: System, i: nat, now: int, prev: Option<Receipt>, device: DeviceId)
    requires Sane(s, device) && Enabled(s, Serve(i, now, prev), device)
    ensures Sane(Next(s, Serve(i, now, prev), device), device)
  {
    var c := CallFor(s, i, now, prev);
    var accepted := Sync(s.server.db, c.req, now, prev).1.Accepted?;
    if Takes(s.server.db, c) {
      TakenKeeps(s, i, c, accepted, device);
    } else {
      NotTakenIsNoChange(s.server, c);
      if accepted {
        AcceptedIsApplied(s, i, c, device);
      }
      MessagesKeep(s, s.requests, s.replies + {Reply(i, accepted)}, device);
    }
  }

  /** Other commands add no receipt of this device; a purge removes some. */
  lemma ElsewhereOnlyForgets(db: Db, command: Command, device: DeviceId)
    requires Coherent(db) && Allowed(db, command) && (command.Heartbeat? ==> command.req.device != device)
    ensures Execute(db, command).dir.devices.Keys == db.dir.devices.Keys
    ensures forall id: EventId :: (device, id) in Execute(db, command).receipts ==>
      (device, id) in db.receipts && Execute(db, command).receipts[(device, id)] == db.receipts[(device, id)]
  {
    if !command.PurgeReceipts? {
      ExecuteLeavesReceipts(db, command, device);
    }
  }

  lemma ElsewhereKeeps(s: System, command: Command, device: DeviceId)
    requires Sane(s, device) && Enabled(s, Elsewhere(command), device)
    ensures Sane(Next(s, Elsewhere(command), device), device)
  {
    var s' := Next(s, Elsewhere(command), device);
    ExecuteKeeps(s.server.db, command);
    ElsewhereOnlyForgets(s.server.db, command, device);
    MoreApplied(s, s');
    forall i: nat | HasReceipt(s', device, i)
      ensures HasReceipt(s, device, i)
    {}
  }

  lemma NextKeepsSane(s: System, step: Step, device: DeviceId)
    requires Sane(s, device) && Enabled(s, step, device)
    ensures Sane(Next(s, step, device), device)
  {
    match step
    case Journal(row) => JournalKeeps(s, row, device);
    case Send(i) => MessagesKeep(s, s.requests + {i}, s.replies, device);
    case Serve(i, now, prev) => ServeKeeps(s, i, now, prev, device);
    case TurnAway(i) => MessagesKeep(s, s.requests, s.replies + {Reply(i, false)}, device);
    case Lose(requests, replies) => MessagesKeep(s, requests, replies, device);
    case Restart => MessagesKeep(s, s.requests, {}, device);
    case Acknowledge(i) => LeaveKeeps(s, s.left + {i}, s.quarantined, device);
    case Quarantine(i) => LeaveKeeps(s, s.left + {i}, s.quarantined + {i}, device);
    case Elsewhere(command) => ElsewhereKeeps(s, command, device);
  }

  // ----- Every run -----

  ghost predicate Run(s: System, steps: seq<Step>, device: DeviceId)
    requires Sane(s, device)
    decreases |steps|
  {
    |steps| > 0 ==>
      && Enabled(s, steps[0], device)
      && (NextKeepsSane(s, steps[0], device); Run(Next(s, steps[0], device), steps[1..], device))
  }

  ghost function AfterRun(s: System, steps: seq<Step>, device: DeviceId): System
    requires Sane(s, device) && Run(s, steps, device)
    decreases |steps|
  {
    if |steps| == 0 then s
    else NextKeepsSane(s, steps[0], device); AfterRun(Next(s, steps[0], device), steps[1..], device)
  }

  function Start(db: Db): System {
    System(History(db, []), [], {}, {}, {}, {}, [])
  }

  lemma StartIsSane(db: Db, device: DeviceId)
    requires Coherent(db) && device in db.dir.devices && NoWorkYet(db, device)
    ensures Sane(Start(db), device)
  {}

  lemma {:induction false} RunIsSane(s: System, steps: seq<Step>, device: DeviceId)
    requires Sane(s, device) && Run(s, steps, device)
    ensures Sane(AfterRun(s, steps, device), device)
    decreases |steps|
  {
    if |steps| > 0 {
      NextKeepsSane(s, steps[0], device);
      RunIsSane(Next(s, steps[0], device), steps[1..], device);
    }
  }

  /** For every interleaving, whatever the clocks, the network, other users and purges do: every event that was ever
      journalled is still queued, or was applied, or was quarantined, and nothing else was applied. */
  lemma EveryEventIsAccountedFor(db: Db, steps: seq<Step>, device: DeviceId)
    requires Coherent(db) && device in db.dir.devices && NoWorkYet(db, device)
    requires (StartIsSane(db, device); Run(Start(db), steps, device))
    ensures (StartIsSane(db, device);
      var s := AfterRun(Start(db), steps, device);
      && (forall i: nat :: i < |s.journaled| ==> Queued(s, i) || i in s.applied || i in s.quarantined)
      && |s.server.journal| == |s.applied|
      && (forall a :: 0 <= a < |s.applied| ==>
            s.applied[a] < |s.journaled| && s.server.journal[a].id == s.journaled[s.applied[a]].req.id))
  {
    StartIsSane(db, device);
    RunIsSane(Start(db), steps, device);
  }

  // ----- An event gets through -----

  /** The head of the queue leaves it applied if it is sent, the server accepts it and the reply comes back. */
  lemma TheHeadGetsThrough(s: System, i: nat, now: int, prev: Option<Receipt>, device: DeviceId)
      returns (steps: seq<Step>)
    requires Sane(s, device) && IsHead(s, i) && IsPrevious(s.server.db.receipts, device, prev)
    requires Sync(s.server.db, s.journaled[i].req, now, prev).1.Accepted?
    ensures steps == [Send(i), Serve(i, now, prev), Acknowledge(i)] && Run(s, steps, device)
    ensures var t := AfterRun(s, steps, device);
      && t.left == s.left + {i} && t.quarantined == s.quarantined && i in t.applied
      && t.server.db == Sync(s.server.db, s.journaled[i].req, now, prev).0
  {
    NextKeepsSane(s, Send(i), device);
    var s1 := Next(s, Send(i), device);
    NextKeepsSane(s1, Serve(i, now, prev), device);
    var s2 := Next(s1, Serve(i, now, prev), device);
    NextKeepsSane(s2, Acknowledge(i), device);
    var s3 := Next(s2, Acknowledge(i), device);
    steps := [Send(i), Serve(i, now, prev), Acknowledge(i)];
    assert Reply(i, true) in s2.replies;
    assert Run(s3, [], device) && AfterRun(s3, [], device) == s3;
    assert Run(s2, [Acknowledge(i)], device) && AfterRun(s2, [Acknowledge(i)], device) == s3;
    assert steps[1..] == [Serve(i, now, prev), Acknowledge(i)] && steps[1..][1..] == [Acknowledge(i)];
  }

  // ----- At most once, and the purges that break it -----

  ghost predicate AppliedOnce(s: System) {
    forall a, b :: 0 <= a < b < |s.applied| ==> s.applied[a] != s.applied[b]
  }

  /** The event was applied, but it may still be sent, or a request for it is still under way. */
  predicate MayComeAgain(s: System, i: nat) {
    i in s.applied && (i in s.requests || Queued(s, i))
  }

  /** The server would recognise every applied event that may come again. */
  ghost predicate Recognised(s: System, device: DeviceId) {
    forall i: nat :: MayComeAgain(s, i) ==> HasReceipt(s, device, i)
  }

  /** A purge takes the receipt of an event that may come again. */
  ghost predicate Careless(s: System, step: Step, device: DeviceId) {
    step.Elsewhere? && step.command.PurgeReceipts?
    && exists i: nat :: MayComeAgain(s, i) && HasReceipt(s, device, i)
         && (device, s.journaled[i].req.id.value) !in Compact(s.server.db.receipts, step.command.cutoff)
  }

  lemma ServeKeepsRecognised(s: System, i: nat, now: int, prev: Option<Receipt>, device: DeviceId)
    requires Sane(s, device) && Enabled(s, Serve(i, now, prev), device)
    requires Recognised(s, device) && AppliedOnce(s)
    ensures Recognised(Next(s, Serve(i, now, prev), device), device)
    ensures AppliedOnce(Next(s, Serve(i, now, prev), device))
  {
    var c := CallFor(s, i, now, prev);
    var s' := Next(s, Serve(i, now, prev), device);
    if Takes(s.server.db, c) {
      TakenAddsReceipt(s.server, c);
      AppliedGrows(s, s', i);
      assert !HasReceipt(s, device, i);
      assert !MayComeAgain(s, i);
      forall j: nat | MayComeAgain(s', j)
        ensures HasReceipt(s', device, j)
      {
        assert j != i ==> MayComeAgain(s, j);
      }
    } else {
      NotTakenIsNoChange(s.server, c);
      forall j: nat | MayComeAgain(s', j)
        ensures HasReceipt(s', device, j)
      {
        assert MayComeAgain(s, j);
      }
    }
  }

  lemma ElsewhereKeepsRecognised(s: System, command: Command, device: DeviceId)
    requires Sane(s, device) && Enabled(s, Elsewhere(command), device) && Recognised(s, device)
    ensures Recognised(Next(s, Elsewhere(command), device), device) <==> !Careless(s, Elsewhere(command), device)
  {
    var s' := Next(s, Elsewhere(command), device);
    if !command.PurgeReceipts? {
      ExecuteLeavesReceipts(s.server.db, command, device);
    }
    forall i: nat
      ensures MayComeAgain(s', i) <==> MayComeAgain(s, i)
    {}
    if Careless(s, Elsewhere(command), device) {
      var i: nat :| MayComeAgain(s, i) && HasReceipt(s, device, i)
        && (device, s.journaled[i].req.id.value) !in Compact(s.server.db.receipts, command.cutoff);
      assert MayComeAgain(s', i) && !HasReceipt(s', device, i);
    } else {
      forall i: nat | MayComeAgain(s', i)
        ensures HasReceipt(s', device, i)
      {
        assert MayComeAgain(s, i) && HasReceipt(s, device, i);
      }
    }
  }

  /** Steps of the agent and the network apply nothing, and send only what is queued. */
  lemma AgentKeepsRecognised(s: System, step: Step, device: DeviceId)
    requires Sane(s, device) && Enabled(s, step, device) && Recognised(s, device)
    requires !step.Serve? && !step.Elsewhere?
    ensures Recognised(Next(s, step, device), device)
  {
    var s' := Next(s, step, device);
    forall i: nat | MayComeAgain(s', i)
      ensures HasReceipt(s', device, i)
    {
      assert MayComeAgain(s, i) && HasReceipt(s, device, i);
      assert s'.journaled[i] == s.journaled[i];
    }
  }

  /** While the server recognises what may come again, a step applies no event a second time; and it goes on to
      recognise it, unless the step is a careless purge. */
  lemma NextKeepsRecognised(s: System, step: Step, device: DeviceId)
    requires Sane(s, device) && Enabled(s, step, device) && Recognised(s, device) && AppliedOnce(s)
    ensures AppliedOnce(Next(s, step, device))
    ensures Recognised(Next(s, step, device), device) <==> !Careless(s, step, device)
  {
    match step
    case Serve(i, now, prev) => ServeKeepsRecognised(s, i, now, prev, device);
    case Elsewhere(command) => ElsewhereKeepsRecognised(s, command, device);
    case _ => AgentKeepsRecognised(s, step, device);
  }

  ghost predicate CarefulRun(s: System, steps: seq<Step>, device: DeviceId)
    requires Sane(s, device) && Run(s, steps, device)
    decreases |steps|
  {
    |steps| > 0 ==>
      && !Careless(s, steps[0], device)
      && (NextKeepsSane(s, steps[0], device); CarefulRun(Next(s, steps[0], device), steps[1..], device))
  }

  lemma {:induction false} CarefulRunAppliesOnce(s: System, steps: seq<Step>, device: DeviceId)
    requires Sane(s, device) && Recognised(s, device) && AppliedOnce(s)
    requires Run(s, steps, device) && CarefulRun(s, steps, device)
    ensures Recognised(AfterRun(s, steps, device), device) && AppliedOnce(AfterRun(s, steps, device))
    decreases |steps|
  {
    if |steps| > 0 {
      NextKeepsSane(s, steps[0], device);
      NextKeepsRecognised(s, steps[0], device);
      CarefulRunAppliesOnce(Next(s, steps[0], device), steps[1..], device);
    }
  }

  /** For every interleaving without a careless purge, and whatever the clocks do, the server applies no event twice. */
  lemma EveryEventIsAppliedOnce(db: Db, steps: seq<Step>, device: DeviceId)
    requires Coherent(db) && device in db.dir.devices && NoWorkYet(db, device)
    requires (StartIsSane(db, device); Run(Start(db), steps, device) && CarefulRun(Start(db), steps, device))
    ensures (StartIsSane(db, device);
      var journal := AfterRun(Start(db), steps, device).server.journal;
      forall a, b :: 0 <= a < b < |journal| ==> journal[a].id != journal[b].id)
  {
    StartIsSane(db, device);
    RunIsSane(Start(db), steps, device);
    CarefulRunAppliesOnce(Start(db), steps, device);
  }

  // ----- A careless purge does break it -----

  ghost function QueuedRows(s: System): set<nat> {
    set i: nat | 0 <= i < |s.journaled| && Queued(s, i)
  }

  lemma EarlierIsTransitive(a: Row, b: Row, c: Row)
    requires !Earlier(b, a) && !Earlier(c, b)
    ensures !Earlier(c, a)
  {}

  /** Some queued row comes first. */
  lemma {:induction false} HeadAmong(s: System, rows: set<nat>) returns (head: nat)
    requires rows != {} && forall i :: i in rows ==> i < |s.journaled|
    ensures head in rows && forall j :: j in rows ==> !Earlier(s.journaled[j], s.journaled[head])
    decreases |rows|
  {
    var i :| i in rows;
    head := i;
    if rows != {i} {
      var rest := rows - {i};
      assert rest != {};
      var other := HeadAmong(s, rest);
      if Earlier(s.journaled[other], s.journaled[i]) {
        head := other;
      } else {
        forall j | j in rest
          ensures !Earlier(s.journaled[j], s.journaled[i])
        {
          EarlierIsTransitive(s.journaled[i], s.journaled[other], s.journaled[j]);
        }
      }
    }
  }

  /** The agent's and the network's part only: nothing the server has recorded changes. */
  ghost predicate ServerStands(s: System, s': System) {
    s'.server == s.server && s'.applied == s.applied && s'.journaled == s.journaled
  }

  /** The first row is sent, turned away and quarantined. */
  lemma GiveUp(s: System, head: nat, device: DeviceId) returns (steps: seq<Step>)
    requires Sane(s, device) && IsHead(s, head)
    ensures Run(s, steps, device)
    ensures ServerStands(s, AfterRun(s, steps, device))
    ensures AfterRun(s, steps, device).left == s.left + {head}
    ensures s.requests <= AfterRun(s, steps, device).requests
  {
    NextKeepsSane(s, Send(head), device);
    var s1 := Next(s, Send(head), device);
    NextKeepsSane(s1, TurnAway(head), device);
    var s2 := Next(s1, TurnAway(head), device);
    NextKeepsSane(s2, Quarantine(head), device);
    var s3 := Next(s2, Quarantine(head), device);
    steps := [Send(head), TurnAway(head), Quarantine(head)];
    assert Run(s3, [], device) && AfterRun(s3, [], device) == s3;
    assert Run(s2, [Quarantine(head)], device) && AfterRun(s2, [Quarantine(head)], device) == s3;
    assert steps[1..] == [TurnAway(head), Quarantine(head)] && steps[1..][1..] == [Quarantine(head)];
  }

  lemma {:induction false} RunsJoin(s: System, first: seq<Step>, second: seq<Step>, device: DeviceId)
    requires Sane(s, device) && Run(s, first, device)
    requires (RunIsSane(s, first, device); Run(AfterRun(s, first, device), second, device))
    ensures Run(s, first + second, device)
    ensures (RunIsSane(s, first, device);
      AfterRun(s, first + second, device) == AfterRun(AfterRun(s, first, device), second, device))
    decreases |first|
  {
    RunIsSane(s, first, device);
    if |first| > 0 {
      NextKeepsSane(s, first[0], device);
      assert (first + second)[0] == first[0] && (first + second)[1..] == first[1..] + second;
      RunsJoin(Next(s, first[0], device), first[1..], second, device);
    } else {
      assert first + second == second;
    }
  }

  /** The agent can come to send an event that is still queued: the server turns away what is before it. */
  lemma {:induction false} ItIsSent(s: System, i: nat, device: DeviceId) returns (steps: seq<Step>)
    requires Sane(s, device) && (i in s.requests || Queued(s, i))
    ensures Run(s, steps, device)
    ensures ServerStands(s, AfterRun(s, steps, device)) && i in AfterRun(s, steps, device).requests
    decreases |QueuedRows(s)|
  {
    steps := [];
    if i !in s.requests {
      assert i in QueuedRows(s);
      var head := HeadAmong(s, QueuedRows(s));
      assert forall j: nat :: Queued(s, j) ==> j in QueuedRows(s);
      if head == i {
        steps := [Send(i)];
        NextKeepsSane(s, Send(i), device);
        assert Run(Next(s, Send(i), device), [], device);
      } else {
        var first := GiveUp(s, head, device);
        RunIsSane(s, first, device);
        var s' := AfterRun(s, first, device);
        assert QueuedRows(s') == QueuedRows(s) - {head};
        var rest := ItIsSent(s', i, device);
        RunsJoin(s, first, rest, device);
        steps := first + rest;
      }
    }
  }

  /** Once it has no receipt, an applied event that is under way is applied again by the first call that the server
      accepts: it makes an old event the device's present one. */
  lemma UnrecognisedIsAppliedAgain(s: System, i: nat, now: int, prev: Option<Receipt>, device: DeviceId)
    requires Sane(s, device) && Enabled(s, Serve(i, now, prev), device)
    requires i in s.applied && !HasReceipt(s, device, i)
    requires Sync(s.server.db, s.journaled[i].req, now, prev).1.Accepted?
    ensures var s' := Next(s, Serve(i, now, prev), device);
      && s'.applied == s.applied + [i] && !AppliedOnce(s')
      && IsCurrent(s'.server.db.ledger, Admit(s.server.db, s.journaled[i].req, now).value,
                   Sync(s.server.db, s.journaled[i].req, now, prev).1.session)
  {
    var c := CallFor(s, i, now, prev);
    UnknownIsTaken(s, i, c, device);
    AcceptedEventIsCurrent(s.server.db, c.req, now, prev);
    var s' := Next(s, Serve(i, now, prev), device);
    var a :| 0 <= a < |s.applied| && s.applied[a] == i;
    assert s'.applied[a] == s'.applied[|s.applied|];
  }

  /** A stop without a task is never refused. */
  lemma StopsAreAccepted(db: Db, req: Request, now: int, prev: Option<Receipt>)
    requires Coherent(db) && req.device in db.dir.devices && req.status == Stopped && req.task.None?
    ensures Sync(db, req, now, prev).1.Accepted?
  {}

  /** The applied event is under way, and every call for it that the server accepts applies it again; if it is a stop,
      the server does accept it. */
  ghost predicate ComesAgain(s: System, i: nat, device: DeviceId) {
    && Sane(s, device) && Sent(s, i) && s.journaled[i].req.device == device && i in s.applied
    && (forall now: int, prev: Option<Receipt> ::
          && IsPrevious(s.server.db.receipts, device, prev)
          && Sync(s.server.db, s.journaled[i].req, now, prev).1.Accepted? ==>
            Next(s, Serve(i, now, prev), device).applied == s.applied + [i])
    && (s.journaled[i].req.status == Stopped && s.journaled[i].req.task.None? ==>
          forall now: int, prev: Option<Receipt> :: Sync(s.server.db, s.journaled[i].req, now, prev).1.Accepted?)
  }

  /** Every careless purge is one too many: afterwards the agent can come to send some applied event in such a way
      that every call the server accepts applies it a second time; if it is a stop, the server does accept it. */
  lemma CarelessPurgesDoHarm(s: System, step: Step, device: DeviceId) returns (i: nat, steps: seq<Step>)
    requires Sane(s, device) && Enabled(s, step, device) && Careless(s, step, device)
    ensures i in s.applied
    ensures (NextKeepsSane(s, step, device); Run(Next(s, step, device), steps, device))
    ensures (NextKeepsSane(s, step, device); ComesAgain(AfterRun(Next(s, step, device), steps, device), i, device))
  {
    i := CarelessForgets(s, step.command.cutoff, device);
    PurgeOnlyForgets(s, step.command.cutoff, device);
    NextKeepsSane(s, step, device);
    steps := UnrecognisedIsSent(Next(s, step, device), i, device);
  }

  function Purged(s: System, cutoff: int): System {
    s.(server := s.server.(db := s.server.db.(receipts := Compact(s.server.db.receipts, cutoff))))
  }

  lemma PurgeOnlyForgets(s: System, cutoff: int, device: DeviceId)
    requires Sane(s, device)
    ensures Next(s, Elsewhere(PurgeReceipts(cutoff)), device) == Purged(s, cutoff)
  {}

  lemma CarelessForgets(s: System, cutoff: int, device: DeviceId) returns (i: nat)
    requires Sane(s, device) && Careless(s, Elsewhere(PurgeReceipts(cutoff)), device)
    ensures i in s.applied && MayComeAgain(Purged(s, cutoff), i) && !HasReceipt(Purged(s, cutoff), device, i)
  {
    i :| MayComeAgain(s, i) && HasReceipt(s, device, i)
      && (device, s.journaled[i].req.id.value) !in Compact(s.server.db.receipts, cutoff);
  }

  lemma UnrecognisedIsSent(s: System, i: nat, device: DeviceId) returns (steps: seq<Step>)
    requires Sane(s, device) && MayComeAgain(s, i) && !HasReceipt(s, device, i)
    ensures Run(s, steps, device) && ComesAgain(AfterRun(s, steps, device), i, device)
  {
    steps := ItIsSent(s, i, device);
    RunIsSane(s, steps, device);
    ThenItComesAgain(AfterRun(s, steps, device), i, device);
  }

  lemma ThenItComesAgain(s: System, i: nat, device: DeviceId)
    requires Sane(s, device) && Sent(s, i) && i in s.applied && !HasReceipt(s, device, i)
    ensures ComesAgain(s, i, device)
  {
    forall now: int, prev: Option<Receipt> |
      IsPrevious(s.server.db.receipts, device, prev) && Sync(s.server.db, s.journaled[i].req, now, prev).1.Accepted?
      ensures Next(s, Serve(i, now, prev), device).applied == s.applied + [i]
    {
      UnrecognisedIsAppliedAgain(s, i, now, prev, device);
    }
    if s.journaled[i].req.status == Stopped && s.journaled[i].req.task.None? {
      forall now: int, prev: Option<Receipt>
        ensures Sync(s.server.db, s.journaled[i].req, now, prev).1.Accepted?
      {
        StopsAreAccepted(s.server.db, s.journaled[i].req, now, prev);
      }
    }
  }

  // ----- A clock that never steps back -----

  /** The order of observation is the order of journalling. */
  ghost predicate SteadyClock(rows: seq<Row>) {
    forall i, j :: 0 <= i < j < |rows| ==> Earlier(rows[i], rows[j])
  }

  predicate EarlierHaveLeft(s: System, i: nat) {
    forall j: nat :: j < i ==> j in s.left
  }

  /** Nothing was sent, answered, applied or removed before everything that was journalled earlier had left. */
  ghost predicate InTurn(s: System) {
    && (forall i :: i in s.requests || i in s.left || i in s.applied ==> EarlierHaveLeft(s, i))
    && (forall r :: r in s.replies ==> EarlierHaveLeft(s, r.event))
  }

  /** With a clock that never steps back, the head of the queue is its oldest row. */
  lemma HeadIsFirst(s: System, i: nat)
    requires SteadyClock(s.journaled) && IsHead(s, i)
    ensures EarlierHaveLeft(s, i)
  {
    forall j: nat | j < i
      ensures j in s.left
    {
      assert Earlier(s.journaled[j], s.journaled[i]);
    }
  }

  lemma NextKeepsTurns(s: System, step: Step, device: DeviceId)
    requires Sane(s, device) && Enabled(s, step, device) && InTurn(s) && SteadyClock(s.journaled)
    ensures InTurn(Next(s, step, device))
  {
    var s' := Next(s, step, device);
    if step.Send? {
      HeadIsFirst(s, step.event);
    }
    assert s.left <= s'.left;
    forall i: nat | EarlierHaveLeft(s, i)
      ensures EarlierHaveLeft(s', i)
    {}
    forall i | i in s'.applied
      ensures EarlierHaveLeft(s', i)
    {
      assert i in s.applied || (step.Serve? && i == step.event);
    }
  }

  /** Unless it was quarantined, an event was applied after everything that was applied before it in the journal. */
  ghost predicate AppliedInOrder(s: System) {
    forall a, b :: 0 <= a < b < |s.applied| && s.applied[b] !in s.quarantined ==> s.applied[a] < s.applied[b]
  }

  lemma NextKeepsOrder(s: System, step: Step, device: DeviceId)
    requires Sane(s, device) && Enabled(s, step, device) && Recognised(s, device) && AppliedOnce(s)
    requires InTurn(s) && AppliedInOrder(s)
    ensures AppliedInOrder(Next(s, step, device))
  {
    var s' := Next(s, step, device);
    assert s.quarantined <= s'.quarantined;
    if s'.applied != s.applied {
      NextKeepsRecognised(s, step, device);
      var i := step.event;
      assert s'.applied == s.applied + [i];
      forall a | 0 <= a < |s.applied|
        ensures s.applied[a] != i
      {
        assert s'.applied[a] != s'.applied[|s.applied|];
      }
      forall a | 0 <= a < |s.applied| && i !in s.quarantined
        ensures s.applied[a] < i
      {
        assert EarlierHaveLeft(s, s.applied[a]);
        assert i !in s.left;
      }
    }
  }

  ghost predicate Orderly(s: System, device: DeviceId) {
    Sane(s, device) && Recognised(s, device) && AppliedOnce(s) && InTurn(s) && AppliedInOrder(s)
  }

  lemma {:induction false} JournalOnlyGrows(s: System, steps: seq<Step>, device: DeviceId)
    requires Sane(s, device) && Run(s, steps, device)
    ensures s.journaled <= AfterRun(s, steps, device).journaled
    decreases |steps|
  {
    if |steps| > 0 {
      NextKeepsSane(s, steps[0], device);
      JournalOnlyGrows(Next(s, steps[0], device), steps[1..], device);
    }
  }

  lemma {:induction false} RunStaysOrderly(s: System, steps: seq<Step>, device: DeviceId)
    requires Orderly(s, device) && Run(s, steps, device) && CarefulRun(s, steps, device)
    requires SteadyClock(AfterRun(s, steps, device).journaled)
    ensures Orderly(AfterRun(s, steps, device), device)
    decreases |steps|
  {
    if |steps| > 0 {
      NextKeepsSane(s, steps[0], device);
      JournalOnlyGrows(s, steps, device);
      NextKeepsRecognised(s, steps[0], device);
      NextKeepsTurns(s, steps[0], device);
      NextKeepsOrder(s, steps[0], device);
      RunStaysOrderly(Next(s, steps[0], device), steps[1..], device);
    }
  }

  lemma StartIsOrderly(db: Db, device: DeviceId)
    requires Coherent(db) && device in db.dir.devices && NoWorkYet(db, device)
    ensures Orderly(Start(db), device)
  {}

  /** For every interleaving without a careless purge, and an agent whose clock never steps back: whatever was applied
      out of turn had been quarantined. */
  lemma EverythingIsAppliedInOrder(db: Db, steps: seq<Step>, device: DeviceId)
    requires Coherent(db) && device in db.dir.devices && NoWorkYet(db, device)
    requires (StartIsSane(db, device); Run(Start(db), steps, device) && CarefulRun(Start(db), steps, device))
    requires (StartIsSane(db, device); SteadyClock(AfterRun(Start(db), steps, device).journaled))
    ensures (StartIsSane(db, device); AppliedInOrder(AfterRun(Start(db), steps, device)))
    ensures (StartIsSane(db, device); Orderly(AfterRun(Start(db), steps, device), device))
  {
    StartIsOrderly(db, device);
    RunStaysOrderly(Start(db), steps, device);
  }

  /** The receipt of an event that is still queued is one of the device's latest, so no purge takes it. */
  lemma HeadReceiptSurvives(s: System, i: nat, cutoff: int, device: DeviceId)
    requires Sane(s, device) && InTurn(s) && SteadyClock(s.journaled)
    requires Queued(s, i) && HasReceipt(s, device, i)
    ensures (device, s.journaled[i].req.id.value) in Compact(s.server.db.receipts, cutoff)
  {
    var k := (device, s.journaled[i].req.id.value);
    forall n | n in s.server.db.receipts && n.0 == device
      ensures s.server.db.receipts[n].observed <= s.server.db.receipts[k].observed
    {
      assert n == (device, n.1);
      assert IsTimeOfApplied(s, s.server.db.receipts[n].observed);
      var j: nat :| j < |s.journaled| && j in s.applied && s.journaled[j].req.at == s.server.db.receipts[n].observed;
      assert EarlierHaveLeft(s, j);
      assert j <= i;
      assert j < i ==> Earlier(s.journaled[j], s.journaled[i]);
    }
  }

  /** So with a clock that never steps back, only a request that is still under way can make a purge careless. */
  lemma OnlyDelayedRequestsMakePurgesCareless(s: System, step: Step, device: DeviceId)
    requires Sane(s, device) && InTurn(s) && SteadyClock(s.journaled) && Careless(s, step, device)
    ensures exists i: nat :: i in s.requests && i in s.applied && !Queued(s, i)
  {
    var i: nat :| MayComeAgain(s, i) && HasReceipt(s, device, i)
      && (device, s.journaled[i].req.id.value) !in Compact(s.server.db.receipts, step.command.cutoff);
    if Queued(s, i) {
      HeadReceiptSurvives(s, i, step.command.cutoff, device);
    }
  }

  /** As long as nothing was quarantined, what the server applied is the journal in order: everything that left
      the queue and perhaps its head, whose acknowledgement may have been lost. */
  lemma WithoutQuarantineInOrder(s: System, device: DeviceId)
    requires Orderly(s, device) && s.quarantined == {}
    ensures forall a :: 0 <= a < |s.applied| ==> s.applied[a] == a
    ensures forall i :: i in s.left ==> i < |s.applied|
    ensures forall i: nat :: i + 1 < |s.applied| ==> i in s.left
  {
    var n := |s.applied|;
    forall v: nat, a | 0 <= a < n && v < s.applied[a]
      ensures v in s.applied
    {
      assert s.applied[a] in s.applied && EarlierHaveLeft(s, s.applied[a]);
      assert v in s.left;
    }
    CountUp(s.applied, n);
    if n > 0 {
      assert s.applied[n - 1] in s.applied && EarlierHaveLeft(s, s.applied[n - 1]);
    }
  }

  /** Increasing numbers that leave out nothing below them are 0, 1, 2, ... */
  lemma {:induction false} CountUp(a: seq<nat>, k: nat)
    requires k <= |a|
    requires forall i, j :: 0 <= i < j < |a| ==> a[i] < a[j]
    requires forall v: nat, i :: 0 <= i < |a| && v < a[i] ==> v in a
    ensures forall i :: 0 <= i < k ==> a[i] == i
  {
    if k > 0 {
      CountUp(a, k - 1);
      assert k > 1 ==> a[k - 2] < a[k - 1];
      assert forall i :: 0 <= i < k - 1 ==> a[i] < k - 1;
      assert forall i :: k - 1 < i < |a| ==> k - 1 < a[i];
      assert k - 1 < a[k - 1] ==> k - 1 in a;
    }
  }

  // ----- A clock that steps back -----

  /** The journal of an agent that stopped at `at`, and again after its clock stepped back. */
  function StopAt(device: DeviceId, id: EventId, at: int): Row {
    Row(Request(device, Some(id), Stopped, None, None, at, 0, 60, false), at)
  }

  lemma ServeStop(s: System, i: nat, now: int, prev: Option<Receipt>, device: DeviceId)
    requires Sane(s, device) && Enabled(s, Serve(i, now, prev), device) && !HasReceipt(s, device, i)
    requires s.journaled[i].req.status == Stopped && s.journaled[i].req.task.None?
    ensures Sane(Next(s, Serve(i, now, prev), device), device)
    ensures var s', req := Next(s, Serve(i, now, prev), device), s.journaled[i].req; var k := (device, req.id.value);
      && s' == Answered(s, i, s'.server, true, true)
      && s'.server.db.receipts.Keys == s.server.db.receipts.Keys + {k}
      && (forall n :: n in s.server.db.receipts ==> s'.server.db.receipts[n] == s.server.db.receipts[n])
      && s'.server.db.receipts[k].received == now
      && s'.server.db.receipts[k].observed == if prev.Some? then Max(req.at, prev.value.observed) else req.at
  {
    NextKeepsSane(s, Serve(i, now, prev), device);
    var c := CallFor(s, i, now, prev);
    StopsAreAccepted(s.server.db, c.req, now, prev);
    UnknownIsTaken(s, i, c, device);
    TakenAddsReceipt(s.server, c);
  }

  lemma OneMoreStep(s: System, steps: seq<Step>, step: Step, device: DeviceId)
    requires Sane(s, device) && Run(s, steps, device)
    requires (RunIsSane(s, steps, device); Enabled(AfterRun(s, steps, device), step, device))
    ensures Run(s, steps + [step], device)
    ensures (RunIsSane(s, steps, device);
      AfterRun(s, steps + [step], device) == Next(AfterRun(s, steps, device), step, device))
  {
    RunIsSane(s, steps, device);
    var s1 := AfterRun(s, steps, device);
    NextKeepsSane(s1, step, device);
    assert Run(Next(s1, step, device), [], device);
    RunsJoin(s, steps, [step], device);
  }

  lemma JournalAndSend(s: System, steps: seq<Step>, row: Row, device: DeviceId) returns (more: seq<Step>)
    requires Sane(s, device) && Run(s, steps, device)
    requires (RunIsSane(s, steps, device); Enabled(AfterRun(s, steps, device), Journal(row), device))
    requires var s' := AfterRun(s, steps, device);
      forall j: nat :: Queued(s', j) ==> !Earlier(s'.journaled[j], row)
    requires AfterRun(s, steps, device).left == {}
    ensures Run(s, more, device)
    ensures var s' := AfterRun(s, steps, device);
      AfterRun(s, more, device) == s'.(journaled := s'.journaled + [row], requests := s'.requests + {|s'.journaled|})
  {
    RunIsSane(s, steps, device);
    var n := |AfterRun(s, steps, device).journaled|;
    OneMoreStep(s, steps, Journal(row), device);
    more := steps + [Journal(row)];
    RunIsSane(s, more, device);
    assert IsHead(AfterRun(s, more, device), n);
    OneMoreStep(s, more, Send(n), device);
    more := more + [Send(n)];
  }

  /** The first stop is sent, the clock steps back, and the second one, now the head, is sent too. */
  lemma BothAreSent(db: Db, device: DeviceId) returns (steps: seq<Step>)
    requires Coherent(db) && device in db.dir.devices && NoWorkYet(db, device)
    ensures (StartIsSane(db, device); Run(Start(db), steps, device))
    ensures (StartIsSane(db, device);
      AfterRun(Start(db), steps, device)
        == Start(db).(journaled := [StopAt(device, 0, 20), StopAt(device, 1, 10)], requests := {0, 1}))
  {
    StartIsSane(db, device);
    var s := Start(db);
    assert Run(s, [], device) && AfterRun(s, [], device) == s;
    steps := JournalAndSend(s, [], StopAt(device, 0, 20), device);
    assert AfterRun(s, steps, device).journaled == [StopAt(device, 0, 20)];
    steps := JournalAndSend(s, steps, StopAt(device, 1, 10), device);
    assert AfterRun(s, steps, device).journaled == [StopAt(device, 0, 20), StopAt(device, 1, 10)];
  }

  /** The second stop was applied, perhaps the first one after it, and neither has left. */
  ghost predicate SecondApplied(s: System, applied: seq<nat>, now: int, device: DeviceId) {
    && Sane(s, device) && s.applied == applied && s.left == {}
    && s.journaled == [StopAt(device, 0, 20), StopAt(device, 1, 10)]
    && (forall k :: k in s.server.db.receipts && k.0 == device ==>
        k == (device, 1) || (0 in applied && k == (device, 0)))
    && (1 in applied ==>
          && (device, 1) in s.server.db.receipts
          && s.server.db.receipts[(device, 1)].observed == 10 && s.server.db.receipts[(device, 1)].received == now)
    && (0 in applied ==>
          && (device, 0) in s.server.db.receipts
          && s.server.db.receipts[(device, 0)].observed == 20)
  }

  lemma SecondIsServed(s: System, now: int, device: DeviceId)
    requires SecondApplied(s, [], now, device) && 1 in s.requests && (device, 1) !in s.server.db.receipts
    ensures Enabled(s, Serve(1, now, None), device)
    ensures SecondApplied(Next(s, Serve(1, now, None), device), [1], now, device)
  {
    ServeStop(s, 1, now, None, device);
  }

  lemma FirstIsServed(s: System, now: int, device: DeviceId) returns (prev: Option<Receipt>)
    requires SecondApplied(s, [1], now, device) && 0 in s.requests
    ensures Enabled(s, Serve(0, now, prev), device)
    ensures SecondApplied(Next(s, Serve(0, now, prev), device), [1, 0], now, device)
  {
    prev := Some(s.server.db.receipts[(device, 1)]);
    assert IsPrevious(s.server.db.receipts, device, prev);
    ServeStop(s, 0, now, prev, device);
  }

  lemma SecondIsForgotten(s: System, now: int, device: DeviceId)
    requires SecondApplied(s, [1, 0], now, device)
    ensures Careless(s, Elsewhere(PurgeReceipts(now + 1)), device)
  {
    var receipts := s.server.db.receipts;
    assert 0 in s.applied && 1 in s.applied by {
      assert s.applied[0] == 1 && s.applied[1] == 0;
    }
    assert Outdates(receipts, (device, 0), receipts[(device, 1)], device);
    assert MayComeAgain(s, 1) && HasReceipt(s, device, 1);
  }

  lemma NoWorkNoReceipts(s: System, db: Db, device: DeviceId, now: int)
    requires Sane(s, device) && s.server.db == db && NoWorkYet(db, device)
    requires s.applied == [] && s.left == {} && s.journaled == [StopAt(device, 0, 20), StopAt(device, 1, 10)]
    ensures SecondApplied(s, [], now, device) && (device, 1) !in s.server.db.receipts
  {}

  /** With a clock that steps back, a purge can be careless although no request is under way: the second stop, of
      an earlier time, was applied first and its acknowledgement is lost, and the receipt of the first outdates it. */
  lemma SteppingBackMakesPurgesCareless(db: Db, device: DeviceId, now: int) returns (steps: seq<Step>)
    requires Coherent(db) && device in db.dir.devices && NoWorkYet(db, device)
    ensures (StartIsSane(db, device); Run(Start(db), steps, device))
    ensures (StartIsSane(db, device);
      var s := AfterRun(Start(db), steps, device);
      s.requests == {} && s.applied == [1, 0] && Careless(s, Elsewhere(PurgeReceipts(now + 1)), device))
  {
    StartIsSane(db, device);
    var s0 := Start(db);
    steps := BothAreSent(db, device);
    RunIsSane(s0, steps, device);
    var s1 := AfterRun(s0, steps, device);
    NoWorkNoReceipts(s1, db, device, now);
    SecondIsServed(s1, now, device);
    OneMoreStep(s0, steps, Serve(1, now, None), device);
    steps := steps + [Serve(1, now, None)];
    var s2 := AfterRun(s0, steps, device);
    var prev := FirstIsServed(s2, now, device);
    OneMoreStep(s0, steps, Serve(0, now, prev), device);
    steps := steps + [Serve(0, now, prev)];
    var s3 := AfterRun(s0, steps, device);
    OneMoreStep(s0, steps, Lose({}, {}), device);
    steps := steps + [Lose({}, {})];
    RunIsSane(s0, steps, device);
    SecondIsForgotten(AfterRun(s0, steps, device), now, device);
  }
}
