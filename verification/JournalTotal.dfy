/** End to end: once a device's journal has drained, what the server has tracked for the device is what the journal
    earns, among the rows of all other devices and whatever others do that spares the device's. */
module JournalTotal {
  import opened Records
  import opened TimeLedger
  import opened WorkSync
  import opened OwnRows
  import opened TrackedTime
  import opened ServerRuns
  import opened AttributedTime
  import opened JournalProtocol

  /** The applied events are copies of the journalled ones. */
  ghost predicate Copies(s: System)
    requires OnlyJournaled(s)
  {
    && |s.server.journal| == |s.applied|
    && forall a :: 0 <= a < |s.applied| ==> CopyOf(s.server.journal[a], s.journaled[s.applied[a]].req)
  }

  predicate CopyOf(e: Event, req: Request) {
    && e.id == req.id && e.device == req.device && e.status == req.status && e.task == req.task
    && e.at == req.at && e.idle == req.idle && e.interval == req.interval
    && (req.project.Some? && req.task.None? ==> e.project == req.project)
  }

  predicate TimesIncrease(rows: seq<Row>) {
    forall i, j :: 0 <= i < j < |rows| ==> rows[i].req.at < rows[j].req.at
  }

  /** What was applied, was applied in the order of the journal. */
  ghost predicate InJournalOrder(s: System) {
    forall a, b :: 0 <= a < b < |s.applied| ==> s.applied[a] < s.applied[b]
  }

  /** No request of an event that was given up is still under way. */
  predicate GivenUpForGood(s: System) {
    s.quarantined * s.requests == {}
  }

  ghost predicate Undisturbed(s: System, device: DeviceId) {
    && Sane(s, device) && Recognised(s, device) && AppliedOnce(s) && InTurn(s)
    && TimesIncrease(s.journaled) && InJournalOrder(s) && GivenUpForGood(s)
    && Accounts(s.server, device)
    && OwnBooked(s.server.db, device) == Pieces(s.server.journal)
    && Copies(s)
  }

  /** The agent's clock moves on from row to row, an event is given up only once no request of it is under way, no
      purge is careless, and what others do spares the device's rows. */
  ghost predicate LeavesUndisturbed(s: System, step: Step, device: DeviceId)
    requires Coherent(s.server.db)
  {
    match step
    case Journal(row) => forall j :: 0 <= j < |s.journaled| ==> s.journaled[j].req.at < row.req.at
    case Quarantine(i) => i !in s.requests
    case Elsewhere(command) => Spared(s.server.db, command, device) && !Careless(s, step, device)
    case _ => true
  }

  /** An event that is under way and not applied yet comes after all that were applied. */
  lemma NewIsLast(s: System, i: nat, a: nat)
    requires OnlyJournaled(s) && NothingIsLost(s) && InTurn(s) && GivenUpForGood(s)
    requires i in s.requests && i !in s.applied && a < |s.applied|
    ensures s.applied[a] < i < |s.journaled|
  {
    assert s.applied[a] in s.applied && EarlierHaveLeft(s, s.applied[a]);
    assert i in s.left ==> i in s.quarantined * s.requests;
  }

  /** So it is later than all of them. */
  lemma TakenIsLater(s: System, i: nat, c: Call, device: DeviceId)
    requires Undisturbed(s, device) && i in s.requests && i !in s.applied && c.req == s.journaled[i].req
    ensures c.req.device == device && c.req.id.Some?
    ensures Later(s.server, c)
  {
    if s.server.journal != [] {
      var last := |s.applied| - 1;
      NewIsLast(s, i, last);
      assert CopyOf(s.server.journal[last], s.journaled[s.applied[last]].req);
    }
  }

  lemma TakenIsCopied(s: System, c: Call, device: DeviceId)
    requires Undisturbed(s, device)
    requires FromDevice(s.server.db, c, device) && Later(s.server, c) && Takes(s.server.db, c)
    ensures CopyOf(Effective(s.server.db, c), c.req)
  {
    if s.server.journal != [] {
      PicksLastEvent(s.server, c, device);
    }
  }

  lemma AppendCopy(s: System, s': System, e: Event, i: nat)
    requires OnlyJournaled(s) && Copies(s) && OnlyJournaled(s')
    requires s'.journaled == s.journaled && s'.server.journal == s.server.journal + [e] && s'.applied == s.applied + [i]
    requires i < |s.journaled| && CopyOf(e, s.journaled[i].req)
    ensures Copies(s')
  {}

  lemma AppendInOrder(s: System, s': System, i: nat)
    requires OnlyJournaled(s) && NothingIsLost(s) && InTurn(s) && GivenUpForGood(s) && InJournalOrder(s)
    requires i in s.requests && i !in s.applied && s'.applied == s.applied + [i]
    ensures InJournalOrder(s')
  {
    forall a | 0 <= a < |s.applied|
      ensures s.applied[a] < i
    {
      NewIsLast(s, i, a);
    }
  }

  lemma TakenIsNew(s: System, i: nat, c: Call, device: DeviceId)
    requires Sane(s, device) && Recognised(s, device) && i in s.requests && c.req == s.journaled[i].req
    requires Takes(s.server.db, c)
    ensures i !in s.applied
  {
    assert !HasReceipt(s, device, i);
    assert !MayComeAgain(s, i);
  }

  lemma TakenUndisturbed(s: System, i: nat, c: Call, s': System, device: DeviceId)
    requires Undisturbed(s, device) && i in s.requests && c.req == s.journaled[i].req
    requires FromDevice(s.server.db, c, device) && Takes(s.server.db, c)
    requires Sane(s', device) && s'.journaled == s.journaled
    requires s'.server == Extend(s.server, c) && s'.applied == s.applied + [i]
    ensures Accounts(s'.server, device) && OwnBooked(s'.server.db, device) == Pieces(s'.server.journal)
    ensures Copies(s') && InJournalOrder(s')
  {
    TakenIsNew(s, i, c, device);
    TakenIsLater(s, i, c, device);
    ExtendAccounts(s.server, c, device);
    ExtendIsBooked(s.server, c, device);
    TakenCopies(s, i, c, s', device);
    AppendInOrder(s, s', i);
  }

  lemma TakenCopies(s: System, i: nat, c: Call, s': System, device: DeviceId)
    requires Undisturbed(s, device) && i < |s.journaled| && c.req == s.journaled[i].req
    requires FromDevice(s.server.db, c, device) && Later(s.server, c) && Takes(s.server.db, c)
    requires OnlyJournaled(s') && s'.journaled == s.journaled
    requires s'.server == Extend(s.server, c) && s'.applied == s.applied + [i]
    ensures Copies(s')
  {
    TakenIsCopied(s, c, device);
    TakenAddsReceipt(s.server, c);
    AppendCopy(s, s', Effective(s.server.db, c), i);
  }

  /** What does not reach the server's tables leaves the accounts as they are. */
  lemma SameHistoryUndisturbed(s: System, s': System, device: DeviceId)
    requires Undisturbed(s, device) && Sane(s', device) && Recognised(s', device) && AppliedOnce(s') && InTurn(s')
    requires s'.server == s.server && s'.applied == s.applied && s'.journaled == s.journaled && GivenUpForGood(s')
    ensures Undisturbed(s', device)
  {}

  lemma JournalUndisturbed(s: System, row: Row, s': System, device: DeviceId)
    requires Undisturbed(s, device) && Sane(s', device) && Recognised(s', device) && AppliedOnce(s') && InTurn(s')
    requires s' == s.(journaled := s.journaled + [row])
    requires forall j :: 0 <= j < |s.journaled| ==> s.journaled[j].req.at < row.req.at
    ensures Undisturbed(s', device)
  {
    CopiesStay(s, row, s');
    TimesGoOn(s.journaled, row);
  }

  lemma CopiesStay(s: System, row: Row, s': System)
    requires OnlyJournaled(s) && OnlyJournaled(s') && Copies(s) && s' == s.(journaled := s.journaled + [row])
    ensures Copies(s')
  {
    assert forall a :: 0 <= a < |s.applied| ==> s'.journaled[s.applied[a]] == s.journaled[s.applied[a]];
  }

  lemma TimesGoOn(rows: seq<Row>, row: Row)
    requires TimesIncrease(rows) && forall j :: 0 <= j < |rows| ==> rows[j].req.at < row.req.at
    ensures TimesIncrease(rows + [row])
  {}

  lemma ServeUndisturbed(s: System, i: nat, now: int, prev: Option<Receipt>, device: DeviceId)
    requires Undisturbed(s, device) && Enabled(s, Serve(i, now, prev), device)
    ensures Undisturbed(Next(s, Serve(i, now, prev), device), device)
  {
    var s' := Next(s, Serve(i, now, prev), device);
    var c := CallFor(s, i, now, prev);
    NextKeepsSane(s, Serve(i, now, prev), device);
    NextKeepsRecognised(s, Serve(i, now, prev), device);
    NextKeepsTurns(s, Serve(i, now, prev), device);
    if Takes(s.server.db, c) {
      TakenUndisturbed(s, i, c, s', device);
    } else {
      NotTakenIsNoChange(s.server, c);
      SameHistoryUndisturbed(s, s', device);
    }
  }

  lemma ElsewhereUndisturbed(s: System, command: Command, device: DeviceId)
    requires Undisturbed(s, device) && Enabled(s, Elsewhere(command), device)
    requires LeavesUndisturbed(s, Elsewhere(command), device)
    ensures Undisturbed(Next(s, Elsewhere(command), device), device)
  {
    NextKeepsSane(s, Elsewhere(command), device);
    NextKeepsRecognised(s, Elsewhere(command), device);
    NextKeepsTurns(s, Elsewhere(command), device);
    SparedAccounts(s.server, command, device);
    SparedIsBooked(s.server, command, device);
  }

  lemma NextStaysInTurn(s: System, step: Step, device: DeviceId)
    requires Undisturbed(s, device) && Enabled(s, step, device) && !Careless(s, step, device)
    ensures Sane(Next(s, step, device), device) && Recognised(Next(s, step, device), device)
    ensures AppliedOnce(Next(s, step, device)) && InTurn(Next(s, step, device))
  {
    NextKeepsSane(s, step, device);
    NextKeepsRecognised(s, step, device);
    NextKeepsTurns(s, step, device);
  }

  /** Queueing, sending, losing and removing rows leaves the server alone. */
  lemma AgentUndisturbed(s: System, step: Step, device: DeviceId)
    requires Undisturbed(s, device) && Enabled(s, step, device) && LeavesUndisturbed(s, step, device)
    requires !step.Serve? && !step.Elsewhere? && !step.Journal?
    ensures Undisturbed(Next(s, step, device), device)
  {
    NextStaysInTurn(s, step, device);
    var s' := Next(s, step, device);
    assert GivenUpForGood(s') by {
      AgentGivesUpForGood(s, step, device);
    }
    SameHistoryUndisturbed(s, s', device);
  }

  lemma AgentGivesUpForGood(s: System, step: Step, device: DeviceId)
    requires Coherent(s.server.db) && device in s.server.db.dir.devices && OnlyJournaled(s) && GivenUpForGood(s)
    requires Enabled(s, step, device) && LeavesUndisturbed(s, step, device)
    requires !step.Serve? && !step.Elsewhere? && !step.Journal?
    ensures GivenUpForGood(Next(s, step, device))
  {
    if step.Send? {
      assert step.event !in s.quarantined;
    }
  }

  lemma NextUndisturbed(s: System, step: Step, device: DeviceId)
    requires Undisturbed(s, device) && Enabled(s, step, device) && LeavesUndisturbed(s, step, device)
    ensures Undisturbed(Next(s, step, device), device)
  {
    match step
    case Serve(i, now, prev) => ServeUndisturbed(s, i, now, prev, device);
    case Elsewhere(command) => ElsewhereUndisturbed(s, command, device);
    case Journal(row) =>
      NextStaysInTurn(s, step, device);
      JournalUndisturbed(s, row, Next(s, step, device), device);
    case _ => AgentUndisturbed(s, step, device);
  }

  ghost predicate QuietRun(s: System, steps: seq<Step>, device: DeviceId)
    requires Sane(s, device)
    decreases |steps|
  {
    |steps| > 0 ==>
      && Enabled(s, steps[0], device) && LeavesUndisturbed(s, steps[0], device)
      && (NextKeepsSane(s, steps[0], device); QuietRun(Next(s, steps[0], device), steps[1..], device))
  }

  lemma {:induction false} QuietRunIsUndisturbed(s: System, steps: seq<Step>, device: DeviceId)
    requires Undisturbed(s, device) && QuietRun(s, steps, device)
    ensures Run(s, steps, device)
    ensures Undisturbed(AfterRun(s, steps, device), device)
    decreases |steps|
  {
    if |steps| > 0 {
      NextUndisturbed(s, steps[0], device);
      QuietRunIsUndisturbed(Next(s, steps[0], device), steps[1..], device);
    }
  }

  /** The server applied copies of the journalled events in their order, all but those that were given up; the total
      it tracked for the device is what they earn, and it is booked as they describe. */
  ghost predicate FullyAccounted(s: System, device: DeviceId) {
    && Coherent(s.server.db) && OnlyJournaled(s)
    && InJournalOrder(s) && Copies(s)
    && (forall i: nat :: i < |s.journaled| ==> i in s.applied || i in s.quarantined)
    && OwnBooked(s.server.db, device) == Pieces(s.server.journal)
    && TrackedIsEarned(s.server, device)
  }

  predicate Drained(s: System) {
    forall i: nat :: i < |s.journaled| ==> i in s.left
  }

  /** However often requests and replies were lost, duplicated or late, however often the agent restarted, and
      whatever others did meanwhile that spares the device's rows: once the queue has drained, every event that was
      not given up is fully accounted for. */
  lemma DrainedJournalIsTheTotal(db: Db, steps: seq<Step>, device: DeviceId)
    requires Coherent(db) && device in db.dir.devices && NoWorkYet(db, device)
    requires (StartIsSane(db, device); QuietRun(Start(db), steps, device))
    ensures (StartIsUndisturbed(db, device); QuietRunIsUndisturbed(Start(db), steps, device);
      var s := AfterRun(Start(db), steps, device);
      Drained(s) ==> FullyAccounted(s, device))
  {
    StartIsUndisturbed(db, device);
    QuietRunIsUndisturbed(Start(db), steps, device);
    var s := AfterRun(Start(db), steps, device);
    if Drained(s) {
      DrainedIsAccounted(s, device);
    }
  }

  lemma DrainedIsAccounted(s: System, device: DeviceId)
    requires Undisturbed(s, device) && Drained(s)
    ensures FullyAccounted(s, device)
  {
    AccountsIsEarned(s.server, device);
  }

  lemma StartIsUndisturbed(db: Db, device: DeviceId)
    requires Coherent(db) && device in db.dir.devices && NoWorkYet(db, device)
    ensures Undisturbed(Start(db), device)
  {
    NewDeviceAccounts(db, device);
    NewDeviceIsBooked(db, device);
  }
}
