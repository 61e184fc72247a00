/** A server that purges replay receipts beside one that never does: why no later command can tell them apart. */
module PurgedRuns {
  import opened Records
  import opened TimeLedger
  import opened WorkSync
  import opened Closers
  import opened ServerRuns
  import opened Compaction

  /** Event identifiers are never used for a second event. */
  ghost predicate Possible(db: Db, used: Receipts, c: Command) {
    && Allowed(db, c)
    && (c.Heartbeat? && c.req.id.Some? ==> (c.req.device, c.req.id.value) !in used)
  }

  /** `without` is the same server with the same history, except that it never purged. */
  ghost predicate Twins(db: Db, without: Db) {
    && Coherent(db)
    && without.dir == db.dir && without.ledger == db.ledger
    && Covers(db.receipts, without.receipts)
  }

  lemma RememberCovers(kept: Receipts, all: Receipts, k: (DeviceId, EventId), r: Receipt)
    requires Covers(kept, all) && k !in all
    ensures Covers(kept[k := r], all[k := r])
  {
    var kept', all' := kept[k := r], all[k := r];
    forall j | j in all' && j !in kept'
      ensures exists n :: n in kept' && Outdates(kept', n, all'[j], j.0)
    {
      var n :| n in kept && Outdates(kept, n, all[j], j.0);
      assert n in kept' && Outdates(kept', n, all'[j], j.0);
    }
  }

  lemma TwinsCommit(db: Db, without: Db, ev: Event, now: int, prev: Option<Receipt>)
    requires without.dir == db.dir && without.ledger == db.ledger && Covers(db.receipts, without.receipts)
    requires !AlreadyApplied(without.receipts, ev)
    ensures var (d, o) := Commit(db, ev, now, prev); var (d', o') := Commit(without, ev, now, prev);
      o == o' && d'.dir == d.dir && d'.ledger == d.ledger && Covers(d.receipts, d'.receipts)
  {
    var replayed := Replay(db.ledger, ev, prev, now);
    if replayed.Ok? && ev.id.Some? {
      var r := ReceiptOf(ev, now, if ev.status == Stopped then None else replayed.value.1);
      RememberCovers(db.receipts, without.receipts, (ev.device, ev.id.value), r);
    }
  }

  lemma AdmissionIgnoresReceipts(db: Db, without: Db, req: Request, now: int)
    requires ReferencesResolve(db.ledger) && req.device in db.dir.devices
    requires without.dir == db.dir && without.ledger == db.ledger
    ensures Admit(db, req, now) == Admit(without, req, now)
  {}

  /** One call on both servers: same answer, same sessions and segments, and still twins. */
  lemma TwinsCall(db: Db, without: Db, req: Request, now: int, prev: Option<Receipt>)
    requires Twins(db, without) && Possible(db, without.receipts, Heartbeat(req, now, prev))
    ensures IsPrevious(without.receipts, req.device, prev)
    ensures Sync(db, req, now, prev).1 == Sync(without, req, now, prev).1
    ensures Twins(Sync(db, req, now, prev).0, Sync(without, req, now, prev).0)
  {
    CoveredSameLatest(db.receipts, without.receipts, req.device, prev);
    SyncKeepsInv(db, req, now, prev);
    AdmissionIgnoresReceipts(db, without, req, now);
    match Admit(db, req, now) {
      case Err(_) =>
      case Ok(ev) =>
        assert !AlreadyApplied(without.receipts, ev) && !AlreadyApplied(db.receipts, ev);
        TwinsCommit(db, without, if ev.id.Some? then Clamp(ev, prev) else ev, now, prev);
    }
  }

  /** What an administrator does depends on no receipt and touches none. */
  lemma AdministrationIgnoresReceipts(db: Db, without: Db, c: Command)
    requires Coherent(db) && without.dir == db.dir && without.ledger == db.ledger
    requires Allowed(db, c) && !c.Heartbeat? && !c.PurgeReceipts?
    ensures Allowed(without, c)
    ensures Execute(without, c) == Execute(db, c).(receipts := without.receipts) &&
      Execute(db, c).receipts == db.receipts
  {}

  /** The twin does the same but skips the purges. */
  ghost function Skipping(without: Db, c: Command): Db
    requires Coherent(without) && Allowed(without, c)
  {
    if c.PurgeReceipts? then without else Execute(without, c)
  }

  lemma TwinsStep(db: Db, without: Db, c: Command)
    requires Twins(db, without) && Possible(db, without.receipts, c)
    ensures Allowed(without, c)
    ensures Twins(Execute(db, c), Skipping(without, c))
  {
    ExecuteKeeps(db, c);
    if c.Heartbeat? {
      TwinsCall(db, without, c.req, c.now, c.prev);
    } else if c.PurgeReceipts? {
      CompactCovers(db.receipts, without.receipts, c.cutoff);
    } else {
      AdministrationIgnoresReceipts(db, without, c);
    }
  }

  ghost predicate PossibleRun(db: Db, without: Db, run: seq<Command>)
    requires Twins(db, without)
    decreases |run|
  {
    |run| > 0 ==>
      && Possible(db, without.receipts, run[0])
      && (TwinsStep(db, without, run[0]); PossibleRun(Execute(db, run[0]), Skipping(without, run[0]), run[1..]))
  }

  /** A run that purges at arbitrary moments, together with its twin. */
  ghost function Final(db: Db, without: Db, run: seq<Command>): (Db, Db)
    requires Twins(db, without) && PossibleRun(db, without, run)
    decreases |run|
  {
    if |run| == 0 then (db, without)
    else
      TwinsStep(db, without, run[0]);
      Final(Execute(db, run[0]), Skipping(without, run[0]), run[1..])
  }

  /** Whenever and however often receipts are purged, a run of calls with fresh event ids and of any administrative
      changes ends with the same directory, sessions and segments as the run that never purges. */
  lemma {:induction false} PurgingIsInvisible(db: Db, without: Db, run: seq<Command>)
    requires Twins(db, without) && PossibleRun(db, without, run)
    ensures var (purged, kept) := Final(db, without, run); purged.ledger == kept.ledger && purged.dir == kept.dir
    ensures Twins(Final(db, without, run).0, Final(db, without, run).1)
    decreases |run|
  {
    if |run| > 0 {
      TwinsStep(db, without, run[0]);
      PurgingIsInvisible(Execute(db, run[0]), Skipping(without, run[0]), run[1..]);
    }
  }
}
