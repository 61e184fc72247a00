/** The self-update: replace the executable, verify it, run its diagnostics, roll back if need be, and settle
    plans that a power loss interrupted. A crash can leave any state that the disk goes through. */
module Installer {
  import opened Records

  /** File contents. Digests are taken to be collision free, so matching a digest is having its content. */
  type Content = string

  datatype Status =
    | Pending
    | Replacing
    | BackupFailed
    | Installed
    | RolledBack
    | RecoveryRequired

  /** What the update touches: the executable, the staged artifact, the rollback copy and the plan's status. */
  datatype Disk = Disk(target: Option<Content>, staged: Option<Content>, backup: Option<Content>, status: Status)

  // ----- What can go wrong -----

  /** `_atomic_copy` raises before the rename, or puts some content in place and then perhaps raises. */
  datatype Copy = Unreplaced | Replaced(content: Content, raises: bool)

  /** `_write_json` succeeds, raises before the rename, or raises after it. */
  datatype Write = Written | Unwritten | WrittenThenRaised

  /** The new executable's diagnostics: whether they raise or time out, their exit code, and what they leave as
      the executable. */
  datatype Diagnosis = Diagnosis(raises: bool, code: int, leaves: Option<Content>)

  datatype Faults = Faults(
    exits: bool,
    replacing: Write,
    backup: Copy,
    backupFailed: Write,
    install: Copy,
    diagnosis: Diagnosis,
    installed: Write,
    rollback: Copy,
    rolledBack: Write,
    unlinked: bool)

  datatype Result = Updated | Failed

  // ----- Safety -----

  /** The old executable is in place, or a verified copy of it is. */
  predicate Recoverable(d: Disk, was: Content) {
    d.target == Some(was) || d.backup == Some(was)
  }

  /** Every copy that replaces the executable puts the content of its source there, and the diagnostics leave it
      alone. */
  predicate Faithful(f: Faults, was: Content, next: Content) {
    && (f.install.Replaced? ==> f.install.content == next)
    && (f.rollback.Replaced? ==> f.rollback.content == was)
    && f.diagnosis.leaves == Some(next)
  }

  predicate Ready(d: Disk, f: Faults, was: Content, next: Content) {
    d.status == Pending && f.exits && d.target == Some(was) && d.staged == Some(next)
  }

  predicate KeepsBackup(f: Faults, was: Content) {
    f.replacing == Written && f.backup == Replaced(was, false)
  }

  /** The new executable arrives intact and its diagnostics find nothing wrong. */
  predicate Passes(f: Faults, next: Content) {
    && f.install == Replaced(next, false)
    && !f.diagnosis.raises && f.diagnosis.code == 0 && f.diagnosis.leaves == Some(next)
  }

  /** Everything up to the record of success goes well. */
  predicate Verifies(d: Disk, f: Faults, was: Content, next: Content) {
    Ready(d, f, was, next) && KeepsBackup(f, was) && Passes(f, next)
  }

  class Update {
    const was: Content
    const next: Content
    var disk: Disk
    /** Every state the disk went through, so every state that a crash may leave. */
    ghost var trace: seq<Disk>

    constructor (current: Content, staged: Content)
      ensures disk == Disk(Some(current), Some(staged), None, Pending)
      ensures was == current && next == staged && trace == [disk]
    {
      was, next := current, staged;
      disk := Disk(Some(current), Some(staged), None, Pending);
      trace := [Disk(Some(current), Some(staged), None, Pending)];
    }

    method Become(d: Disk)
      modifies this
      ensures disk == d && trace == old(trace) + [d]
    {
      disk := d;
      trace := trace + [d];
    }

    method WriteStatus(status: Status, w: Write) returns (raised: bool)
      modifies this
      ensures raised <==> w != Written
      ensures disk == if w == Unwritten then old(disk) else old(disk).(status := status)
      ensures trace == if w == Unwritten then old(trace) else old(trace) + [disk]
    {
      if w != Unwritten {
        Become(disk.(status := status));
      }
      raised := w != Written;
    }

    method CopyToBackup(c: Copy) returns (raised: bool)
      modifies this
      ensures raised <==> c.Unreplaced? || c.raises
      ensures disk == if c.Replaced? then old(disk).(backup := Some(c.content)) else old(disk)
      ensures trace == if c.Replaced? then old(trace) + [disk] else old(trace)
    {
      if c.Replaced? {
        Become(disk.(backup := Some(c.content)));
      }
      raised := c.Unreplaced? || c.raises;
    }

    method CopyToTarget(c: Copy) returns (raised: bool)
      modifies this
      ensures raised <==> c.Unreplaced? || c.raises
      ensures disk == if c.Replaced? then old(disk).(target := Some(c.content)) else old(disk)
      ensures trace == if c.Replaced? then old(trace) + [disk] else old(trace)
    {
      if c.Replaced? {
        Become(disk.(target := Some(c.content)));
      }
      raised := c.Unreplaced? || c.raises;
    }

    /** Record that the replacement begins, and keep a verified copy of the old executable. */
    method KeepBackup(f: Faults) returns (failed: bool)
      modifies this
      requires disk.target == Some(was) && disk.status == Pending
      ensures !failed <==> KeepsBackup(f, was)
      ensures !failed ==> disk == old(disk).(status := Replacing, backup := Some(was))
      ensures disk.target == Some(was)
      ensures old(trace) <= trace
      ensures forall k :: |old(trace)| <= k < |trace| ==>
        trace[k].target == Some(was) && trace[k].status !in {Installed, RolledBack}
    {
      failed := WriteStatus(Replacing, f.replacing);
      if failed {
        return;
      }
      var raised := CopyToBackup(f.backup);
      if raised || disk.backup != Some(was) {
        var _ := WriteStatus(BackupFailed, f.backupFailed);
        return true;
      }
    }

    /** Put the new executable in place, check it before and after its diagnostics, and record the success. */
    method Replace(f: Faults) returns (failed: bool)
      modifies this
      requires disk.status == Replacing && disk.target == Some(was) && disk.backup == Some(was)
      ensures !failed <==> Passes(f, next) && f.installed == Written
      ensures disk.backup == Some(was) && disk.staged == old(disk).staged
      ensures disk.status == Installed <==> Passes(f, next) && f.installed != Unwritten
      ensures disk.status == Installed || disk.status == Replacing
      ensures Passes(f, next) ==> disk.target == Some(next)
      ensures old(trace) <= trace && Extends(|old(trace)|)
      ensures forall k :: |old(trace)| <= k < |trace| ==> trace[k].backup == Some(was)
      ensures forall k :: |old(trace)| <= k < |trace| ==>
        trace[k].status == Replacing || (trace[k].status == Installed && trace[k].target == Some(next))
      ensures Faithful(f, was, next) ==>
        && (forall k :: |old(trace)| <= k < |trace| ==> trace[k].target in {Some(was), Some(next)})
        && disk.target in {Some(was), Some(next)}
    {
      var raised := CopyToTarget(f.install);
      if raised || disk.target != Some(next) {
        return true;
      }
      if f.diagnosis.leaves != disk.target {
        Become(disk.(target := f.diagnosis.leaves));
      }
      if f.diagnosis.raises || f.diagnosis.code != 0 || disk.target != Some(next) {
        return true;
      }
      failed := WriteStatus(Installed, f.installed);
    }

    /** The trace from a position on ends in the present state, if it is not empty. */
    ghost predicate Extends(from: nat)
      reads this
    {
      from <= |trace| && (from < |trace| ==> trace[|trace| - 1] == disk)
    }

    /** Put the rollback copy back and record whether that worked; a failed attempt leaves the executable alone. */
    method RollBack(f: Faults)
      modifies this
      requires disk.backup == Some(was)
      ensures disk.backup == Some(was) && disk.staged == old(disk).staged
      ensures disk.target == if f.rollback.Replaced? then Some(f.rollback.content) else old(disk).target
      ensures var restored := f.rollback == Replaced(was, false);
        disk.status == if f.rolledBack == Unwritten then old(disk).status
                       else if restored then RolledBack else RecoveryRequired
      ensures old(trace) <= trace
      ensures forall k :: |old(trace)| <= k < |trace| ==>
        && trace[k].backup == Some(was) && trace[k].target == disk.target
        && trace[k].status in {old(disk).status, disk.status}
      ensures f.rollback.Replaced? ==>
        |old(trace)| < |trace| && trace[|old(trace)|] == old(disk).(target := Some(f.rollback.content))
    {
      var raised := CopyToTarget(f.rollback);
      var restored := !raised && disk.target == Some(was);
      var _ := WriteStatus(if restored then RolledBack else RecoveryRequired, f.rolledBack);
    }

    /** `apply_install_plan`. */
    method Apply(f: Faults) returns (result: Result)
      modifies this
      requires trace == [disk]
      ensures old(trace) <= trace
      // it succeeds exactly when every check passes and the success is on record
      ensures result == Updated <==> Verifies(old(disk), f, was, next) && f.installed == Written
      ensures result == Updated ==>
        disk == Disk(Some(next), if f.unlinked then None else Some(next), Some(was), Installed)
      // a plan that is not ready is refused without a trace
      ensures !Ready(old(disk), f, was, next) ==> result == Failed && disk == old(disk) && trace == old(trace)
      // the old executable is in place or backed up, whenever a crash occurs
      ensures Ready(old(disk), f, was, next) ==> forall k :: 0 <= k < |trace| ==> Recoverable(trace[k], was)
      // with faithful copies the executable is always the old or the new one
      ensures Ready(old(disk), f, was, next) && Faithful(f, was, next) ==>
        forall k :: 0 <= k < |trace| ==> trace[k].target in {Some(was), Some(next)}
      // a failure whose rollback copy works leaves the old executable, and says so
      ensures Ready(old(disk), f, was, next) && result == Failed && f.rollback == Replaced(was, false) ==>
        disk.target == Some(was) && (KeepsBackup(f, was) && f.rolledBack == Written ==> disk.status == RolledBack)
      // a recorded rollback is true, and a recorded success is unless the record was written by a write that raised
      ensures Ready(old(disk), f, was, next) ==>
        forall k :: 0 <= k < |trace| && trace[k].status == RolledBack ==> trace[k].target == Some(was)
      ensures Ready(old(disk), f, was, next) && f.installed != WrittenThenRaised ==>
        forall k :: 0 <= k < |trace| && trace[k].status == Installed ==> trace[k].target == Some(next)
      // and in that case it becomes false exactly when the rollback then replaces the new executable by another
      ensures Verifies(old(disk), f, was, next) && f.installed == WrittenThenRaised ==>
        ((exists k :: 0 <= k < |trace| && trace[k].status == Installed && trace[k].target != Some(next))
         <==> f.rollback.Replaced? && f.rollback.content != next)
    {
      if disk.status != Pending || !f.exits || disk.target != Some(was) || disk.staged != Some(next) {
        return Failed;
      }
      var failed := KeepBackup(f);
      if failed {
        return Failed;
      }
      failed := Replace(f);
      if failed {
        RollBack(f);
        return Failed;
      }
      if f.unlinked {
        Become(disk.(staged := None));
      }
      return Updated;
    }
  }

  /** The record of a success can be false: the write of it may raise after the rename, and the rollback that
      this triggers then puts the old executable back under a plan that says `installed`. */
  method InstalledCanBeFalse(was: Content, next: Content) returns (u: Update, ghost k: nat)
    requires was != next
    ensures fresh(u) && u.was == was && u.next == next
    ensures k < |u.trace| && u.trace[k].status == Installed && u.trace[k].target == Some(was)
  {
    u := new Update(was, next);
    var f := Faults(true, Written, Replaced(was, false), Written, Replaced(next, false),
                    Diagnosis(false, 0, Some(next)), WrittenThenRaised, Replaced(was, false), Written, true);
    var _ := u.Apply(f);
    k :| 0 <= k < |u.trace| && u.trace[k].status == Installed && u.trace[k].target != Some(next);
  }

  // ----- After a power loss -----

  type Path = nat

  /** A plan file: its status, the executable it is for, and the contents it recorded. */
  datatype Plan = Plan(status: Status, target: Path, was: Content, next: Content)

  predicate Interrupted(p: Plan, executable: Path) {
    p.target == executable && p.status in {Replacing, RecoveryRequired, BackupFailed}
  }

  /** The executable is neither of the two that an interrupted plan knows. */
  predicate Ambiguous(p: Plan, executable: Path, content: Content) {
    Interrupted(p, executable) && content != p.next && content != p.was
  }

  /** What `reconcile_install_plans` makes of one plan. */
  function Settle(p: Plan, executable: Path, content: Content): Plan {
    if !Interrupted(p, executable) then p
    else if content == p.next then p.(status := Installed)
    else if content == p.was then p.(status := RolledBack)
    else p
  }

  /** A settled plan tells the truth about the executable, is no longer interrupted, and settling it again,
      in whatever state an earlier attempt left it, makes no difference. */
  lemma SettlingIsTruthfulAndFinal(p: Plan, executable: Path, content: Content)
    requires Interrupted(p, executable) && !Ambiguous(p, executable, content)
    ensures var q := Settle(p, executable, content);
      && (q.status == Installed <==> content == p.next)
      && (q.status == RolledBack <==> content == p.was && content != p.next)
      && !Interrupted(q, executable)
      && Settle(q, executable, content) == q
      && q == p.(status := q.status)
  {}

  const MAX_PLANS: nat := 100

  predicate WithinReach(k: int, count: int) {
    0 <= k < count && k < MAX_PLANS
  }

  /** How many of the first n plans are interrupted ones of an executable. */
  function CountInterrupted(plans: seq<Plan>, n: nat, executable: Path): nat
    requires n <= |plans|
  {
    if n == 0 then 0
    else CountInterrupted(plans, n - 1, executable) + if Interrupted(plans[n - 1], executable) then 1 else 0
  }

  lemma {:induction false} NoneInterrupted(plans: seq<Plan>, n: nat, executable: Path)
    requires n <= |plans| && forall k :: 0 <= k < n ==> !Interrupted(plans[k], executable)
    ensures CountInterrupted(plans, n, executable) == 0
  {
    if n > 0 {
      NoneInterrupted(plans, n - 1, executable);
    }
  }

  /** Settle the first hundred plan files in place; stop at one that is ambiguous. */
  method Reconcile(plans: array<Plan>, executable: Path, content: Content) returns (resolved: nat, stuck: Option<nat>)
    modifies plans
    ensures stuck.None? ==>
      && (forall k :: 0 <= k < plans.Length && k < 100 ==>
            !Ambiguous(old(plans[k]), executable, content) && plans[k] == Settle(old(plans[k]), executable, content))
      && (forall k :: 100 <= k < plans.Length ==> plans[k] == old(plans[k]))
      && resolved == CountInterrupted(old(plans[..]), Min(plans.Length, 100), executable)
    ensures stuck.Some? ==>
      && stuck.value < plans.Length && stuck.value < 100 && Ambiguous(old(plans[stuck.value]), executable, content)
      && (forall k :: 0 <= k < stuck.value ==> plans[k] == Settle(old(plans[k]), executable, content))
      && (forall k :: stuck.value <= k < plans.Length ==> plans[k] == old(plans[k]))
  {
    resolved := 0;
    var k := 0;
    while k < plans.Length && k < MAX_PLANS
      invariant 0 <= k <= plans.Length && k <= MAX_PLANS
      invariant forall j :: 0 <= j < k ==>
        !Ambiguous(old(plans[j]), executable, content) && plans[j] == Settle(old(plans[j]), executable, content)
      invariant forall j :: k <= j < plans.Length ==> plans[j] == old(plans[j])
      invariant resolved == CountInterrupted(old(plans[..]), k, executable)
    {
      var p := plans[k];
      if Interrupted(p, executable) {
        if content == p.next {
          plans[k] := p.(status := Installed);
        } else if content == p.was {
          plans[k] := p.(status := RolledBack);
        } else {
          return resolved, Some(k);
        }
        resolved := resolved + 1;
      }
      k := k + 1;
    }
    stuck := None;
  }

  /** Reconciling a second time finds nothing to do. */
  method ReconcileTwice(plans: array<Plan>, executable: Path, content: Content) returns (again: nat)
    requires forall k :: WithinReach(k, plans.Length) ==> !Ambiguous(plans[k], executable, content)
    modifies plans
    ensures again == 0
    ensures forall k :: 0 <= k < plans.Length && k < MAX_PLANS ==>
      plans[k] == Settle(old(plans[k]), executable, content)
  {
    var first, stuck := Reconcile(plans, executable, content);
    ghost var settled := plans[..];
    forall k | WithinReach(k, plans.Length)
      ensures !Interrupted(settled[k], executable)
    {
      if Interrupted(old(plans[..])[k], executable) {
        SettlingIsTruthfulAndFinal(old(plans[..])[k], executable, content);
      }
    }
    NoneInterrupted(settled, Min(plans.Length, MAX_PLANS), executable);
    var stuck';
    again, stuck' := Reconcile(plans, executable, content);
  }

  /** What a process finds after a crash can be settled, and then, as before, the plan tells the truth. */
  predicate Settles(d: Disk, executable: Path, was: Content, next: Content) {
    && d.target.Some?
    && var p := Plan(d.status, executable, was, next);
      && !Ambiguous(p, executable, d.target.value)
      && (Settle(p, executable, d.target.value).status == Installed ==> d.target == Some(next))
      && (Settle(p, executable, d.target.value).status == RolledBack ==> d.target == Some(was))
      && Settle(p, executable, d.target.value).status in {Pending, Installed, RolledBack}
  }

  lemma OldOrNewSettles(d: Disk, executable: Path, was: Content, next: Content)
    requires d.target in {Some(was), Some(next)}
    requires d.status == Installed ==> d.target == Some(next)
    requires d.status == RolledBack ==> d.target == Some(was)
    ensures Settles(d, executable, was, next)
  {
    if Interrupted(Plan(d.status, executable, was, next), executable) {
      SettlingIsTruthfulAndFinal(Plan(d.status, executable, was, next), executable, d.target.value);
    }
  }

  /** An update with faithful copies may crash at any moment: every state it goes through can be settled, and the
      settled plan is true, unless the record of success, written by a write that raised, outlasted the rollback. */
  method CrashedUpdateCanBeSettled(was: Content, next: Content, f: Faults, executable: Path) returns (u: Update)
    requires Faithful(f, was, next)
    ensures fresh(u) && u.was == was && u.next == next
    ensures forall k :: 0 <= k < |u.trace| ==>
      || Settles(u.trace[k], executable, was, next)
      || (f.installed == WrittenThenRaised && u.trace[k].status == Installed && u.trace[k].target == Some(was))
  {
    u := new Update(was, next);
    ghost var first := u.disk;
    var _ := u.Apply(f);
    forall k | 0 <= k < |u.trace|
      ensures Settles(u.trace[k], executable, was, next)
           || (f.installed == WrittenThenRaised && u.trace[k].status == Installed && u.trace[k].target == Some(was))
    {
      if !Ready(first, f, was, next) {
        assert u.trace[k] == first;
      }
      if u.trace[k].status == Installed ==> u.trace[k].target == Some(next) {
        OldOrNewSettles(u.trace[k], executable, was, next);
      }
    }
  }
}
