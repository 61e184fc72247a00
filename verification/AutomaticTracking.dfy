/** The part of the desktop agent that lets a tracking policy start and stop the timer. The worker thread's tick and
    policy refresh, and the refresh with which the desktop window opens, are sequences of separate lock-protected
    actions. Those of the two threads interleave, and the employee (the window, the tray and the browser page) may act
    between any two of them. */
module AutomaticTracking {
  import opened Records
  import opened TrackingWindows

  datatype Origin = Employee | Automatic

  /** Where the worker thread is between two lock-protected actions. */
  datatype Phase =
    | Idle
    | Offered(window: Window, handledThen: Option<Key>, suppressedThen: Option<Key>, waits: bool)
    | Noting(window: Window)
    | Choosing(window: Window)
    | Starting(window: Window)
    | Marking(window: Window)
    | Condemned(expired: bool)
    | Stopping(expired: bool)
    | Clearing
    | Dropping
    | Dead

  /** Where the window's own thread is: opening the window refreshes the policy once in the life of a process. */
  datatype Opening = Unopened | Judging | Ending | Unmarking | Opened

  /** The agent's fields, with two that only the proofs look at: who started the running timer, and when the last
      tick looked at the clock. */
  datatype State = State(
    timer: Status,
    project: Option<ProjectId>,
    policy: Option<Policy>,
    handled: Option<Key>,
    started: bool,
    suppressed: Option<Key>,
    saved: Option<Key>,
    phase: Phase,
    opening: Opening,
    origin: Origin,
    clock: int)

  datatype Step =
    | Look(moment: int, seen: Option<Window>)
    | Advance(recentInput: bool, saves: bool)
    | Refresh(fetched: Option<Policy>, saves: bool)
    | Open(fetched: Option<Policy>, saves: bool)
    | Proceed
    | Restart(fetched: Option<Policy>)
    | Select(project: Option<ProjectId>)
    | Start
    | Stop(saves: bool)
    | Pause
    | Resume
    | Consent(id: PolicyId, accepted: bool)

  function PolicyIdOf(policy: Option<Policy>): Option<PolicyId> {
    if policy.Some? then Some(policy.value.id) else None
  }

  // ----- What each action does -----

  function DoStart(s: State, who: Origin): State {
    if s.timer == Stopped && s.project.Some? then s.(timer := Active, origin := who) else s
  }

  /** The employee's stop also remembers the window it was in; saving that may fail. A clearing that is saved before
      a concurrent stop leaves what a clearing whose save failed leaves. */
  function DoStop(s: State, saves: bool): State {
    if s.timer == Stopped then s
    else
      var key := s.handled;
      s.(timer := Stopped,
         started := false,
         suppressed := if key.Some? then key else s.suppressed,
         saved := if key.Some? && saves then key else s.saved)
  }

  function PolicyChanged(s: State, fetched: Option<Policy>): bool {
    s.policy.Some? && PolicyIdOf(s.policy) != PolicyIdOf(fetched)
  }

  /** What both refreshes do under the lock. */
  function Replace(s: State, fetched: Option<Policy>, saves: bool): State {
    if PolicyChanged(s, fetched)
    then s.(policy := fetched, handled := None, suppressed := None, saved := if saves then None else s.saved)
    else s.(policy := fetched)
  }

  function DoRefresh(s: State, fetched: Option<Policy>, saves: bool): State {
    Replace(s, fetched, saves).(phase := if PolicyChanged(s, fetched) && s.started then Condemned(false) else Idle)
  }

  function DoOpen(s: State, fetched: Option<Policy>, saves: bool): State {
    Replace(s, fetched, saves).(opening := if PolicyChanged(s, fetched) && s.started then Judging else Opened)
  }

  function DoConsent(s: State, id: PolicyId, accepted: bool): State {
    if PolicyIdOf(s.policy) == Some(id) then
      s.(policy := Some(s.policy.value.(consent := if accepted then Accepted else Declined)),
         handled := None,
         started := false)
    else s
  }

  function DoLook(s: State, moment: int, seen: Option<Window>): State {
    s.(clock := moment,
       phase :=
         match seen
         case None => if s.started then Condemned(true) else Clearing
         case Some(w) => Offered(w, s.handled, s.suppressed, s.policy.Some? && s.policy.value.waits))
  }

  /** The next lock-protected action of the tick or refresh that is under way. */
  function DoAdvance(s: State, recentInput: bool, saves: bool): State {
    match s.phase
    case Idle => s
    case Dead => s
    case Offered(w, handledThen, suppressedThen, waits) =>
      s.(phase :=
        if suppressedThen == Some(w.key) || handledThen == Some(w.key) then Idle
        else if s.timer != Stopped then Noting(w)
        else if waits && !recentInput then Idle
        else Choosing(w))
    case Noting(w) => s.(handled := Some(w.key), phase := Idle)
    case Choosing(w) => s.(project := w.project, phase := Starting(w))
    case Starting(w) =>
      // Without a project the start raises, which ends the worker thread.
      if s.timer == Stopped && s.project.None? then s.(phase := Dead)
      else DoStart(s, Automatic).(phase := Marking(w))
    case Marking(w) => s.(handled := Some(w.key), started := true, phase := Idle)
    case Condemned(expired) =>
      s.(phase := if s.timer != Stopped then Stopping(expired) else if expired then Clearing else Idle)
    case Stopping(expired) => s.(timer := Stopped, phase := if expired then Clearing else Dropping)
    case Clearing =>
      s.(handled := None, started := false, suppressed := None, phase := Idle,
         saved := if s.suppressed.Some? && saves then None else s.saved)
    case Dropping => s.(started := false, phase := Idle)
  }

  /** The next lock-protected action of the refresh on the window's thread. */
  function DoProceed(s: State): State {
    match s.opening
    case Judging => s.(opening := if s.timer != Stopped then Ending else Opened)
    case Ending => s.(timer := Stopped, opening := Unmarking)
    case Unmarking => s.(started := false, opening := Opened)
    case _ => s
  }

  /** A new process: the policy is whatever the server hands out first, if it is reached at all. */
  function DoRestart(s: State, fetched: Option<Policy>): State {
    State(Stopped, None, fetched, None, false, s.saved, s.saved, Idle, Unopened, Employee, s.clock)
  }

  function Apply(s: State, step: Step): State {
    match step
    case Look(moment, seen) => DoLook(s, moment, seen)
    case Advance(recentInput, saves) => DoAdvance(s, recentInput, saves)
    case Refresh(fetched, saves) => DoRefresh(s, fetched, saves)
    case Open(fetched, saves) => DoOpen(s, fetched, saves)
    case Proceed => DoProceed(s)
    case Restart(fetched) => DoRestart(s, fetched)
    case Select(project) => s.(project := project)
    case Start => DoStart(s, Employee)
    case Stop(saves) => DoStop(s, saves)
    case Pause => if s.timer == Active then s.(timer := Paused) else s
    case Resume => if s.timer == Paused then s.(timer := Active) else s
    case Consent(id, accepted) => DoConsent(s, id, accepted)
  }

  /** The worker looks, advances and refreshes one thing at a time, beside the thread that opens the window; questions
      of consent are answered in the window. */
  ghost predicate Enabled(s: State, step: Step) {
    match step
    case Look(moment, seen) => s.phase == Idle && IsActiveWindow(s.policy, moment, seen)
    case Refresh(_, _) => s.phase == Idle
    case Advance(_, _) => s.phase != Idle && s.phase != Dead
    case Open(_, _) => s.opening == Unopened
    case Proceed => s.opening != Unopened && s.opening != Opened
    case Consent(_, _) => s.opening == Opened
    case _ => true
  }

  // ----- The same, field by field -----

  predicate Starts(s: State, step: Step) {
    (step.Start? || (step.Advance? && s.phase.Starting?)) && s.timer == Stopped && s.project != None
  }

  predicate Ends(s: State, step: Step) {
    step.Stop? || step.Restart? || (step.Advance? && s.phase.Stopping?) || (step.Proceed? && s.opening.Ending?)
  }

  /** Another policy, or none, takes the place of the present one. */
  predicate Supersedes(s: State, step: Step) {
    && (step.Refresh? || step.Open?) && s.policy.Some?
    && (step.fetched.None? || step.fetched.value.id != s.policy.value.id)
  }

  /** The employee answers about the present policy. */
  predicate Answers(s: State, step: Step) {
    step.Consent? && s.policy.Some? && step.id == s.policy.value.id
  }

  /** The employee stops a running timer in a window that the policy has dealt with. */
  predicate Notes(s: State, step: Step) {
    step.Stop? && s.timer != Stopped && s.handled.Some?
  }

  predicate Clears(s: State, step: Step) { step.Advance? && s.phase.Clearing? }

  lemma TimerChanges(s: State, step: Step)
    ensures Apply(s, step).timer ==
      if Starts(s, step) then Active
      else if Ends(s, step) then Stopped
      else if step.Pause? && s.timer == Active then Paused
      else if step.Resume? && s.timer == Paused then Active
      else s.timer
    ensures Apply(s, step).origin ==
      if Starts(s, step) then (if step.Start? then Employee else Automatic)
      else if step.Restart? then Employee else s.origin
    ensures Apply(s, step).project ==
      if step.Select? then step.project
      else if step.Advance? && s.phase.Choosing? then s.phase.window.project
      else if step.Restart? then None else s.project
    ensures Apply(s, step).clock == if step.Look? then step.moment else s.clock
  {}

  lemma PolicyChanges(s: State, step: Step)
    ensures step.Refresh? || step.Open? || step.Restart? ==> Apply(s, step).policy == step.fetched
    ensures Answers(s, step) ==>
      Apply(s, step).policy == Some(s.policy.value.(consent := if step.accepted then Accepted else Declined))
    ensures !step.Refresh? && !step.Open? && !step.Restart? && !Answers(s, step) ==> Apply(s, step).policy == s.policy
  {}

  /** The mark on a timer that the policy started, and the window it has dealt with. */
  lemma MarkChanges(s: State, step: Step)
    ensures Apply(s, step).started ==
      if step.Advance? && s.phase.Marking? then true
      else
        && s.started
        && !(step.Stop? && s.timer != Stopped) && !Answers(s, step) && !step.Restart? && !Clears(s, step)
        && !(step.Advance? && s.phase.Dropping?) && !(step.Proceed? && s.opening.Unmarking?)
    ensures Apply(s, step).handled ==
      if step.Advance? && (s.phase.Marking? || s.phase.Noting?) then Some(s.phase.window.key)
      else if Supersedes(s, step) || Answers(s, step) || step.Restart? || Clears(s, step) then None
      else s.handled
  {}

  /** The window the employee stopped in, and what is saved of it. */
  lemma NoteChanges(s: State, step: Step)
    ensures Apply(s, step).suppressed ==
      if Notes(s, step) then s.handled
      else if Supersedes(s, step) || Clears(s, step) then None
      else if step.Restart? then s.saved
      else s.suppressed
    ensures Apply(s, step).saved ==
      if Notes(s, step) && step.saves then s.handled
      else if Supersedes(s, step) && step.saves then None
      else if Clears(s, step) && step.saves && s.suppressed != None then None
      else s.saved
  {}

  /** Where the worker goes after an action. */
  function PhaseAfter(s: State, recentInput: bool): Phase {
    match s.phase
    case Offered(w, handledThen, suppressedThen, waits) =>
      if w.key in KeysOf(handledThen) + KeysOf(suppressedThen) then Idle
      else if s.timer in {Active, Paused} then Noting(w)
      else if recentInput || !waits then Choosing(w) else Idle
    case Choosing(w) => Starting(w)
    case Starting(w) => if s.timer == Stopped && s.project == None then Dead else Marking(w)
    case Condemned(expired) =>
      if s.timer in {Active, Paused} then Stopping(expired) else if expired then Clearing else Idle
    case Stopping(expired) => if expired then Clearing else Dropping
    case _ => Idle
  }

  /** Where the two threads go. */
  lemma ThreadsMove(s: State, step: Step)
    requires Enabled(s, step)
    ensures step.Look? && step.seen.Some? ==>
      Apply(s, step).phase == Offered(step.seen.value, s.handled, s.suppressed, s.policy.Some? && s.policy.value.waits)
    ensures step.Look? && step.seen.None? ==> Apply(s, step).phase == if s.started then Condemned(true) else Clearing
    ensures step.Refresh? ==>
      Apply(s, step).phase == if Supersedes(s, step) && s.started then Condemned(false) else Idle
    ensures step.Restart? ==> Apply(s, step).phase == Idle && Apply(s, step).opening == Unopened
    ensures step.Open? ==> Apply(s, step).opening == if Supersedes(s, step) && s.started then Judging else Opened
    ensures step.Proceed? ==>
      Apply(s, step).opening ==
        if s.opening.Judging? && s.timer != Stopped then Ending else if s.opening.Ending? then Unmarking else Opened
    ensures step.Advance? ==> Apply(s, step).phase == PhaseAfter(s, step.recentInput)
    ensures !step.Look? && !step.Refresh? && !step.Restart? && !step.Advance? ==> Apply(s, step).phase == s.phase
    ensures !step.Open? && !step.Proceed? && !step.Restart? ==> Apply(s, step).opening == s.opening
  {}

  function KeysOf(key: Option<Key>): set<Key> { if key.Some? then {key.value} else {} }

  /** What the two threads do by themselves. */
  predicate ByPolicy(step: Step) {
    step.Look? || step.Advance? || step.Refresh? || step.Open? || step.Proceed?
  }

  function Fresh(saved: Option<Key>, policy: Option<Policy>, clock: int): State {
    State(Stopped, None, policy, None, false, saved, saved, Idle, Unopened, Employee, clock)
  }

  function After(s: State, steps: seq<Step>): State
    decreases |steps|
  {
    if steps == [] then s else After(Apply(s, steps[0]), steps[1..])
  }

  ghost predicate IsRun(s: State, steps: seq<Step>)
    decreases |steps|
  {
    steps == [] || (Enabled(s, steps[0]) && IsRun(Apply(s, steps[0]), steps[1..]))
  }

  // ----- Events -----

  /** The policy stops a timer that was started by a given party. */
  predicate Takes(s: State, step: Step, who: Origin) {
    && s.timer != Stopped && s.origin == who
    && ((step.Advance? && s.phase.Stopping?) || (step.Proceed? && s.opening == Ending))
  }

  /** The policy starts the timer for a window. */
  predicate AutomaticStart(s: State, step: Step, key: Key) {
    step.Advance? && s.phase.Starting? && s.phase.window.key == key && s.timer == Stopped && s.project.Some?
  }

  ghost predicate SomeTaking(s: State, steps: seq<Step>, who: Origin)
    decreases |steps|
  {
    steps != [] && (Takes(s, steps[0], who) || SomeTaking(Apply(s, steps[0]), steps[1..], who))
  }

  ghost predicate SomeAutomaticStart(s: State, steps: seq<Step>, key: Key)
    decreases |steps|
  {
    steps != [] && (AutomaticStart(s, steps[0], key) || SomeAutomaticStart(Apply(s, steps[0]), steps[1..], key))
  }

  ghost predicate AllByPolicy(steps: seq<Step>) {
    forall i :: 0 <= i < |steps| ==> ByPolicy(steps[i])
  }

  // ----- When the policy stops a running timer -----

  /** A thread is about to stop whatever timer runs, or to put the policy's mark on it, or the mark is there and a
      refresh or tick will find it before it is taken off. */
  predicate Doomed(s: State) {
    || s.phase.Condemned? || s.phase.Stopping? || s.opening == Judging || s.opening == Ending
    || s.phase.Choosing? || s.phase.Starting? || s.phase.Marking?
    || (s.started && (s.phase == Idle || s.phase.Offered? || s.phase.Noting?))
    || (s.started && s.opening == Unopened && s.policy.Some?)
  }

  lemma StepKeepsRunning(s: State, step: Step)
    requires s.timer != Stopped && !Doomed(s) && Enabled(s, step) && !step.Stop? && !step.Restart?
    ensures var t := Apply(s, step); t.timer != Stopped && !Doomed(t) && t.origin == s.origin
  {}

  /** A running timer that is not doomed is stopped by nobody but the employee, a rejection by the server (which stops
      as the employee does) or the end of the process, whatever windows open and close. */
  lemma {:induction false} UnmarkedTimerRunsOn(s: State, steps: seq<Step>)
    requires s.timer != Stopped && !Doomed(s) && IsRun(s, steps)
    requires forall i :: 0 <= i < |steps| ==> !steps[i].Stop? && !steps[i].Restart?
    ensures After(s, steps).timer != Stopped && !Doomed(After(s, steps)) && After(s, steps).origin == s.origin
    decreases |steps|
  {
    if steps != [] {
      StepKeepsRunning(s, steps[0]);
      UnmarkedTimerRunsOn(Apply(s, steps[0]), steps[1..]);
    }
  }

  lemma TakingNow(s: State, a: Step)
    requires Enabled(s, a) && ByPolicy(a) && Takes(s, a, s.origin)
    ensures IsRun(s, [a]) && AllByPolicy([a]) && SomeTaking(s, [a], s.origin)
  {}

  lemma TakingLater(s: State, a: Step, rest: seq<Step>)
    requires Enabled(s, a) && ByPolicy(a) && Apply(s, a).origin == s.origin
    requires IsRun(Apply(s, a), rest) && AllByPolicy(rest) && SomeTaking(Apply(s, a), rest, s.origin)
    ensures IsRun(s, [a] + rest) && AllByPolicy([a] + rest) && SomeTaking(s, [a] + rest, s.origin)
  {
    assert ([a] + rest)[1..] == rest;
  }

  /** How far the policy is from stopping the timer. */
  function Reach(s: State): nat {
    match s.phase
    case Stopping(_) => 0
    case Condemned(_) => 1
    case Idle => 2
    case Noting(_) => 3
    case Marking(_) => 3
    case Offered(_, _, _, _) => 4
    case Starting(_) => 4
    case Choosing(_) => 5
    case _ => 6
  }

  /** What the policy does next to a doomed timer. */
  function Pursuit(s: State): Step {
    if s.opening == Judging || s.opening == Ending then Proceed
    else if s.phase == Idle then (if s.policy.Some? then Refresh(None, true) else Look(s.clock, None))
    else if Reach(s) == 6 then Open(None, true)
    else Advance(true, true)
  }

  function Remaining(s: State): nat {
    if s.opening == Ending then 0 else if s.opening == Judging then 1 else 2 + Reach(s)
  }

  lemma PursuitGoesOn(s: State)
    requires s.timer != Stopped && Doomed(s)
    ensures Enabled(s, Pursuit(s)) && ByPolicy(Pursuit(s))
    ensures Takes(s, Pursuit(s), s.origin) || (var t := Apply(s, Pursuit(s));
      t.timer != Stopped && t.origin == s.origin && Doomed(t) && Remaining(t) < Remaining(s))
  {}

  /** Every doomed timer can be stopped by the policy alone. */
  lemma {:induction false} DoomIsReal(s: State) returns (rest: seq<Step>)
    requires s.timer != Stopped && Doomed(s)
    ensures IsRun(s, rest) && AllByPolicy(rest) && SomeTaking(s, rest, s.origin)
    decreases Remaining(s)
  {
    PursuitGoesOn(s);
    var a := Pursuit(s);
    if Takes(s, a, s.origin) {
      TakingNow(s, a);
      rest := [a];
    } else {
      var more := DoomIsReal(Apply(s, a));
      TakingLater(s, a, more);
      rest := [a] + more;
    }
  }

  // ----- The policy stops only what it started -----

  /** The employee starts the timer between two actions of a thread that will stop or mark it, or under a mark that was
      left on. */
  predicate Harmful(s: State, step: Step) {
    step.Start? && s.timer == Stopped && s.project.Some? && Doomed(s)
  }

  ghost predicate NothingHarmful(s: State, steps: seq<Step>)
    decreases |steps|
  {
    steps == [] || (!Harmful(s, steps[0]) && NothingHarmful(Apply(s, steps[0]), steps[1..]))
  }

  /** No timer of the employee's is doomed. */
  predicate Spared(s: State) {
    s.timer != Stopped && s.origin == Employee ==> !Doomed(s)
  }

  lemma StepKeepsSpared(s: State, step: Step)
    requires Spared(s) && Enabled(s, step) && !Harmful(s, step)
    ensures Spared(Apply(s, step)) && !Takes(s, step, Employee)
  {
    if s.timer != Stopped && !Doomed(s) && !step.Stop? && !step.Restart? {
      StepKeepsRunning(s, step);
    }
  }

  /** However the actions of the two threads and of the employee interleave, the policy never stops a timer the employee
      started unless the employee started it at a harmful moment. */
  lemma {:induction false} PolicyStopsOnlyItsOwn(s: State, steps: seq<Step>)
    requires Spared(s) && IsRun(s, steps) && NothingHarmful(s, steps)
    ensures !SomeTaking(s, steps, Employee) && Spared(After(s, steps))
    decreases |steps|
  {
    if steps != [] {
      StepKeepsSpared(s, steps[0]);
      PolicyStopsOnlyItsOwn(Apply(s, steps[0]), steps[1..]);
    }
  }

  /** The condition cannot be relaxed: after any harmful start the two threads, with no further action of the employee,
      can go on to stop the employee's timer. */
  lemma HarmIsReal(s: State, step: Step) returns (rest: seq<Step>)
    requires Enabled(s, step) && Harmful(s, step)
    ensures IsRun(Apply(s, step), rest) && AllByPolicy(rest) && SomeTaking(Apply(s, step), rest, Employee)
  {
    rest := DoomIsReal(Apply(s, step));
  }

  /** A timer that the policy did start outlives its window once the employee answers the consent question again. */
  lemma ReansweringOutlivesTheWindow(s: State, id: PolicyId, accepted: bool, steps: seq<Step>)
    requires s.phase == Idle && s.opening == Opened && PolicyIdOf(s.policy) == Some(id)
    requires s.timer != Stopped && s.started && s.origin == Automatic
    requires IsRun(Apply(s, Consent(id, accepted)), steps)
    requires forall i :: 0 <= i < |steps| ==> !steps[i].Stop? && !steps[i].Restart?
    ensures var end := After(Apply(s, Consent(id, accepted)), steps); end.timer != Stopped && end.origin == Automatic
  {
    UnmarkedTimerRunsOn(Apply(s, Consent(id, accepted)), steps);
  }

  // ----- An employee's stop holds for the window -----

  /** The worker's notes about the window it is considering never run ahead of what it has handled. */
  predicate Aligned(s: State) {
    match s.phase
    case Offered(_, handledThen, _, _) => s.handled == handledThen || s.handled == None
    case Choosing(w) => s.handled != Some(w.key)
    case Starting(w) => s.handled != Some(w.key)
    case Marking(w) => s.handled != Some(w.key)
    case _ => true
  }

  lemma StepKeepsAligned(s: State, step: Step)
    requires Aligned(s) && Enabled(s, step)
    ensures Aligned(Apply(s, step))
  {}

  /** Nothing that is under way can start the timer for the window, and the next tick will not. A worker that has died
      does nothing until a restart. */
  predicate Guarded(s: State, key: Key) {
    || s.phase == Dead
    || (s.suppressed == Some(key)
        && match s.phase
           case Offered(w, handledThen, suppressedThen, _) =>
             w.key == key ==> suppressedThen == Some(key) || handledThen == Some(key)
           case Choosing(w) => w.key != key
           case Starting(w) => w.key != key
           case _ => true)
  }

  /** The ways in which a suppression ends. */
  predicate Releases(s: State, step: Step, key: Key) {
    match step
    case Advance(_, _) => s.phase == Clearing
    case Refresh(fetched, _) => PolicyChanged(s, fetched)
    case Open(fetched, _) => PolicyChanged(s, fetched) && s.phase != Dead
    case Stop(_) => s.timer != Stopped && s.handled.Some? && s.handled != Some(key) && s.phase != Dead
    case Restart(_) => s.saved != Some(key)
    case _ => false
  }

  ghost predicate NeverReleased(s: State, steps: seq<Step>, key: Key)
    decreases |steps|
  {
    steps == [] || (!Releases(s, steps[0], key) && NeverReleased(Apply(s, steps[0]), steps[1..], key))
  }

  lemma StepKeepsGuard(s: State, step: Step, key: Key)
    requires Guarded(s, key) && Enabled(s, step) && !Releases(s, step, key)
    ensures Guarded(Apply(s, step), key) && !AutomaticStart(s, step, key)
  {}

  lemma {:induction false} GuardHolds(s: State, steps: seq<Step>, key: Key)
    requires Guarded(s, key) && IsRun(s, steps) && NeverReleased(s, steps, key)
    ensures !SomeAutomaticStart(s, steps, key) && Guarded(After(s, steps), key)
    decreases |steps|
  {
    if steps != [] {
      StepKeepsGuard(s, steps[0], key);
      GuardHolds(Apply(s, steps[0]), steps[1..], key);
    }
  }

  lemma StopRaisesTheGuard(s: State, saves: bool, key: Key)
    requires Aligned(s) && s.timer != Stopped && s.handled == Some(key)
    ensures Guarded(Apply(s, Stop(saves)), key) && Apply(s, Stop(saves)).suppressed == Some(key)
  {}

  /** After the employee stops the timer in a window the policy has dealt with, the policy does not start it again
      for that window until a tick has seen no window, the policy has been replaced, the employee has stopped in
      another window, or a restart has lost the note. */
  lemma StopHoldsForTheWindow(s: State, saves: bool, key: Key, steps: seq<Step>)
    requires Aligned(s) && s.timer != Stopped && s.handled == Some(key)
    requires IsRun(Apply(s, Stop(saves)), steps) && NeverReleased(Apply(s, Stop(saves)), steps, key)
    ensures !SomeAutomaticStart(Apply(s, Stop(saves)), steps, key)
  {
    StopRaisesTheGuard(s, saves, key);
    GuardHolds(Apply(s, Stop(saves)), steps, key);
  }

  // ----- Each release is one -----

  /** Steps that do nothing of their own towards a release: no restart, no look that finds another window or none, and
      no policy but the one in question. */
  predicate Plain(step: Step, p: Policy, w: Window) {
    && !step.Restart?
    && (step.Look? ==> step.seen == Some(w))
    && (step.Refresh? || step.Open? ==> step.fetched == Some(p))
  }

  ghost predicate AllPlain(steps: seq<Step>, p: Policy, w: Window) {
    forall i :: 0 <= i < |steps| ==> Plain(steps[i], p, w)
  }

  /** Plain steps that lead to an automatic start for the window. */
  ghost predicate LeadsToStart(s: State, steps: seq<Step>, p: Policy, w: Window) {
    IsRun(s, steps) && AllPlain(steps, p, w) && SomeAutomaticStart(s, steps, w.key)
  }

  lemma LeadsLater(s: State, a: Step, rest: seq<Step>, p: Policy, w: Window)
    requires Enabled(s, a) && Plain(a, p, w) && LeadsToStart(Apply(s, a), rest, p, w)
    ensures LeadsToStart(s, [a] + rest, p, w)
  {
    assert ([a] + rest)[1..] == rest;
  }

  /** While the note stands, the worker is between ticks and the policy is the same one, plain steps do not start the
      timer for the window. */
  predicate Settled(s: State, p: Policy, key: Key) {
    && s.suppressed == Some(key) && (s.handled == None || s.handled == Some(key))
    && PolicyIdOf(s.policy) == Some(p.id)
    && (s.phase == Idle || (s.phase.Offered? && s.phase.window.key == key && s.phase.suppressedThen == Some(key)))
  }

  lemma {:induction false} PlainStepsRespectTheStop(s: State, steps: seq<Step>, p: Policy, w: Window)
    requires Settled(s, p, w.key) && IsRun(s, steps) && AllPlain(steps, p, w)
    ensures !SomeAutomaticStart(s, steps, w.key)
    decreases |steps|
  {
    if steps != [] {
      assert Plain(steps[0], p, w);
      assert Settled(Apply(s, steps[0]), p, w.key);
      assert AllPlain(steps[1..], p, w);
      PlainStepsRespectTheStop(Apply(s, steps[0]), steps[1..], p, w);
    }
  }

  /** Not suppressed, with a worker that lives. */
  predicate Released(s: State, key: Key) {
    s.suppressed != Some(key) && s.phase != Dead
  }

  lemma ReadyToStart(s: State, p: Policy, m: int, w: Window) returns (rest: seq<Step>)
    requires Released(s, w.key) && s.phase == Idle && s.policy == Some(p) && s.handled == None && s.timer == Stopped
    requires IsActiveWindow(Some(p), m, Some(w)) && w.project.Some?
    ensures LeadsToStart(s, rest, p, w)
  {
    var look, advance := Look(m, Some(w)), Advance(true, true);
    var s1 := Apply(s, look);
    var s2 := Apply(s1, advance);
    var s3 := Apply(s2, advance);
    assert s3.phase == Starting(w) && s3.timer == Stopped && s3.project.Some?;
    assert LeadsToStart(s3, [advance], p, w);
    LeadsLater(s2, advance, [advance], p, w);
    LeadsLater(s1, advance, [advance] + [advance], p, w);
    LeadsLater(s, look, [advance] + ([advance] + [advance]), p, w);
    rest := [look] + ([advance] + ([advance] + [advance]));
  }

  /** The employee answers again, which clears what was handled, and stops the timer if it runs. */
  lemma FromTheWindow(s: State, p: Policy, m: int, w: Window) returns (rest: seq<Step>)
    requires Released(s, w.key) && s.phase == Idle && s.opening == Opened && s.policy == Some(p)
    requires IsActiveWindow(Some(p), m, Some(w)) && w.project.Some?
    ensures LeadsToStart(s, rest, p, w)
  {
    var answer, stop := Consent(p.id, true), Stop(true);
    var s1 := Apply(s, answer);
    assert s1.policy == Some(p);
    if s1.timer == Stopped {
      rest := ReadyToStart(s1, p, m, w);
    } else {
      rest := ReadyToStart(Apply(s1, stop), p, m, w);
      LeadsLater(s1, stop, rest, p, w);
      rest := [stop] + rest;
    }
    LeadsLater(s, answer, rest, p, w);
    rest := [answer] + rest;
  }

  function Distance(phase: Phase): nat {
    match phase
    case Idle => 0
    case Dead => 0
    case Offered(_, _, _, _) => 4
    case Choosing(_) => 3
    case Starting(_) => 2
    case Condemned(_) => 3
    case Stopping(_) => 2
    case _ => 1
  }

  /** The worker finishes what it is doing; the employee starts the timer first if the worker would raise for want of a
      project. */
  lemma {:induction false} FinishTheWorker(s: State, p: Policy, m: int, w: Window, refreshed: bool)
      returns (rest: seq<Step>)
    requires Released(s, w.key) && s.opening == Opened && (refreshed ==> s.policy == Some(p))
    requires IsActiveWindow(Some(p), m, Some(w)) && w.project.Some?
    ensures LeadsToStart(s, rest, p, w)
    decreases !refreshed, Distance(s.phase), s.timer == Stopped, s.project.None?
  {
    if s.phase == Idle && refreshed {
      rest := FromTheWindow(s, p, m, w);
    } else {
      var a := if s.phase == Idle then Refresh(Some(p), true)
               else if s.phase.Starting? && s.timer == Stopped then (if s.project.None? then Select(Some(0)) else Start)
               else Advance(true, true);
      rest := FinishTheWorker(Apply(s, a), p, m, w, refreshed || s.phase == Idle);
      LeadsLater(s, a, rest, p, w);
      rest := [a] + rest;
    }
  }

  function ToOpened(opening: Opening): nat {
    match opening
    case Unopened => 4
    case Judging => 3
    case Ending => 2
    case Unmarking => 1
    case Opened => 0
  }

  lemma {:induction false} FinishOpening(s: State, p: Policy, m: int, w: Window) returns (rest: seq<Step>)
    requires Released(s, w.key)
    requires IsActiveWindow(Some(p), m, Some(w)) && w.project.Some?
    ensures LeadsToStart(s, rest, p, w)
    decreases ToOpened(s.opening)
  {
    if s.opening == Opened {
      rest := FinishTheWorker(s, p, m, w, false);
    } else {
      var a := if s.opening == Unopened then Open(Some(p), true) else Proceed;
      rest := FinishOpening(Apply(s, a), p, m, w);
      LeadsLater(s, a, rest, p, w);
      rest := [a] + rest;
    }
  }

  /** The list of releases cannot be shortened: after any of them plain steps can lead to an automatic start in the very
      window that the employee had stopped in. */
  lemma ReleaseIsReal(s: State, step: Step, p: Policy, m: int, w: Window) returns (rest: seq<Step>)
    requires Guarded(s, w.key) && Enabled(s, step) && Releases(s, step, w.key)
    requires IsActiveWindow(Some(p), m, Some(w)) && w.project.Some?
    ensures LeadsToStart(Apply(s, step), rest, p, w)
  {
    rest := FinishOpening(Apply(s, step), p, m, w);
  }

  // ----- Under one policy a stop is final -----

  ghost predicate Seen(p: Policy, key: Key, clock: int) {
    exists m, w: Window :: m <= clock && w.key == key && IsActiveWindow(Some(p), m, Some(w))
  }

  /** Everything the agent notes about windows comes from having looked at the policy. */
  ghost predicate Knows(s: State, p: Policy) {
    && s.policy == Some(p)
    && (s.handled.Some? ==> Seen(p, s.handled.value, s.clock))
    && match s.phase
       case Offered(w, _, _, _) => IsActiveWindow(Some(p), s.clock, Some(w))
       case Noting(w) => IsActiveWindow(Some(p), s.clock, Some(w))
       case Choosing(w) => IsActiveWindow(Some(p), s.clock, Some(w))
       case Starting(w) => IsActiveWindow(Some(p), s.clock, Some(w))
       case Marking(w) => IsActiveWindow(Some(p), s.clock, Some(w))
       case Condemned(expired) => expired ==> IsActiveWindow(Some(p), s.clock, None)
       case Stopping(expired) => expired ==> IsActiveWindow(Some(p), s.clock, None)
       case Clearing => IsActiveWindow(Some(p), s.clock, None)
       case _ => true
  }

  /** The policy stays as it is, the clock does not step back, and a restart finds the last note saved. */
  predicate Steady(s: State, step: Step, p: Policy) {
    && Apply(s, step).policy == Some(p)
    && (step.Look? ==> s.clock <= step.moment)
    && (step.Restart? ==> s.saved == s.suppressed)
  }

  ghost predicate AllSteady(s: State, steps: seq<Step>, p: Policy)
    decreases |steps|
  {
    steps == [] || (Steady(s, steps[0], p) && AllSteady(Apply(s, steps[0]), steps[1..], p))
  }

  lemma StepKeepsKnowledge(s: State, step: Step, p: Policy)
    requires Knows(s, p) && Enabled(s, step) && Steady(s, step, p)
    ensures Knows(Apply(s, step), p)
  {
    var t := Apply(s, step);
    if t.handled.Some? {
      if s.handled == t.handled {
        var m: int, w: Window :| m <= s.clock && w.key == s.handled.value && IsActiveWindow(Some(p), m, Some(w));
        assert m <= t.clock;
      } else {
        assert IsActiveWindow(Some(p), s.clock, Some(s.phase.window));
      }
    }
  }

  lemma {:induction false} StatesStaySound(s: State, steps: seq<Step>, p: Policy)
    requires Aligned(s) && IsRun(s, steps)
    ensures Aligned(After(s, steps))
    ensures Knows(s, p) && AllSteady(s, steps, p) ==> Knows(After(s, steps), p)
    decreases |steps|
  {
    if steps != [] {
      StepKeepsAligned(s, steps[0]);
      if Knows(s, p) && Steady(s, steps[0], p) {
        StepKeepsKnowledge(s, steps[0], p);
      }
      StatesStaySound(Apply(s, steps[0]), steps[1..], p);
    }
  }

  lemma AProcessStartsSound(saved: Option<Key>, p: Policy, clock: int)
    ensures var s := Fresh(saved, Some(p), clock); Spared(s) && Aligned(s) && Knows(s, p)
  {}

  /** Every state that a process reaches from its start meets what the results above and below ask of a state; and
      until the employee starts a timer at a harmful moment, the policy has stopped none of theirs. */
  lemma ProcessStatesAreSound(saved: Option<Key>, p: Policy, clock: int, steps: seq<Step>)
    requires IsRun(Fresh(saved, Some(p), clock), steps)
    ensures var s := Fresh(saved, Some(p), clock);
      && Aligned(After(s, steps))
      && (AllSteady(s, steps, p) ==> Knows(After(s, steps), p))
      && (NothingHarmful(s, steps) ==> Spared(After(s, steps)) && !SomeTaking(s, steps, Employee))
  {
    var s := Fresh(saved, Some(p), clock);
    AProcessStartsSound(saved, p, clock);
    StatesStaySound(s, steps, p);
    if NothingHarmful(s, steps) {
      PolicyStopsOnlyItsOwn(s, steps);
    }
  }

  /** The window has ended, or the guard for it is up. */
  ghost predicate Final(s: State, p: Policy, m: int, w: Window) {
    && Knows(s, p) && Aligned(s)
    && m <= s.clock && IsActiveWindow(Some(p), m, Some(w))
    && (w.endsAt <= s.clock ||
          (s.suppressed == Some(w.key) && Guarded(s, w.key) && (s.handled == None || s.handled == Some(w.key))))
  }

  lemma StepKeepsFinal(s: State, step: Step, p: Policy, m: int, w: Window)
    requires Final(s, p, m, w) && Enabled(s, step) && Steady(s, step, p)
    ensures Final(Apply(s, step), p, m, w)
  {
    StepKeepsKnowledge(s, step, p);
    StepKeepsAligned(s, step);
    var t := Apply(s, step);
    if t.clock < w.endsAt {
      if step.Look? {
        WindowIsSticky(Some(p), m, step.moment, w, step.seen);
      } else if step.Advance? {
        match s.phase
        case Offered(x, _, _, _) => WindowIsSticky(Some(p), m, s.clock, w, Some(x));
        case Noting(x) => WindowIsSticky(Some(p), m, s.clock, w, Some(x));
        case Choosing(x) => WindowIsSticky(Some(p), m, s.clock, w, Some(x));
        case Starting(x) => WindowIsSticky(Some(p), m, s.clock, w, Some(x));
        case Marking(x) => WindowIsSticky(Some(p), m, s.clock, w, Some(x));
        case Clearing => WindowIsSticky(Some(p), m, s.clock, w, None);
        case _ =>
      }
    }
  }

  lemma NoStartWhenFinal(s: State, step: Step, p: Policy, m: int, w: Window)
    requires Final(s, p, m, w)
    ensures !AutomaticStart(s, step, w.key)
  {
    if s.phase.Starting? && s.phase.window.key == w.key {
      WindowIsOngoing(Some(p), s.clock, s.phase.window);
      KeyFixesTheEnd(p, s.clock, s.phase.window, m, w);
    }
  }

  lemma {:induction false} FinalMeansNever(s: State, steps: seq<Step>, p: Policy, m: int, w: Window)
    requires Final(s, p, m, w) && IsRun(s, steps) && AllSteady(s, steps, p)
    ensures !SomeAutomaticStart(s, steps, w.key)
    decreases |steps|
  {
    if steps != [] {
      NoStartWhenFinal(s, steps[0], p, m, w);
      StepKeepsFinal(s, steps[0], p, m, w);
      FinalMeansNever(Apply(s, steps[0]), steps[1..], p, m, w);
    }
  }

  /** Under one policy and a clock that does not step back, an employee's stop in a window the policy has dealt with
      is final: however often ticks, stops, answers, refreshes and restarts follow, the policy never again starts the
      timer for that window. */
  lemma StopIsFinal(s: State, saves: bool, p: Policy, key: Key, steps: seq<Step>)
    requires Knows(s, p) && Aligned(s) && s.timer != Stopped && s.handled == Some(key)
    requires IsRun(Apply(s, Stop(saves)), steps) && AllSteady(Apply(s, Stop(saves)), steps, p)
    ensures !SomeAutomaticStart(Apply(s, Stop(saves)), steps, key)
  {
    var m: int, w: Window :| m <= s.clock && w.key == key && IsActiveWindow(Some(p), m, Some(w));
    var t := Apply(s, Stop(saves));
    StepKeepsKnowledge(s, Stop(saves), p);
    assert Final(t, p, m, w);
    FinalMeansNever(t, steps, p, m, w);
  }

  /** Whatever a process has done since its start, an employee's stop in a window the policy has dealt with holds until
      a release; under one policy and a clock that does not step back it holds for good. */
  lemma EveryProcessRespectsTheStop(saved: Option<Key>, p: Policy, clock: int, before: seq<Step>, saves: bool, key: Key,
                                    steps: seq<Step>)
    requires IsRun(Fresh(saved, Some(p), clock), before)
    requires var s := After(Fresh(saved, Some(p), clock), before);
      s.timer != Stopped && s.handled == Some(key) && IsRun(Apply(s, Stop(saves)), steps)
    ensures var s := After(Fresh(saved, Some(p), clock), before); var t := Apply(s, Stop(saves));
      NeverReleased(t, steps, key) || (AllSteady(Fresh(saved, Some(p), clock), before, p) && AllSteady(t, steps, p)) ==>
        !SomeAutomaticStart(t, steps, key)
  {
    ProcessStatesAreSound(saved, p, clock, before);
    var s := After(Fresh(saved, Some(p), clock), before);
    var t := Apply(s, Stop(saves));
    if NeverReleased(t, steps, key) {
      StopHoldsForTheWindow(s, saves, key, steps);
    } else if AllSteady(Fresh(saved, Some(p), clock), before, p) && AllSteady(t, steps, p) {
      StopIsFinal(s, saves, p, key, steps);
    }
  }

  lemma StartsLater(s: State, a: Step, rest: seq<Step>, key: Key)
    requires Enabled(s, a) && IsRun(Apply(s, a), rest) && SomeAutomaticStart(Apply(s, a), rest, key)
    ensures IsRun(s, [a] + rest) && SomeAutomaticStart(s, [a] + rest, key)
  {
    assert ([a] + rest)[1..] == rest;
  }

  /** A restart that cannot reach the server does break it, from whatever state the employee stops in: its first tick
      sees no policy, so it drops the note, although that was saved, and the policy that arrives next can start the
      timer in the very window the employee had stopped it in. */
  lemma OfflineRestartForgetsTheStop(s: State, p: Policy, m: int, w: Window) returns (steps: seq<Step>)
    requires s.timer != Stopped && s.handled == Some(w.key)
    requires IsActiveWindow(Some(p), m, Some(w)) && w.project.Some?
    ensures IsRun(Apply(s, Stop(true)), steps) && SomeAutomaticStart(Apply(s, Stop(true)), steps, w.key)
    ensures |steps| > 3 && steps[0] == Restart(None) && AllPlain(steps[3..], p, w)
  {
    var look, advance := Look(m, None), Advance(true, true);
    var s0 := Apply(s, Stop(true));
    var s1 := Apply(s0, Restart(None));
    var s2 := Apply(s1, look);
    var rest := ReleaseIsReal(s2, advance, p, m, w);
    StartsLater(s2, advance, rest, w.key);
    StartsLater(s1, look, [advance] + rest, w.key);
    StartsLater(s0, Restart(None), [look] + ([advance] + rest), w.key);
    steps := [Restart(None)] + ([look] + ([advance] + rest));
    assert steps[3..] == rest;
  }

  // ----- The agent -----

  /** A tick or refresh that nothing interrupts, to its end. */
  function Settle(s: State, recentInput: bool, saves: bool): (t: State)
    ensures t.phase == Idle || t.phase == Dead
    decreases Distance(s.phase)
  {
    if s.phase == Idle || s.phase == Dead then s else Settle(DoAdvance(s, recentInput, saves), recentInput, saves)
  }

  lemma SettleTwo(s: State, recentInput: bool, saves: bool)
    ensures Settle(s, recentInput, saves)
         == Settle(DoAdvance(DoAdvance(s, recentInput, saves), recentInput, saves), recentInput, saves)
  {}

  /** A whole refresh: a new policy stops a timer that bears the mark of the old one. */
  function Refreshed(s: State, fetched: Option<Policy>, saves: bool): State {
    var t := Replace(s, fetched, saves);
    if PolicyChanged(s, fetched) && s.started && s.timer != Stopped then t.(timer := Stopped, started := false) else t
  }

  /** The opening of the window, if nothing interrupts it, to its end. */
  function Finish(s: State): (t: State)
    ensures s.opening != Unopened ==> t.opening == Opened
    decreases ToOpened(s.opening)
  {
    if s.opening == Unopened || s.opening == Opened then s else Finish(DoProceed(s))
  }

  /** Uninterrupted, the worker's refresh and the window's do the same. */
  lemma WholeRefresh(s: State, fetched: Option<Policy>, recentInput: bool, saves: bool)
    ensures s.phase == Idle ==> Settle(DoRefresh(s, fetched, saves), recentInput, saves) == Refreshed(s, fetched, saves)
    ensures s.opening == Unopened ==>
      Finish(DoOpen(s, fetched, saves)) == Refreshed(s, fetched, saves).(opening := Opened)
  {
    SettleTwo(DoRefresh(s, fetched, saves), recentInput, saves);
    var t := DoOpen(s, fetched, saves);
    var t1 := DoProceed(t);
    var t2 := DoProceed(t1);
    assert s.opening == Unopened ==> Finish(t) == Finish(t1) == Finish(t2) == Finish(DoProceed(t2));
  }

  /** A whole tick. Without a window it stops the timer exactly when it bears the policy's mark, and clears the notes.
      With one, a window seen before, or stopped in, changes nothing; a running timer is left alone and the window
      noted;
      otherwise the policy starts the timer, once there is input if it waits for that. */
  function Ticked(s: State, moment: int, seen: Option<Window>, recentInput: bool, saves: bool): State {
    var looked := s.(clock := moment);
    match seen
    case None =>
      looked.(timer := if s.started then Stopped else s.timer,
              handled := None,
              started := false,
              suppressed := None,
              saved := if s.suppressed.Some? && saves then None else s.saved)
    case Some(w) =>
      if s.suppressed == Some(w.key) || s.handled == Some(w.key) then looked
      else if s.timer != Stopped then looked.(handled := Some(w.key))
      else if s.policy.Some? && s.policy.value.waits && !recentInput then looked
      else if w.project.None? then looked.(project := None, phase := Dead)
      else looked.(project := w.project, timer := Active, origin := Automatic, handled := Some(w.key), started := true)
  }

  lemma WindowlessTick(s: State, moment: int, recentInput: bool, saves: bool)
    requires s.phase == Idle
    ensures Settle(DoLook(s, moment, None), recentInput, saves) == Ticked(s, moment, None, recentInput, saves)
  {
    SettleTwo(DoLook(s, moment, None), recentInput, saves);
  }

  lemma WindowTick(s: State, moment: int, w: Window, recentInput: bool, saves: bool)
    requires s.phase == Idle
    ensures Settle(DoLook(s, moment, Some(w)), recentInput, saves) == Ticked(s, moment, Some(w), recentInput, saves)
  {
    var t := DoLook(s, moment, Some(w));
    SettleTwo(t, recentInput, saves);
    SettleTwo(DoAdvance(DoAdvance(t, recentInput, saves), recentInput, saves), recentInput, saves);
  }

  /** The agent between ticks. */
  class Agent {
    var timer: Status
    var project: Option<ProjectId>
    var policy: Option<Policy>
    var handled: Option<Key>
    var started: bool
    var suppressed: Option<Key>
    var saved: Option<Key>
    var working: bool
    var shown: bool
    ghost var origin: Origin
    ghost var clock: int

    ghost function Now(): State
      reads this
    {
      State(timer, project, policy, handled, started, suppressed, saved, if working then Idle else Dead,
            if shown then Opened else Unopened, origin, clock)
    }

    constructor (saved: Option<Key>, policy: Option<Policy>, ghost clock: int)
      ensures Now() == Fresh(saved, policy, clock)
    {
      this.timer, this.project, this.policy := Stopped, None, policy;
      this.handled, this.started, this.suppressed, this.saved := None, false, saved, saved;
      this.working, this.shown, this.origin, this.clock := true, false, Employee, clock;
    }

    /** `start_tracking`: false is the error that asks for a project. */
    method StartTracking(ghost who: Origin) returns (ok: bool)
      modifies this
      ensures Now() == DoStart(old(Now()), who)
      ensures ok <==> old(timer) != Stopped || old(project).Some?
    {
      if timer != Stopped {
        return true;
      }
      if project.None? {
        return false;
      }
      timer := Active;
      origin := who;
      ok := true;
    }

    method PauseTracking() returns (ok: bool)
      modifies this
      ensures Now() == Apply(old(Now()), Pause) && (ok <==> old(timer) == Active)
    {
      ok := timer == Active;
      if ok {
        timer := Paused;
      }
    }

    method ResumeTracking() returns (ok: bool)
      modifies this
      ensures Now() == Apply(old(Now()), Resume) && (ok <==> old(timer) == Paused)
    {
      ok := timer == Paused;
      if ok {
        timer := Active;
      }
    }

    /** `stop_tracking`. */
    method StopTracking(automatic: bool, saves: bool)
      modifies this
      ensures Now() == if automatic then old(Now()).(timer := Stopped) else DoStop(old(Now()), saves)
    {
      if timer == Stopped {
        return;
      }
      timer := Stopped;
      if !automatic {
        started := false;
        var key := handled;
        if key.Some? {
          suppressed := key;
          if saves {
            saved := key;
          }
        }
      }
    }

    method SelectWork(project: Option<ProjectId>)
      modifies this
      ensures Now() == Apply(old(Now()), Select(project))
    {
      this.project := project;
    }

    /** `respond_automatic_policy`, once the server has taken the answer. */
    method RespondAutomaticPolicy(id: PolicyId, accepted: bool)
      modifies this
      ensures Now() == DoConsent(old(Now()), id, accepted)
    {
      if policy.Some? && policy.value.id == id {
        policy := Some(policy.value.(consent := if accepted then Accepted else Declined));
        handled := None;
        started := false;
      }
    }

    /** The policy part of `catalog`, when nothing interrupts it; the worker and the window call the same method. */
    method RefreshPolicy(fetched: Option<Policy>, saves: bool)
      modifies this
      ensures Now() == Refreshed(old(Now()), fetched, saves)
    {
      var previousStarted := started;
      var changed := policy.Some? && PolicyIdOf(policy) != PolicyIdOf(fetched);
      policy := fetched;
      if changed {
        handled, suppressed := None, None;
        if saves {
          saved := None;
        }
      }
      if changed && previousStarted && timer != Stopped {
        StopTracking(true, saves);
        started := false;
      }
    }

    method OpenWindow(fetched: Option<Policy>, saves: bool)
      requires !shown
      modifies this
      ensures Now() == Refreshed(old(Now()), fetched, saves).(opening := Opened)
    {
      RefreshPolicy(fetched, saves);
      shown := true;
    }

    /** `_apply_automatic_tracking`, when nothing interrupts it. */
    method Tick(moment: int, recentInput: bool, saves: bool) returns (ghost seen: Option<Window>)
      requires working
      modifies this
      ensures IsActiveWindow(old(policy), moment, seen)
      ensures Now() == Ticked(old(Now()), moment, seen, recentInput, saves)
    {
      var window := ActiveWindow(policy, moment);
      seen := window;
      if window.None? {
        clock := moment;
        if started && timer != Stopped {
          StopTracking(true, saves);
        }
        var clear := suppressed.Some?;
        handled, started, suppressed := None, false, None;
        if clear && saves {
          saved := None;
        }
        return;
      }
      var w := window.value;
      clock := moment;
      if suppressed == Some(w.key) || handled == Some(w.key) {
        return;
      }
      if timer != Stopped {
        handled := Some(w.key);
        return;
      }
      if policy.Some? && policy.value.waits && !recentInput {
        return;
      }
      SelectWork(w.project);
      var ok := StartTracking(Automatic);
      if !ok {
        working := false;
        return;
      }
      handled, started := Some(w.key), true;
    }
  }
}
