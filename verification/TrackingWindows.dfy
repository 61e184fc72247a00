/** Which window of an automatic-tracking policy, or of a reminder schedule, is in force at a moment. Moments are
    microseconds of local time at a fixed offset. */
module TrackingWindows {
  import opened Records

  type PolicyId = nat

  type MinuteOfDay = m: int | 0 <= m < 1440 witness 0

  /** An interval of a working day; a clock time that does not parse is absent. */
  datatype Interval = Interval(start: Option<MinuteOfDay>, end: Option<MinuteOfDay>)
  {
    predicate Usable() { start.Some? && end.Some? && start.value != end.value }
  }

  /** Intervals by weekday, 0 being Monday. */
  type Schedule = map<int, seq<Interval>>

  const MAX_INTERVALS: nat := 8
  const MAX_SHIFTS: nat := 100

  function Weekday(date: int): int { (date + 3) % 7 }

  function Intervals(schedule: Schedule, date: int): seq<Interval> {
    if Weekday(date) in schedule
    then schedule[Weekday(date)][..Min(MAX_INTERVALS, |schedule[Weekday(date)]|)]
    else []
  }

  // ----- Occurrences of a fixed schedule -----

  predicate Occurs(schedule: Schedule, date: int, i: int) {
    0 <= i < |Intervals(schedule, date)| && Intervals(schedule, date)[i].Usable()
  }

  function StartsAt(schedule: Schedule, date: int, i: int): int
    requires Occurs(schedule, date, i)
  {
    date * DAY + Intervals(schedule, date)[i].start.value * MINUTE
  }

  /** An interval whose end is not after its start runs into the next day. */
  function EndsAt(schedule: Schedule, date: int, i: int): int
    requires Occurs(schedule, date, i)
  {
    var v := Intervals(schedule, date)[i];
    (if v.end.value <= v.start.value then date + 1 else date) * DAY + v.end.value * MINUTE
  }

  predicate Covers(schedule: Schedule, date: int, i: int, moment: int) {
    Occurs(schedule, date, i) && StartsAt(schedule, date, i) <= moment < EndsAt(schedule, date, i)
  }

  /** The occurrence in force: of all those, on whatever date, that cover the moment, the one that started first,
      and the first of its day's list among equals. */
  ghost predicate IsChoice(schedule: Schedule, moment: int, date: int, i: int) {
    && Covers(schedule, date, i, moment)
    && forall d, j :: Covers(schedule, d, j, moment) ==> Leads(schedule, date, i, d, j)
  }

  predicate Leads(schedule: Schedule, date: int, i: int, d: int, j: int)
    requires Occurs(schedule, date, i) && Occurs(schedule, d, j)
  {
    || StartsAt(schedule, date, i) < StartsAt(schedule, d, j)
    || (StartsAt(schedule, date, i) == StartsAt(schedule, d, j) && i <= j)
  }

  lemma EqualStartsShareTheDate(schedule: Schedule, date: int, i: int, d: int, j: int)
    requires Occurs(schedule, date, i) && Occurs(schedule, d, j)
    requires StartsAt(schedule, date, i) == StartsAt(schedule, d, j)
    ensures date == d
  {}

  /** No occurrence lasts a day, so one that covers a moment began on that day or the day before. */
  lemma CoversSinceYesterday(schedule: Schedule, date: int, i: int, moment: int)
    requires Covers(schedule, date, i, moment)
    ensures DayOf(moment) - 1 <= date <= DayOf(moment)
  {}

  lemma ChoiceIsUnique(schedule: Schedule, moment: int, d1: int, i1: int, d2: int, i2: int)
    requires IsChoice(schedule, moment, d1, i1) && IsChoice(schedule, moment, d2, i2)
    ensures d1 == d2 && i1 == i2
  {
    EqualStartsShareTheDate(schedule, d1, i1, d2, i2);
  }

  /** Once chosen, an occurrence stays the choice until it ends, whatever else begins meanwhile. */
  lemma ChoiceIsSticky(schedule: Schedule, moment: int, later: int, date: int, i: int)
    requires IsChoice(schedule, moment, date, i)
    requires moment <= later < EndsAt(schedule, date, i)
    ensures IsChoice(schedule, later, date, i)
  {
    forall d, j | Covers(schedule, d, j, later)
      ensures Leads(schedule, date, i, d, j)
    {
      if StartsAt(schedule, d, j) <= moment {
        assert Covers(schedule, d, j, moment);
      }
    }
  }

  // ----- Windows -----

  datatype Key =
    | FixedKey(policy: PolicyId, date: int, start: MinuteOfDay, end: MinuteOfDay)
    | ShiftKey(shiftPolicy: PolicyId, startsAt: int, endsAt: int)

  datatype Window = Window(key: Key, project: Option<ProjectId>, endsAt: int)

  function FixedWindowOf(policy: PolicyId, project: Option<ProjectId>, schedule: Schedule, date: int, i: int): Window
    requires Occurs(schedule, date, i)
  {
    var v := Intervals(schedule, date)[i];
    Window(FixedKey(policy, date, v.start.value, v.end.value), project, EndsAt(schedule, date, i))
  }

  predicate Precedes(a: (int, int), b: (int, int)) {
    a.0 < b.0 || (a.0 == b.0 && a.1 < b.1)
  }

  /** The occurrences of the day before and of the day itself that cover a moment, in the order of their lists. */
  method Candidates(schedule: Schedule, moment: int) returns (found: seq<(int, int)>)
    ensures forall k :: 0 <= k < |found| ==> Covers(schedule, found[k].0, found[k].1, moment)
    ensures forall d, j :: Covers(schedule, d, j, moment) ==> (d, j) in found
    ensures forall a, b :: 0 <= a < b < |found| ==> Precedes(found[a], found[b])
  {
    found := [];
    var today := DayOf(moment);
    var date := today - 1;
    while date <= today
      invariant today - 1 <= date <= today + 1
      invariant forall k :: 0 <= k < |found| ==> Covers(schedule, found[k].0, found[k].1, moment) && found[k].0 < date
      invariant forall d, j :: today - 1 <= d < date && Covers(schedule, d, j, moment) ==> (d, j) in found
      invariant forall a, b :: 0 <= a < b < |found| ==> Precedes(found[a], found[b])
      decreases today - date
    {
      var intervals := Intervals(schedule, date);
      for i := 0 to |intervals|
        invariant forall k :: 0 <= k < |found| ==>
          Covers(schedule, found[k].0, found[k].1, moment) && Precedes(found[k], (date, i))
        invariant forall d, j :: today - 1 <= d < date && Covers(schedule, d, j, moment) ==> (d, j) in found
        invariant forall j :: 0 <= j < i && Covers(schedule, date, j, moment) ==> (date, j) in found
        invariant forall a, b :: 0 <= a < b < |found| ==> Precedes(found[a], found[b])
      {
        if intervals[i].Usable() && StartsAt(schedule, date, i) <= moment < EndsAt(schedule, date, i) {
          found := found + [(date, i)];
        }
      }
      date := date + 1;
    }
    forall d, j | Covers(schedule, d, j, moment)
      ensures (d, j) in found
    {
      CoversSinceYesterday(schedule, d, j, moment);
    }
  }

  /** An earlier start, or the same start and no later in the list. */
  predicate Beats(schedule: Schedule, found: seq<(int, int)>, best: nat, a: nat)
    requires best < |found| && a < |found|
  {
    && Occurs(schedule, found[best].0, found[best].1)
    && Occurs(schedule, found[a].0, found[a].1)
    && (var first := StartsAt(schedule, found[best].0, found[best].1);
    var other := StartsAt(schedule, found[a].0, found[a].1);
    first < other || (first == other && best <= a))
  }

  /** The least of all the candidates is the occurrence in force. */
  lemma LeastIsTheChoice(schedule: Schedule, moment: int, found: seq<(int, int)>, best: nat)
    requires best < |found|
    requires forall k :: 0 <= k < |found| ==> Covers(schedule, found[k].0, found[k].1, moment)
    requires forall d, j :: Covers(schedule, d, j, moment) ==> (d, j) in found
    requires forall a, b :: 0 <= a < b < |found| ==> Precedes(found[a], found[b])
    requires forall a :: 0 <= a < |found| ==> Beats(schedule, found, best, a)
    ensures IsChoice(schedule, moment, found[best].0, found[best].1)
  {
    forall d, j | Covers(schedule, d, j, moment)
      ensures Leads(schedule, found[best].0, found[best].1, d, j)
    {
      var a :| 0 <= a < |found| && found[a] == (d, j);
      assert Beats(schedule, found, best, a);
      if StartsAt(schedule, found[best].0, found[best].1) == StartsAt(schedule, d, j) {
        EqualStartsShareTheDate(schedule, found[best].0, found[best].1, d, j);
        if best < a {
          assert Precedes(found[best], found[a]);
        }
      }
    }
  }

  /** What a fixed schedule may answer: nothing exactly when no occurrence, on any date, covers the moment, and
      otherwise the occurrence in force. */
  ghost predicate IsFixedWindow(p: PolicyId, project: Option<ProjectId>, schedule: Schedule, moment: int,
      w: Option<Window>) {
    match w
    case None => forall d, j :: !Covers(schedule, d, j, moment)
    case Some(found) =>
      exists d, j :: IsChoice(schedule, moment, d, j) && found == FixedWindowOf(p, project, schedule, d, j)
  }

  // ----- The same by the calendar -----

  /** 5 January 1970 was a Monday: the date of a weekday, 0 being Monday, of the n-th week from that one. */
  function DateOf(n: int, weekday: int): int { 4 + 7 * n + weekday }

  /** The i-th of the first eight intervals listed under a weekday, if its times parse and differ,
      covers a moment when it
      begins on the weekday's date in the n-th week; it ends the next day if it does not end later than it begins. */
  predicate Meets(schedule: Schedule, moment: int, n: int, weekday: int, i: int) {
    && 0 <= weekday < 7 && weekday in schedule && 0 <= i < |schedule[weekday]| && i < 8
    && schedule[weekday][i].start.Some? && schedule[weekday][i].end.Some?
    && schedule[weekday][i].start.value != schedule[weekday][i].end.value
    && BeginOf(schedule, n, weekday, i) <= moment < FinishOf(schedule, n, weekday, i)
  }

  function BeginOf(schedule: Schedule, n: int, weekday: int, i: int): int
    requires weekday in schedule && 0 <= i < |schedule[weekday]| && schedule[weekday][i].start.Some?
  {
    DateOf(n, weekday) * 86_400_000_000 + schedule[weekday][i].start.value * 60_000_000
  }

  function FinishOf(schedule: Schedule, n: int, weekday: int, i: int): int
    requires weekday in schedule && 0 <= i < |schedule[weekday]|
    requires schedule[weekday][i].start.Some? && schedule[weekday][i].end.Some?
  {
    var v := schedule[weekday][i];
    DateOf(n, weekday) * 86_400_000_000 + v.end.value * 60_000_000
    + if v.start.value < v.end.value then 0 else 86_400_000_000
  }

  /** The window is that of an interval that covers the moment and began no later than any other that does. */
  ghost predicate IsFirstToCover(p: PolicyId, project: Option<ProjectId>, schedule: Schedule, moment: int, w: Window,
                                 n: int, weekday: int, i: int) {
    && Meets(schedule, moment, n, weekday, i)
    && w.project == project && w.endsAt == FinishOf(schedule, n, weekday, i)
    && w.key == FixedKey(p, DateOf(n, weekday), schedule[weekday][i].start.value, schedule[weekday][i].end.value)
    && forall m, d, j :: Meets(schedule, moment, m, d, j) ==>
         || BeginOf(schedule, n, weekday, i) < BeginOf(schedule, m, d, j)
         || (BeginOf(schedule, n, weekday, i) == BeginOf(schedule, m, d, j) && i <= j)
  }

  ghost predicate IsWindowOnTheCalendar(p: PolicyId, project: Option<ProjectId>, schedule: Schedule, moment: int,
                                        w: Option<Window>) {
    match w
    case None => forall n, weekday, i :: !Meets(schedule, moment, n, weekday, i)
    case Some(found) => exists n, weekday, i :: IsFirstToCover(p, project, schedule, moment, found, n, weekday, i)
  }

  lemma WeekdayOf(n: int, weekday: int)
    requires 0 <= weekday < 7
    ensures Weekday(DateOf(n, weekday)) == weekday
  {}

  lemma DateHasAWeekday(date: int) returns (n: int)
    ensures 0 <= Weekday(date) < 7 && date == DateOf(n, Weekday(date))
  {
    n := (date + 3) / 7 - 1;
  }

  lemma CoversMeets(schedule: Schedule, moment: int, n: int, weekday: int, i: int)
    requires 0 <= weekday < 7
    ensures Meets(schedule, moment, n, weekday, i) <==> Covers(schedule, DateOf(n, weekday), i, moment)
    ensures Meets(schedule, moment, n, weekday, i) ==>
      && StartsAt(schedule, DateOf(n, weekday), i) == BeginOf(schedule, n, weekday, i)
      && EndsAt(schedule, DateOf(n, weekday), i) == FinishOf(schedule, n, weekday, i)
      && Intervals(schedule, DateOf(n, weekday))[i] == schedule[weekday][i]
  {
    WeekdayOf(n, weekday);
  }

  lemma ChoiceIsFirstToCover(p: PolicyId, project: Option<ProjectId>, schedule: Schedule, moment: int, date: int,
      i: int)
      returns (n: int, weekday: int)
    requires IsChoice(schedule, moment, date, i)
    ensures IsFirstToCover(p, project, schedule, moment, FixedWindowOf(p, project, schedule, date, i), n, weekday, i)
    ensures date == DateOf(n, weekday)
  {
    n := DateHasAWeekday(date);
    weekday := Weekday(date);
    CoversMeets(schedule, moment, n, weekday, i);
    forall m, d, j | Meets(schedule, moment, m, d, j)
      ensures BeginOf(schedule, n, weekday, i) < BeginOf(schedule, m, d, j)
           || (BeginOf(schedule, n, weekday, i) == BeginOf(schedule, m, d, j) && i <= j)
    {
      CoversMeets(schedule, moment, m, d, j);
    }
  }

  lemma ChoiceIsOnTheCalendar(p: PolicyId, project: Option<ProjectId>, schedule: Schedule, moment: int,
      w: Option<Window>)
    requires IsFixedWindow(p, project, schedule, moment, w)
    ensures IsWindowOnTheCalendar(p, project, schedule, moment, w)
  {
    match w
    case None =>
      forall n, weekday, i
        ensures !Meets(schedule, moment, n, weekday, i)
      {
        if 0 <= weekday < 7 {
          CoversMeets(schedule, moment, n, weekday, i);
        }
      }
    case Some(found) =>
      var d, i :| IsChoice(schedule, moment, d, i) && found == FixedWindowOf(p, project, schedule, d, i);
      var n, weekday := ChoiceIsFirstToCover(p, project, schedule, moment, d, i);
  }

  /** `_fixed_window`. */
  method FixedWindow(policy: PolicyId, project: Option<ProjectId>, schedule: Schedule, moment: int)
      returns (w: Option<Window>)
    ensures IsFixedWindow(policy, project, schedule, moment, w)
    ensures IsWindowOnTheCalendar(policy, project, schedule, moment, w)
  {
    var found := Candidates(schedule, moment);
    if |found| == 0 {
      w := None;
      ChoiceIsOnTheCalendar(policy, project, schedule, moment, w);
      return;
    }
    var best := 0;
    for k := 1 to |found|
      invariant 0 <= best < k
      invariant forall a :: 0 <= a < k ==> Beats(schedule, found, best, a)
    {
      ghost var leader := best;
      if StartsAt(schedule, found[k].0, found[k].1) < StartsAt(schedule, found[best].0, found[best].1) {
        best := k;
      }
      forall a | 0 <= a <= k
        ensures Beats(schedule, found, best, a)
      {
        assert a < k ==> Beats(schedule, found, leader, a);
      }
    }
    LeastIsTheChoice(schedule, moment, found, best);
    w := Some(FixedWindowOf(policy, project, schedule, found[best].0, found[best].1));
    ChoiceIsOnTheCalendar(policy, project, schedule, moment, w);
  }

  // ----- Published shifts -----

  /** A published shift; one whose times do not parse, or have no zone, is absent. */
  datatype Shift = Shift(start: int, end: int, project: Option<ProjectId>)

  predicate ShiftCovers(shifts: seq<Option<Shift>>, i: int, moment: int) {
    0 <= i < |shifts| && i < MAX_SHIFTS && shifts[i].Some? && shifts[i].value.start <= moment < shifts[i].value.end
  }

  predicate ShiftLeads(shifts: seq<Option<Shift>>, i: int, j: int)
    requires 0 <= i < |shifts| && shifts[i].Some? && 0 <= j < |shifts| && shifts[j].Some?
  {
    || shifts[i].value.start < shifts[j].value.start
    || (shifts[i].value.start == shifts[j].value.start && i <= j)
  }

  /** The shift in force: of those that cover the moment, the first to start, and the first listed among equals. */
  ghost predicate IsShiftChoice(shifts: seq<Option<Shift>>, moment: int, i: int) {
    && ShiftCovers(shifts, i, moment)
    && forall j :: ShiftCovers(shifts, j, moment) ==> ShiftLeads(shifts, i, j)
  }

  lemma ShiftChoiceIsSticky(shifts: seq<Option<Shift>>, moment: int, later: int, i: int)
    requires IsShiftChoice(shifts, moment, i) && moment <= later < shifts[i].value.end
    ensures IsShiftChoice(shifts, later, i)
  {
    forall j | ShiftCovers(shifts, j, later)
      ensures ShiftLeads(shifts, i, j)
    {
      if shifts[j].value.start <= moment {
        assert ShiftCovers(shifts, j, moment);
      }
    }
  }

  function ShiftWindowOf(policy: PolicyId, project: Option<ProjectId>, s: Shift): Window {
    Window(ShiftKey(policy, s.start, s.end), if s.project.Some? then s.project else project, s.end)
  }

  /** What published shifts may answer. */
  ghost predicate IsShiftWindow(p: PolicyId, project: Option<ProjectId>, shifts: seq<Option<Shift>>, moment: int,
      w: Option<Window>) {
    match w
    case None => forall j :: !ShiftCovers(shifts, j, moment)
    case Some(found) =>
      exists j :: IsShiftChoice(shifts, moment, j) && found == ShiftWindowOf(p, project, shifts[j].value)
  }

  /** The window is that of the shift among the first hundred that covers the moment and started first. */
  ghost predicate IsFirstShift(p: PolicyId, project: Option<ProjectId>, shifts: seq<Option<Shift>>, moment: int,
                               w: Window, i: int) {
    && 0 <= i < |shifts| && i < 100 && shifts[i].Some? && shifts[i].value.start <= moment < shifts[i].value.end
    && w.key == ShiftKey(p, shifts[i].value.start, shifts[i].value.end) && w.endsAt == shifts[i].value.end
    && w.project == (if shifts[i].value.project == None then project else shifts[i].value.project)
    && forall j :: 0 <= j < |shifts| && j < 100 && shifts[j].Some? ==>
         shifts[j].value.start <= moment < shifts[j].value.end ==>
           shifts[i].value.start < shifts[j].value.start || (shifts[i].value.start == shifts[j].value.start && i <= j)
  }

  /** There is a window if and only if some shift among the first hundred covers the moment, and it is the first's. */
  ghost predicate IsWindowOfAShift(p: PolicyId, project: Option<ProjectId>, shifts: seq<Option<Shift>>, moment: int,
                                   w: Option<Window>) {
    match w
    case None =>
      forall j :: 0 <= j < |shifts| && j < 100 && shifts[j].Some? ==>
        !(shifts[j].value.start <= moment < shifts[j].value.end)
    case Some(found) => exists j :: IsFirstShift(p, project, shifts, moment, found, j)
  }

  /** `_shift_window`. */
  method ShiftWindow(policy: PolicyId, project: Option<ProjectId>, shifts: seq<Option<Shift>>, moment: int)
      returns (w: Option<Window>)
    ensures IsShiftWindow(policy, project, shifts, moment, w)
    ensures IsWindowOfAShift(policy, project, shifts, moment, w)
  {
    var best: Option<nat> := None;
    for i := 0 to Min(MAX_SHIFTS, |shifts|)
      invariant best.None? ==> forall j :: 0 <= j < i ==> !ShiftCovers(shifts, j, moment)
      invariant best.Some? ==> best.value < i && ShiftCovers(shifts, best.value, moment)
      invariant best.Some? ==> forall j :: 0 <= j < i && ShiftCovers(shifts, j, moment) ==>
        ShiftLeads(shifts, best.value, j)
    {
      if ShiftCovers(shifts, i, moment) && (best.None? || shifts[i].value.start < shifts[best.value].value.start) {
        best := Some(i);
      }
    }
    if best.None? {
      assert forall j :: 0 <= j < |shifts| && j < 100 && shifts[j].Some? ==> !ShiftCovers(shifts, j, moment);
      return None;
    }
    assert IsShiftChoice(shifts, moment, best.value);
    w := Some(ShiftWindowOf(policy, project, shifts[best.value].value));
    ShiftChoiceIsFirst(policy, project, shifts, moment, best.value);
  }

  lemma ShiftChoiceIsFirst(p: PolicyId, project: Option<ProjectId>, shifts: seq<Option<Shift>>, moment: int, i: int)
    requires IsShiftChoice(shifts, moment, i)
    ensures IsFirstShift(p, project, shifts, moment, ShiftWindowOf(p, project, shifts[i].value), i)
  {
    forall j | 0 <= j < |shifts| && j < 100 && shifts[j].Some? && shifts[j].value.start <= moment < shifts[j].value.end
      ensures ShiftLeads(shifts, i, j)
    {
      assert ShiftCovers(shifts, j, moment);
    }
  }

  // ----- Policies -----

  datatype Consent = ConsentPending | Accepted | Declined

  datatype Rule = FixedSchedule(schedule: Schedule) | Shifts(shifts: seq<Option<Shift>>) | OtherRule

  datatype Policy = Policy(id: PolicyId, consent: Consent, project: Option<ProjectId>, rule: Rule, waits: bool)

  /** `active_window`, as a relation: nothing before consent, and otherwise the choice of the policy's rule. */
  ghost predicate IsActiveWindow(policy: Option<Policy>, moment: int, w: Option<Window>) {
    if policy.None? || policy.value.consent != Accepted then w.None?
    else
      var p := policy.value;
      match p.rule
      case OtherRule => w.None?
      case FixedSchedule(schedule) => IsFixedWindow(p.id, p.project, schedule, moment, w)
      case Shifts(shifts) => IsShiftWindow(p.id, p.project, shifts, moment, w)
  }

  method ActiveWindow(policy: Option<Policy>, moment: int) returns (w: Option<Window>)
    ensures IsActiveWindow(policy, moment, w)
    ensures w.Some? ==> policy.Some? && policy.value.consent == Accepted && !policy.value.rule.OtherRule?
    ensures policy.Some? && policy.value.consent == Accepted && policy.value.rule.FixedSchedule? ==>
      IsWindowOnTheCalendar(policy.value.id, policy.value.project, policy.value.rule.schedule, moment, w)
    ensures policy.Some? && policy.value.consent == Accepted && policy.value.rule.Shifts? ==>
      IsWindowOfAShift(policy.value.id, policy.value.project, policy.value.rule.shifts, moment, w)
  {
    if policy.None? || policy.value.consent != Accepted {
      return None;
    }
    var p := policy.value;
    match p.rule
    case FixedSchedule(schedule) => w := FixedWindow(p.id, p.project, schedule, moment);
    case Shifts(shifts) => w := ShiftWindow(p.id, p.project, shifts, moment);
    case OtherRule => w := None;
  }

  /** Under one policy the window found at a moment is found again at every later moment before it ends. */
  lemma WindowIsSticky(policy: Option<Policy>, moment: int, later: int, w: Window, w': Option<Window>)
    requires IsActiveWindow(policy, moment, Some(w)) && IsActiveWindow(policy, later, w')
    requires moment <= later < w.endsAt
    ensures w' == Some(w)
  {
    var p := policy.value;
    match p.rule
    case FixedSchedule(schedule) =>
      var d, j :| IsChoice(schedule, moment, d, j) && w == FixedWindowOf(p.id, p.project, schedule, d, j);
      ChoiceIsSticky(schedule, moment, later, d, j);
      assert Covers(schedule, d, j, later);
      var d', j' :| IsChoice(schedule, later, d', j') && w'.value == FixedWindowOf(p.id, p.project, schedule, d', j');
      ChoiceIsUnique(schedule, later, d, j, d', j');
    case Shifts(shifts) =>
      var j :| IsShiftChoice(shifts, moment, j) && w == ShiftWindowOf(p.id, p.project, shifts[j].value);
      ShiftChoiceIsSticky(shifts, moment, later, j);
      assert ShiftCovers(shifts, j, later);
      var j' :| IsShiftChoice(shifts, later, j') && w'.value == ShiftWindowOf(p.id, p.project, shifts[j'].value);
  }

  /** A window that is in force ends later, and its key names the policy. */
  lemma WindowIsOngoing(policy: Option<Policy>, moment: int, w: Window)
    requires IsActiveWindow(policy, moment, Some(w))
    ensures moment < w.endsAt
    ensures policy.Some? && policy.value.consent == Accepted
    ensures match w.key case FixedKey(p, _, _, _) => p == policy.value.id case ShiftKey(p, _, _) => p == policy.value.id
  {}

  /** Two windows of one policy with the same key are the same stretch of time. */
  lemma KeyFixesTheEnd(p: Policy, m1: int, w1: Window, m2: int, w2: Window)
    requires IsActiveWindow(Some(p), m1, Some(w1)) && IsActiveWindow(Some(p), m2, Some(w2))
    requires w1.key == w2.key
    ensures w1.endsAt == w2.endsAt
  {}

  // ----- Reminders -----

  datatype Reminder = Reminder(enabled: bool, start: Option<MinuteOfDay>, end: Option<MinuteOfDay>, days: set<int>)

  /** A reminder is a schedule with the same interval on each of its days. */
  function ReminderSchedule(r: Reminder): Schedule {
    map d | d in r.days :: [Interval(r.start, r.end)]
  }

  /** The reminder is for the weekday, and its stretch that begins on that date in the n-th week covers the moment. */
  predicate IsDue(r: Reminder, moment: int, n: int, weekday: int) {
    && 0 <= weekday < 7 && weekday in r.days && r.start.Some? && r.end.Some? && r.start.value != r.end.value
    && DateOf(n, weekday) * 86_400_000_000 + r.start.value * 60_000_000 <= moment
    && moment < DateOf(n, weekday) * 86_400_000_000 + r.end.value * 60_000_000
                + if r.start.value < r.end.value then 0 else 86_400_000_000
  }

  lemma DueIsCovered(r: Reminder, moment: int, n: int, weekday: int)
    requires 0 <= weekday < 7
    ensures IsDue(r, moment, n, weekday) <==> Covers(ReminderSchedule(r), DateOf(n, weekday), 0, moment)
  {
    WeekdayOf(n, weekday);
    if weekday in r.days {
      assert Intervals(ReminderSchedule(r), DateOf(n, weekday)) == [Interval(r.start, r.end)];
    }
  }

  lemma ReminderIsDue(r: Reminder, moment: int, date: Option<int>)
    requires date.None? ==> forall d, j :: !Covers(ReminderSchedule(r), d, j, moment)
    requires date.Some? ==> IsChoice(ReminderSchedule(r), moment, date.value, 0)
    ensures date.None? ==> forall n, weekday :: !IsDue(r, moment, n, weekday)
    ensures date.Some? ==> exists n, weekday ::
      && IsDue(r, moment, n, weekday) && date.value == DateOf(n, weekday)
      && forall m, d :: IsDue(r, moment, m, d) ==> date.value <= DateOf(m, d)
  {
    forall n, weekday | IsDue(r, moment, n, weekday)
      ensures Covers(ReminderSchedule(r), DateOf(n, weekday), 0, moment)
    {
      DueIsCovered(r, moment, n, weekday);
    }
    if date.Some? {
      var n := DateHasAWeekday(date.value);
      DueIsCovered(r, moment, n, Weekday(date.value));
      forall m, d | IsDue(r, moment, m, d)
        ensures date.value <= DateOf(m, d)
      {
        DueIsCovered(r, moment, m, d);
        SameIntervalEveryDay(r, date.value);
        SameIntervalEveryDay(r, DateOf(m, d));
      }
    }
  }

  lemma SameIntervalEveryDay(r: Reminder, date: int)
    requires Occurs(ReminderSchedule(r), date, 0)
    ensures r.start.Some? && StartsAt(ReminderSchedule(r), date, 0) == date * DAY + r.start.value * MINUTE
  {}

  /** `active_reminder_window`: the date of the occurrence in force, if any date has one. */
  method ActiveReminderWindow(r: Reminder, moment: int) returns (date: Option<int>)
    ensures date.None? <==> !r.enabled || forall d, j :: !Covers(ReminderSchedule(r), d, j, moment)
    ensures date.Some? ==> IsChoice(ReminderSchedule(r), moment, date.value, 0)
    ensures date.None? <==> !r.enabled || forall n, weekday :: !IsDue(r, moment, n, weekday)
    ensures date.Some? ==> exists n, weekday ::
      && IsDue(r, moment, n, weekday) && date.value == DateOf(n, weekday)
      && forall m, d :: IsDue(r, moment, m, d) ==> date.value <= DateOf(m, d)
  {
    date := None;
    if !r.enabled || r.start.None? || r.end.None? || r.start == r.end {
      if r.enabled {
        ReminderIsDue(r, moment, None);
      }
      return;
    }
    var today := DayOf(moment);
    var working := today - 1;
    while working <= today
      invariant today - 1 <= working <= today + 1
      invariant date.None? ==> forall d :: today - 1 <= d < working ==> !Covers(ReminderSchedule(r), d, 0, moment)
      invariant date.Some? ==> today - 1 <= date.value < working && Covers(ReminderSchedule(r), date.value, 0, moment)
      invariant date.Some? ==> forall d :: today - 1 <= d < date.value ==> !Covers(ReminderSchedule(r), d, 0, moment)
      decreases today - working
    {
      ReminderOccurs(r, working, moment);
      if Weekday(working) in r.days && date.None? {
        var startsAt := working * DAY + r.start.value * MINUTE;
        var endDate := if r.end.value <= r.start.value then working + 1 else working;
        if startsAt <= moment < endDate * DAY + r.end.value * MINUTE {
          date := Some(working);
        }
      }
      working := working + 1;
    }
    EarliestReminder(r, moment, date);
    ReminderIsDue(r, moment, date);
  }

  lemma ReminderOccurs(r: Reminder, date: int, moment: int)
    requires r.start.Some? && r.end.Some? && r.start != r.end
    ensures Covers(ReminderSchedule(r), date, 0, moment) <==>
      Weekday(date) in r.days && date * DAY + r.start.value * MINUTE <= moment
      < (if r.end.value <= r.start.value then date + 1 else date) * DAY + r.end.value * MINUTE
  {
    if Weekday(date) in r.days {
      assert Intervals(ReminderSchedule(r), date) == [Interval(r.start, r.end)];
    }
  }

  lemma EarliestReminder(r: Reminder, moment: int, date: Option<int>)
    requires date.None? ==> forall d :: DayOf(moment) - 1 <= d <= DayOf(moment) ==>
      !Covers(ReminderSchedule(r), d, 0, moment)
    requires date.Some? ==> Covers(ReminderSchedule(r), date.value, 0, moment)
    requires date.Some? ==> forall d :: DayOf(moment) - 1 <= d < date.value ==>
      !Covers(ReminderSchedule(r), d, 0, moment)
    ensures date.None? ==> forall d, j :: !Covers(ReminderSchedule(r), d, j, moment)
    ensures date.Some? ==> IsChoice(ReminderSchedule(r), moment, date.value, 0)
  {
    var schedule := ReminderSchedule(r);
    forall d, j | Covers(schedule, d, j, moment)
      ensures j == 0 && date.Some? && date.value <= d && Leads(schedule, date.value, 0, d, j)
    {
      CoversSinceYesterday(schedule, d, j, moment);
      assert |Intervals(schedule, d)| == 1;
      assert Intervals(schedule, date.value)[0] == Intervals(schedule, d)[0];
    }
  }
}
