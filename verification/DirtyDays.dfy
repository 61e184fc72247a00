/** The triggers that mark the days whose completed time may have changed, and the export that relies on them. An export
    counts the time that falls into the user's authorization of the connected account; a day that is not marked has
    exactly the total that was exported for it, as long as no change of the authorization itself reaches into it. */
module DirtyDays {
  import opened Records
  import opened Intervals

  type IntegrationId = nat

  /** An entry of `jira_worklog_dirty_days`. */
  datatype DayKey = DayKey(integration: IntegrationId, user: UserId, task: TaskId, day: int)

  /** A row of `manual_time_entries`; it counts once it is approved. */
  datatype Manual = Manual(user: UserId, task: Option<TaskId>, start: int, end: int, approved: bool)

  /** What a source row contributes: whose time, on which task, and the interval once it is complete. */
  datatype Entry = Entry(user: Option<UserId>, task: Option<TaskId>, start: int, end: Option<int>)

  // ----- Sums over tables -----

  ghost function Sum(m: map<nat, int>): int
    decreases |m|
  {
    if m == map[] then 0
    else
      var k :| k in m;
      m[k] + Sum(m - {k})
  }

  /** The sum does not depend on which row is taken first. */
  lemma {:induction false} SumRemove(m: map<nat, int>, k: nat)
    requires k in m
    ensures Sum(m) == m[k] + Sum(m - {k})
    decreases |m|
  {
    var c :| c in m && Sum(m) == m[c] + Sum(m - {c});
    if c != k {
      SumRemove(m - {c}, k);
      SumRemove(m - {k}, c);
      assert m - {c} - {k} == m - {k} - {c};
    }
  }

  lemma SumPut(m: map<nat, int>, k: nat, v: int)
    ensures Sum(m[k := v]) == Sum(m) - (if k in m then m[k] else 0) + v
  {
    SumRemove(m[k := v], k);
    assert m[k := v] - {k} == m - {k};
    if k in m {
      SumRemove(m, k);
    } else {
      assert m - {k} == m;
    }
  }

  lemma SumDrop(m: map<nat, int>, k: nat)
    ensures Sum(m - {k}) == Sum(m) - (if k in m then m[k] else 0)
  {
    if k in m {
      SumRemove(m, k);
    } else {
      assert m - {k} == m;
    }
  }

  // ----- Days -----

  function Overlap(start: int, end: int, day: int): int {
    Clip(start, end, day * DAY, (day + 1) * DAY)
  }

  lemma DayBounds(t: int, day: int)
    ensures DayOf(t) == day <==> day * DAY <= t < (day + 1) * DAY
  {}

  /** The days from that of the start to that of the last microsecond, as `generate_series` enumerates them. */
  predicate InSeries(start: int, end: int, day: int) {
    DayOf(start) <= day <= DayOf(end - 1)
  }

  /** These are exactly the days that hold some instant of [start, end), that is, those it overlaps. */
  lemma SeriesIsDaysTouched(start: int, end: int, day: int)
    requires start < end
    ensures InSeries(start, end, day) <==> exists t :: start <= t < end && DayOf(t) == day
    ensures InSeries(start, end, day) <==> Overlap(start, end, day) > 0
  {
    DayBounds(start, DayOf(start));
    DayBounds(end - 1, DayOf(end - 1));
    if InSeries(start, end, day) {
      var t := Max(start, day * DAY);
      DayBounds(t, day);
      assert start <= t < end && DayOf(t) == day;
    }
  }

  /** The overlaps with those days add up to the length of the interval. */
  lemma DaysAddUp(start: int, end: int)
    requires start < end
    ensures var first, count := DayOf(start), DayOf(end - 1) - DayOf(start) + 1;
      && count >= 1
      && ClippedOver(seq(count + 1, i => (first + i) * DAY), start, end) == end - start
  {
    var first, count := DayOf(start), DayOf(end - 1) - DayOf(start) + 1;
    PartsAddUp(seq(count + 1, i => (first + i) * DAY), start, end);
  }

  // ----- Marking -----

  /** `dayfinch_enqueue_jira_worklog_days`: the days an entry marks; nothing unless it is complete, not empty and
      on a task that is linked to an integration. */
  function Marks(linked: map<TaskId, IntegrationId>, e: Entry): set<DayKey> {
    if e.user.None? || e.task.None? || e.end.None? || e.end.value <= e.start || e.task.value !in linked then {}
    else
      set d | DayOf(e.start) <= d <= DayOf(e.end.value - 1) ::
        DayKey(linked[e.task.value], e.user.value, e.task.value, d)
  }

  type AccountId = nat

  /** A row of `jira_user_authorization_periods`: since when, and until when, time may be exported to an account. */
  datatype Period = Period(account: AccountId, start: int, end: Option<int>)

  /** What of an entry counts: all of it, or the parts that lie in the periods of an account. */
  datatype Authority = Everything | Under(account: AccountId, periods: seq<Period>)

  /** The part of an interval that falls into a period and on a day. */
  function Part(p: Period, start: int, end: int, day: int): int {
    Overlap(Max(start, p.start), if p.end.Some? then Min(end, p.end.value) else end, day)
  }

  function Parts(account: AccountId, periods: seq<Period>, start: int, end: int, day: int): int {
    if periods == [] then 0
    else
      var p := periods[|periods| - 1];
      Parts(account, periods[..|periods| - 1], start, end, day)
      + if p.account == account then Part(p, start, end, day) else 0
  }

  function Authorized(auth: Authority, start: int, end: int, day: int): int {
    match auth
    case Everything => Overlap(start, end, day)
    case Under(account, periods) => Parts(account, periods, start, end, day)
  }

  predicate Concerns(e: Entry, key: DayKey) {
    e.user == Some(key.user) && e.task == Some(key.task) && e.end.Some?
  }

  /** What an entry adds to the completed time of a user on a task on a day. */
  function Worked(auth: Authority, e: Entry, key: DayKey): int {
    if Concerns(e, key) then Authorized(auth, e.start, e.end.value, key.day) else 0
  }

  ghost predicate IsLinked(linked: map<TaskId, IntegrationId>, key: DayKey) {
    key.task in linked && linked[key.task] == key.integration
  }

  /** Only what is worked can be authorized. */
  lemma {:induction false} AuthorizedIsWorked(auth: Authority, start: int, end: int, day: int)
    ensures 0 <= Authorized(auth, start, end, day)
    ensures Overlap(start, end, day) == 0 ==> Authorized(auth, start, end, day) == 0
    decreases if auth.Under? then |auth.periods| else 0
  {
    if auth.Under? && auth.periods != [] {
      AuthorizedIsWorked(Under(auth.account, auth.periods[..|auth.periods| - 1]), start, end, day);
    }
  }

  /** An entry contributes to a linked key exactly when it marks it. */
  lemma MarksWhatItWorks(linked: map<TaskId, IntegrationId>, e: Entry, key: DayKey)
    requires IsLinked(linked, key)
    ensures key in Marks(linked, e) <==> Worked(Everything, e, key) > 0
    ensures Worked(Everything, e, key) >= 0
  {
    if e.end.Some? && e.start < e.end.value {
      SeriesIsDaysTouched(e.start, e.end.value, key.day);
    }
  }

  lemma UnmarkedIsNotWorked(linked: map<TaskId, IntegrationId>, auth: Authority, e: Entry, key: DayKey)
    requires IsLinked(linked, key) && key !in Marks(linked, e)
    ensures Worked(auth, e, key) == 0
  {
    MarksWhatItWorks(linked, e, key);
    if Concerns(e, key) {
      AuthorizedIsWorked(auth, e.start, e.end.value, key.day);
    }
  }

  // ----- What counts, instant by instant -----

  /** The instants of an interval that lie between two bounds and in a period. */
  function Counted(p: Period, start: int, end: int, lo: int, hi: int): set<int> {
    set t | start <= t < end && Within(t, lo, hi) && p.start <= t && (p.end.Some? ==> t < p.end.value)
  }

  /** Their number on a day, counted in UTC from 1 January 1970. */
  function CountedOn(p: Period, start: int, end: int, day: int): nat {
    |Counted(p, start, end, day * 86_400_000_000, (day + 1) * 86_400_000_000)|
  }

  lemma PartCountsInstants(p: Period, start: int, end: int, day: int)
    ensures Part(p, start, end, day) == CountedOn(p, start, end, day)
  {
    var from, to := Max(start, p.start), if p.end.Some? then Min(end, p.end.value) else end;
    ClipCountsInstants(from, to, day * DAY, (day + 1) * DAY);
    assert Counted(p, start, end, day * DAY, (day + 1) * DAY) == Instants(from, to, day * DAY, (day + 1) * DAY);
  }

  function CountedOver(account: AccountId, periods: seq<Period>, start: int, end: int, day: int): int {
    if periods == [] then 0
    else
      (if periods[0].account == account then CountedOn(periods[0], start, end, day) else 0)
      + CountedOver(account, periods[1..], start, end, day)
  }

  lemma {:induction false} CountedFromBehind(account: AccountId, periods: seq<Period>, start: int, end: int, day: int)
    requires periods != []
    ensures CountedOver(account, periods, start, end, day)
         == CountedOver(account, periods[..|periods| - 1], start, end, day)
          + CountedOver(account, periods[|periods| - 1..], start, end, day)
  {
    if |periods| > 1 {
      CountedFromBehind(account, periods[1..], start, end, day);
      assert periods[..|periods| - 1][1..] == periods[1..][..|periods| - 2];
      assert periods[|periods| - 1..] == periods[1..][|periods| - 2..];
    } else {
      assert periods[..0] == [] && periods[0..] == periods;
    }
  }

  lemma {:induction false} PartsCountInstants(account: AccountId, periods: seq<Period>, start: int, end: int, day: int)
    ensures Parts(account, periods, start, end, day) == CountedOver(account, periods, start, end, day)
  {
    if periods != [] {
      var last := periods[|periods| - 1];
      PartsCountInstants(account, periods[..|periods| - 1], start, end, day);
      CountedFromBehind(account, periods, start, end, day);
      PartCountsInstants(last, start, end, day);
      assert periods[|periods| - 1..] == [last];
    }
  }

  /** What a segment contributes for an account: of the user's time on the task, once the segment has ended,
      the instants
      on the day and in the account's periods. */
  lemma SegmentCounts(account: AccountId, periods: seq<Period>, sessions: seq<Session>, g: Segment, key: DayKey)
    requires g.session < |sessions|
    ensures var s := sessions[g.session];
      Worked(Under(account, periods), SegmentEntry(sessions, g), key)
      == if s.user == Some(key.user) && s.task == Some(key.task) && g.end.Some?
         then CountedOver(account, periods, g.start, g.end.value, key.day) else 0
  {
    if g.end.Some? {
      PartsCountInstants(account, periods, g.start, g.end.value, key.day);
    }
  }

  /** What a manual entry contributes: nothing before it is approved. */
  lemma ManualCounts(account: AccountId, periods: seq<Period>, m: Manual, key: DayKey)
    ensures Worked(Under(account, periods), ManualEntry(m), key)
      == if m.user == key.user && m.task == Some(key.task) && m.approved
         then CountedOver(account, periods, m.start, m.end, key.day) else 0
  {
    PartsCountInstants(account, periods, m.start, m.end, key.day);
  }

  // ----- The tables -----

  /** Sessions are never deleted, and their user and task do not change; segments refer to them by position. */
  datatype Tables = Tables(sessions: seq<Session>, segments: map<nat, Segment>, manual: map<nat, Manual>)

  function SegmentEntry(sessions: seq<Session>, g: Segment): Entry {
    if g.session < |sessions|
    then Entry(sessions[g.session].user, sessions[g.session].task, g.start, g.end)
    else Entry(None, None, g.start, g.end)
  }

  function ManualEntry(m: Manual): Entry {
    Entry(Some(m.user), m.task, m.start, if m.approved then Some(m.end) else None)
  }

  ghost function SegmentTime(auth: Authority, t: Tables, key: DayKey): map<nat, int> {
    map k | k in t.segments :: Worked(auth, SegmentEntry(t.sessions, t.segments[k]), key)
  }

  ghost function ManualTime(auth: Authority, t: Tables, key: DayKey): map<nat, int> {
    map k | k in t.manual :: Worked(auth, ManualEntry(t.manual[k]), key)
  }

  /** The completed and authorized time of a user on a task on a day. */
  ghost function Total(auth: Authority, t: Tables, key: DayKey): int {
    Sum(SegmentTime(auth, t, key)) + Sum(ManualTime(auth, t, key))
  }

  function OldSegment(t: Tables, k: nat): Entry {
    if k in t.segments then SegmentEntry(t.sessions, t.segments[k]) else Entry(None, None, 0, None)
  }

  function OldManual(t: Tables, k: nat): Entry {
    if k in t.manual then ManualEntry(t.manual[k]) else Entry(None, None, 0, None)
  }

  lemma PutSegmentTotal(auth: Authority, t: Tables, k: nat, g: Segment, key: DayKey)
    ensures Total(auth, t.(segments := t.segments[k := g]), key)
         == Total(auth, t, key) - Worked(auth, OldSegment(t, k), key) + Worked(auth, SegmentEntry(t.sessions, g), key)
  {
    var t' := t.(segments := t.segments[k := g]);
    assert SegmentTime(auth, t', key) == SegmentTime(auth, t, key)[k := Worked(auth, SegmentEntry(t.sessions, g), key)];
    SumPut(SegmentTime(auth, t, key), k, Worked(auth, SegmentEntry(t.sessions, g), key));
  }

  lemma DropSegmentTotal(auth: Authority, t: Tables, k: nat, key: DayKey)
    ensures Total(auth, t.(segments := t.segments - {k}), key)
      == Total(auth, t, key) - Worked(auth, OldSegment(t, k), key)
  {
    var t' := t.(segments := t.segments - {k});
    assert SegmentTime(auth, t', key) == SegmentTime(auth, t, key) - {k};
    SumDrop(SegmentTime(auth, t, key), k);
  }

  lemma PutManualTime(auth: Authority, t: Tables, k: nat, m: Manual, key: DayKey)
    ensures ManualTime(auth, t.(manual := t.manual[k := m]), key)
         == ManualTime(auth, t, key)[k := Worked(auth, ManualEntry(m), key)]
  {}

  lemma PutManualTotal(auth: Authority, t: Tables, k: nat, m: Manual, key: DayKey)
    ensures Total(auth, t.(manual := t.manual[k := m]), key)
         == Total(auth, t, key) - Worked(auth, OldManual(t, k), key) + Worked(auth, ManualEntry(m), key)
  {
    PutManualTime(auth, t, k, m, key);
    SumPut(ManualTime(auth, t, key), k, Worked(auth, ManualEntry(m), key));
    assert k !in t.manual ==> Worked(auth, OldManual(t, k), key) == 0;
  }

  lemma DropManualTotal(auth: Authority, t: Tables, k: nat, key: DayKey)
    ensures Total(auth, t.(manual := t.manual - {k}), key) == Total(auth, t, key) - Worked(auth, OldManual(t, k), key)
  {
    var t' := t.(manual := t.manual - {k});
    assert ManualTime(auth, t', key) == ManualTime(auth, t, key) - {k};
    SumDrop(ManualTime(auth, t, key), k);
  }

  lemma NewSessionTotal(auth: Authority, t: Tables, s: Session, key: DayKey)
    requires forall k :: k in t.segments ==> t.segments[k].session < |t.sessions|
    ensures Total(auth, t.(sessions := t.sessions + [s]), key) == Total(auth, t, key)
  {
    assert SegmentTime(auth, t.(sessions := t.sessions + [s]), key) == SegmentTime(auth, t, key);
  }

  // ----- Statements and their triggers -----

  datatype Statement =
    | NewSession(session: Session)
    | PutSegment(id: nat, segment: Segment)
    | DropSegment(id: nat)
    | PutManual(id: nat, entry: Manual)
    | DropManual(id: nat)

  function Execute(t: Tables, st: Statement): Tables {
    match st
    case NewSession(s) => t.(sessions := t.sessions + [s])
    case PutSegment(k, g) => t.(segments := t.segments[k := g])
    case DropSegment(k) => t.(segments := t.segments - {k})
    case PutManual(k, m) => t.(manual := t.manual[k := m])
    case DropManual(k) => t.(manual := t.manual - {k})
  }

  /** What the triggers mark: the days of the row before, and of the row after. */
  function Marked(t: Tables, linked: map<TaskId, IntegrationId>, st: Statement): set<DayKey> {
    match st
    case NewSession(_) => {}
    case PutSegment(k, g) => Marks(linked, OldSegment(t, k)) + Marks(linked, SegmentEntry(t.sessions, g))
    case DropSegment(k) => Marks(linked, OldSegment(t, k))
    case PutManual(k, m) => Marks(linked, OldManual(t, k)) + Marks(linked, ManualEntry(m))
    case DropManual(k) => Marks(linked, OldManual(t, k))
  }

  ghost predicate SegmentsRefer(t: Tables) {
    forall k :: k in t.segments ==> t.segments[k].session < |t.sessions|
  }

  ghost predicate Valid(t: Tables, st: Statement) {
    st.PutSegment? ==> st.segment.session < |t.sessions|
  }

  /** A total that a statement changes is the total of a day that its triggers mark. */
  lemma UnmarkedIsUnchanged(auth: Authority, t: Tables, linked: map<TaskId, IntegrationId>, st: Statement, key: DayKey)
    requires SegmentsRefer(t) && IsLinked(linked, key) && key !in Marked(t, linked, st)
    ensures Total(auth, Execute(t, st), key) == Total(auth, t, key)
  {
    match st
    case NewSession(s) => NewSessionTotal(auth, t, s, key);
    case PutSegment(k, g) =>
      PutSegmentTotal(auth, t, k, g, key);
      UnmarkedIsNotWorked(linked, auth, OldSegment(t, k), key);
      UnmarkedIsNotWorked(linked, auth, SegmentEntry(t.sessions, g), key);
    case DropSegment(k) =>
      DropSegmentTotal(auth, t, k, key);
      UnmarkedIsNotWorked(linked, auth, OldSegment(t, k), key);
    case PutManual(k, m) =>
      PutManualTotal(auth, t, k, m, key);
      UnmarkedIsNotWorked(linked, auth, OldManual(t, k), key);
      UnmarkedIsNotWorked(linked, auth, ManualEntry(m), key);
    case DropManual(k) =>
      DropManualTotal(auth, t, k, key);
      UnmarkedIsNotWorked(linked, auth, OldManual(t, k), key);
  }

  // ----- Accounts and exports -----

  /** A user of an integration. */
  type Pair = (IntegrationId, UserId)

  function PairOf(key: DayKey): Pair { (key.integration, key.user) }

  /** A row of `jira_user_connections`: the account, whether it uses the site's own grant, and whether it is on. */
  datatype Connection = Connection(account: AccountId, site: bool, enabled: bool)

  /** A row of the outbox: the account it is for, and the seconds last staged. */
  datatype Export = Export(account: AccountId, time: int)

  datatype State = State(
    tables: Tables,
    dirty: set<DayKey>,
    exports: map<DayKey, Export>,
    connections: map<Pair, Connection>,
    periods: map<Pair, seq<Period>>)

  datatype Step =
    | Change(st: Statement)
    | Stage(days: set<DayKey>)
    | Connect(pair: Pair, connection: Connection, now: int)
    | Disconnect(pair: Pair, now: int)
    | DisconnectSite(integration: IntegrationId, now: int)
    | DisableUser(user: UserId, now: int)

  /** The authorization periods of a user, oldest first. */
  function PeriodsOf(s: State, pair: Pair): seq<Period> {
    if pair in s.periods then s.periods[pair] else []
  }

  /** The account that was connected last. */
  function LastAccount(ps: seq<Period>): AccountId {
    if ps == [] then 0 else ps[|ps| - 1].account
  }

  function Auth(ps: seq<Period>): Authority { Under(LastAccount(ps), ps) }

  predicate IsOpen(ps: seq<Period>) {
    ps != [] && ps[|ps| - 1].end.None?
  }

  function CloseLast(ps: seq<Period>, now: int): seq<Period> {
    if IsOpen(ps) then ps[..|ps| - 1] + [ps[|ps| - 1].(end := Some(now))] else ps
  }

  /** Staging a day: the authorized total is written for the connected account, unless it is zero and nothing was
      staged before; an export for another account stays as it is. */
  ghost function Staged(s: State, key: DayKey): Option<Export> {
    var account := if PairOf(key) in s.connections then s.connections[PairOf(key)].account else 0;
    var total := Total(Under(account, PeriodsOf(s, PairOf(key))), s.tables, key);
    if key in s.exports then Some(if s.exports[key].account == account then Export(account, total) else s.exports[key])
    else if total > 0 then Some(Export(account, total))
    else None
  }

  /** The staged days leave the dirty list, whether or not an export was written. */
  ghost function StageDays(s: State, days: set<DayKey>): State {
    s.(dirty := s.dirty - days,
       exports := s.exports + map k | k in days && Staged(s, k).Some? :: Staged(s, k).value)
  }

  /** Connecting ends the open period of another account and opens one unless one of this account is open. */
  function Opened(ps: seq<Period>, account: AccountId, now: int): seq<Period> {
    if IsOpen(ps) && LastAccount(ps) == account then ps
    else CloseLast(ps, now) + [Period(account, now, None)]
  }

  /** When one user takes over the site's grant, the others who used it are switched off. */
  function SwitchedOff(connections: map<Pair, Connection>, pair: Pair, c: Connection): map<Pair, Connection> {
    map p | p in connections :: connections[p].(enabled :=
      connections[p].enabled && !(c.site && connections[p].site && p.0 == pair.0 && p != pair))
  }

  /** Whose open periods a disconnection ends, and whose connections it deletes. */
  predicate Ends(step: Step, pair: Pair) {
    match step
    case Disconnect(p, _) => pair == p
    case DisconnectSite(i, _) => pair.0 == i
    case DisableUser(u, _) => pair.1 == u
    case _ => false
  }

  predicate Removes(s: State, step: Step, pair: Pair) {
    Ends(step, pair) && pair in s.connections && (step.DisableUser? ==> !s.connections[pair].site)
  }

  predicate Disconnects(step: Step) {
    step.Disconnect? || step.DisconnectSite? || step.DisableUser?
  }

  ghost function Disconnected(s: State, step: Step): State
    requires Disconnects(step)
  {
    s.(connections := map p | p in s.connections && !Removes(s, step, p) :: s.connections[p],
       periods := map p | p in s.periods :: if Ends(step, p) then CloseLast(s.periods[p], step.now) else s.periods[p])
  }

  ghost function Next(s: State, linked: map<TaskId, IntegrationId>, step: Step): State {
    match step
    case Change(st) => s.(tables := Execute(s.tables, st), dirty := s.dirty + Marked(s.tables, linked, st))
    case Stage(days) => StageDays(s, days)
    case Connect(pair, c, now) =>
      s.(connections := SwitchedOff(s.connections, pair, c)[pair := c],
         periods := s.periods[pair := Opened(PeriodsOf(s, pair), c.account, now)])
    case _ => Disconnected(s, step)
  }

  /** The period that is to be closed did not start later; otherwise the table's check refuses the statement. */
  predicate Closable(ps: seq<Period>, now: int) {
    IsOpen(ps) ==> ps[|ps| - 1].start <= now
  }

  // ----- What a step changes, table by table -----

  /** A completed interval on a linked task makes a day dirty that it shares an instant with. */
  predicate Touches(linked: map<TaskId, IntegrationId>, user: Option<UserId>, task: Option<TaskId>, start: int,
      end: int,
                    key: DayKey) {
    && user == Some(key.user) && task == Some(key.task) && key.task in linked && linked[key.task] == key.integration
    && start < end && start < (key.day + 1) * 86_400_000_000 && end > key.day * 86_400_000_000
  }

  predicate SegmentTouches(linked: map<TaskId, IntegrationId>, sessions: seq<Session>, g: Segment, key: DayKey) {
    && g.session < |sessions| && g.end.Some?
    && Touches(linked, sessions[g.session].user, sessions[g.session].task, g.start, g.end.value, key)
  }

  predicate ManualTouches(linked: map<TaskId, IntegrationId>, m: Manual, key: DayKey) {
    m.approved && Touches(linked, Some(m.user), m.task, m.start, m.end, key)
  }

  /** The row before the statement, or the row after it, touches the day. */
  predicate MakesDirty(t: Tables, linked: map<TaskId, IntegrationId>, st: Statement, key: DayKey) {
    match st
    case NewSession(_) => false
    case PutSegment(k, g) =>
      || SegmentTouches(linked, t.sessions, g, key)
      || (k in t.segments && SegmentTouches(linked, t.sessions, t.segments[k], key))
    case DropSegment(k) => k in t.segments && SegmentTouches(linked, t.sessions, t.segments[k], key)
    case PutManual(k, m) =>
      ManualTouches(linked, m, key) || (k in t.manual && ManualTouches(linked, t.manual[k], key))
    case DropManual(k) => k in t.manual && ManualTouches(linked, t.manual[k], key)
  }

  lemma MarksTouched(linked: map<TaskId, IntegrationId>, e: Entry, key: DayKey)
    ensures key in Marks(linked, e) <==> e.end.Some? && Touches(linked, e.user, e.task, e.start, e.end.value, key)
  {
    if e.end.Some? {
      DayBounds(e.start, DayOf(e.start));
      DayBounds(e.end.value - 1, DayOf(e.end.value - 1));
    }
  }

  lemma MarkedIsTouched(t: Tables, linked: map<TaskId, IntegrationId>, st: Statement, key: DayKey)
    ensures key in Marked(t, linked, st) <==> MakesDirty(t, linked, st, key)
  {
    match st
    case NewSession(_) =>
    case PutSegment(k, g) =>
      MarksTouched(linked, OldSegment(t, k), key);
      MarksTouched(linked, SegmentEntry(t.sessions, g), key);
    case DropSegment(k) => MarksTouched(linked, OldSegment(t, k), key);
    case PutManual(k, m) =>
      MarksTouched(linked, OldManual(t, k), key);
      MarksTouched(linked, ManualEntry(m), key);
    case DropManual(k) => MarksTouched(linked, OldManual(t, k), key);
  }

  /** A day becomes dirty with a statement that touches it, and is so until it is staged. */
  lemma DirtyChanges(s: State, linked: map<TaskId, IntegrationId>, step: Step, key: DayKey)
    ensures key in Next(s, linked, step).dirty <==>
      || (step.Change? && MakesDirty(s.tables, linked, step.st, key))
      || (key in s.dirty && !(step.Stage? && key in step.days))
    ensures !step.Change? ==> Next(s, linked, step).tables == s.tables
  {
    if step.Change? {
      MarkedIsTouched(s.tables, linked, step.st, key);
    }
  }

  /** An export comes, or is brought up to the authorized total of the connected account,
      when its day is staged; one for
      another account stays as it is. */
  lemma ExportsChange(s: State, linked: map<TaskId, IntegrationId>, step: Step, key: DayKey)
    requires step.Stage? ==> PairOf(key) in s.connections
    ensures var after, pair := Next(s, linked, step).exports, (key.integration, key.user);
      if !(step.Stage? && key in step.days) then
        (key in after <==> key in s.exports) && (key in s.exports ==> after[key] == s.exports[key])
      else
        var account := s.connections[pair].account;
        var total := Total(Under(account, PeriodsOf(s, pair)), s.tables, key);
        && (key in after <==> key in s.exports || total > 0)
        && (key in after && key !in s.exports ==> after[key] == Export(account, total))
        && (key in s.exports ==>
              after[key] == Export(s.exports[key].account,
                                   if s.exports[key].account == account then total else s.exports[key].time))
  {}

  /** A user's connection comes with connecting and goes with disconnecting, though a site's own not with disabling its
      user; taking over the site's grant switches the others off who used it. */
  lemma ConnectionsChange(s: State, linked: map<TaskId, IntegrationId>, step: Step, pair: Pair)
    ensures var after := Next(s, linked, step).connections;
      && (step.Connect? && step.pair == pair ==> pair in after && after[pair] == step.connection)
      && (!(step.Connect? && step.pair == pair) ==>
            (pair in after <==> pair in s.connections && !LosesConnection(step, pair, s.connections[pair].site)))
      && (!(step.Connect? && step.pair == pair) && pair in after ==>
            after[pair] == if step.Connect? && step.pair.0 == pair.0 && step.connection.site && s.connections[pair].site
                           then s.connections[pair].(enabled := false) else s.connections[pair])
  {}

  predicate LosesConnection(step: Step, pair: Pair, site: bool) {
    || (step.Disconnect? && step.pair == pair)
    || (step.DisconnectSite? && step.integration == pair.0)
    || (step.DisableUser? && step.user == pair.1 && !site)
  }

  /** The step ends what period of the user is open. */
  predicate EndsPeriod(step: Step, pair: Pair, account: AccountId) {
    || (step.Connect? && step.pair == pair && step.connection.account != account)
    || (step.Disconnect? && step.pair == pair)
    || (step.DisconnectSite? && step.integration == pair.0)
    || (step.DisableUser? && step.user == pair.1)
  }

  predicate HasOpen(ps: seq<Period>, account: AccountId) {
    exists i :: 0 <= i < |ps| && ps[i].end.None? && ps[i].account == account
  }

  /** An open period ends with its connection or when another account is connected, and connecting opens one unless one
      of the account is open. */
  lemma PeriodsChange(s: State, linked: map<TaskId, IntegrationId>, step: Step, pair: Pair)
    requires OnlyLastIsOpen(PeriodsOf(s, pair))
    ensures var before, after := PeriodsOf(s, pair), PeriodsOf(Next(s, linked, step), pair);
      && |before| <= |after| <= |before| + 1
      && (forall i :: 0 <= i < |before| ==>
            after[i] == if before[i].end.None? && EndsPeriod(step, pair, before[i].account)
                        then before[i].(end := Some(step.now)) else before[i])
      && (|after| > |before|
          <==> step.Connect? && step.pair == pair && !HasOpen(before, step.connection.account))
      && (|after| > |before| ==> after[|before|] == Period(step.connection.account, step.now, None))
  {
    var before := PeriodsOf(s, pair);
    if step.Connect? && step.pair == pair && IsOpen(before) && LastAccount(before) == step.connection.account {
      assert before[|before| - 1].end.None?;
    }
  }

  predicate OnlyLastIsOpen(ps: seq<Period>) {
    forall i :: 0 <= i < |ps| - 1 ==> ps[i].end.Some?
  }

  /** When a step is not refused. An account is not connected while the user has exports for another one, or
      while another user of the integration has it. */
  ghost predicate Possible(s: State, step: Step) {
    match step
    case Change(st) => Valid(s.tables, st)
    case Stage(days) =>
      days <= s.dirty && forall k :: k in days ==> PairOf(k) in s.connections && s.connections[PairOf(k)].enabled
    case Connect(pair, c, now) =>
      && c.enabled
      && (forall k :: k in s.exports && PairOf(k) == pair ==> s.exports[k].account == c.account)
      && (forall p :: p in s.connections && p != pair && p.0 == pair.0 ==> s.connections[p].account != c.account)
      && (LastAccount(PeriodsOf(s, pair)) != c.account ==> Closable(PeriodsOf(s, pair), now))
    case Disconnect(pair, now) =>
      pair in s.connections && !s.connections[pair].site && Closable(PeriodsOf(s, pair), now)
    case DisconnectSite(_, now) => forall p :: p in s.periods && Ends(step, p) ==> Closable(s.periods[p], now)
    case DisableUser(_, now) => forall p :: p in s.periods && Ends(step, p) ==> Closable(s.periods[p], now)
  }

  /** Only the last period may be open, and connections and exports are for the account that was connected last. */
  ghost predicate Sound(s: State) {
    && SegmentsRefer(s.tables)
    && (forall p :: p in s.periods ==> OnlyLastIsOpen(s.periods[p]))
    && (forall p :: p in s.connections ==>
        PeriodsOf(s, p) != [] && LastAccount(PeriodsOf(s, p)) == s.connections[p].account)
    && (forall k :: k in s.exports ==>
          PeriodsOf(s, PairOf(k)) != [] && LastAccount(PeriodsOf(s, PairOf(k))) == s.exports[k].account)
  }

  /** The account that counts for a user after a step. */
  function AccountAfter(s: State, step: Step, pair: Pair): AccountId {
    if step.Connect? && step.pair == pair then step.connection.account else LastAccount(PeriodsOf(s, pair))
  }

  lemma PeriodsGoOn(s: State, linked: map<TaskId, IntegrationId>, step: Step, pair: Pair)
    requires Sound(s) && Possible(s, step)
    ensures var ps := PeriodsOf(Next(s, linked, step), pair);
      && OnlyLastIsOpen(ps)
      && LastAccount(ps) == AccountAfter(s, step, pair)
      && (PeriodsOf(s, pair) != [] || (step.Connect? && step.pair == pair) ==> ps != [])
  {
    assert OnlyLastIsOpen(PeriodsOf(s, pair));
    assert PeriodsOf(s, pair) != [] ==> pair in s.periods;
  }

  lemma ExportsGoOn(s: State, linked: map<TaskId, IntegrationId>, step: Step, key: DayKey)
    requires Sound(s) && Possible(s, step) && key in Next(s, linked, step).exports
    ensures PeriodsOf(Next(s, linked, step), PairOf(key)) != []
    ensures Next(s, linked, step).exports[key].account == AccountAfter(s, step, PairOf(key))
  {
    PeriodsGoOn(s, linked, step, PairOf(key));
  }

  lemma ConnectionsGoOn(s: State, linked: map<TaskId, IntegrationId>, step: Step, pair: Pair)
    requires Sound(s) && Possible(s, step) && pair in Next(s, linked, step).connections
    ensures PeriodsOf(Next(s, linked, step), pair) != []
    ensures Next(s, linked, step).connections[pair].account == AccountAfter(s, step, pair)
  {
    PeriodsGoOn(s, linked, step, pair);
  }

  lemma NextKeepsSound(s: State, linked: map<TaskId, IntegrationId>, step: Step)
    requires Sound(s) && Possible(s, step)
    ensures Sound(Next(s, linked, step))
  {
    var s' := Next(s, linked, step);
    forall p | p in s'.periods
      ensures OnlyLastIsOpen(s'.periods[p])
    {
      PeriodsGoOn(s, linked, step, p);
    }
    forall p | p in s'.connections
      ensures PeriodsOf(s', p) != [] && LastAccount(PeriodsOf(s', p)) == s'.connections[p].account
    {
      PeriodsGoOn(s, linked, step, p);
      ConnectionsGoOn(s, linked, step, p);
    }
    forall k | k in s'.exports
      ensures PeriodsOf(s', PairOf(k)) != [] && LastAccount(PeriodsOf(s', PairOf(k))) == s'.exports[k].account
    {
      PeriodsGoOn(s, linked, step, PairOf(k));
      ExportsGoOn(s, linked, step, k);
    }
  }

  function Exported(s: State, key: DayKey): int {
    if key in s.exports then s.exports[key].time else 0
  }

  ghost function AuthorizedTotal(s: State, key: DayKey): int {
    Total(Auth(PeriodsOf(s, PairOf(key))), s.tables, key)
  }

  predicate Clean(s: State, linked: map<TaskId, IntegrationId>, key: DayKey) {
    key.task in linked && linked[key.task] == key.integration && key !in s.dirty
  }

  /** Every linked day that is not dirty is exported with the time that is authorized for the account that was
      connected last. */
  ghost predicate UpToDate(s: State, linked: map<TaskId, IntegrationId>) {
    forall key :: Clean(s, linked, key) ==> Exported(s, key) == AuthorizedTotal(s, key)
  }

  // ----- What a change of the authorization shifts -----

  /** The periods whose time begins or ceases to count for a user: what follows a connection or a disconnection,
      and also what the account was authorized for before, if the last account was a different one. */
  function Shift(s: State, step: Step, pair: Pair): seq<Period> {
    var ps := PeriodsOf(s, pair);
    if step.Connect? && step.pair == pair then
      if LastAccount(ps) != step.connection.account then Opened(ps, step.connection.account, step.now)
      else if IsOpen(ps) then []
      else [Period(step.connection.account, step.now, None)]
    else if Disconnects(step) && Ends(step, pair) && IsOpen(ps) then [Period(LastAccount(ps), step.now, None)]
    else []
  }

  /** Some completed entry of the key has authorized time. */
  ghost predicate HasTime(auth: Authority, t: Tables, key: DayKey) {
    || (exists k :: k in t.segments && Worked(auth, SegmentEntry(t.sessions, t.segments[k]), key) > 0)
    || (exists k :: k in t.manual && Worked(auth, ManualEntry(t.manual[k]), key) > 0)
  }

  /** The authorization changes for time that is completed already, on a day that is not dirty. */
  ghost predicate Disturbs(s: State, linked: map<TaskId, IntegrationId>, step: Step) {
    exists key :: Clean(s, linked, key)
      && HasTime(Under(AccountAfter(s, step, PairOf(key)), Shift(s, step, PairOf(key))), s.tables, key)
  }

  lemma {:induction false} SumOfNonNegative(m: map<nat, int>)
    requires forall k :: k in m ==> m[k] >= 0
    ensures Sum(m) >= 0
    ensures Sum(m) > 0 <==> exists k :: k in m && m[k] > 0
    decreases |m|
  {
    if m != map[] {
      var c :| c in m && Sum(m) == m[c] + Sum(m - {c});
      SumOfNonNegative(m - {c});
      assert forall k :: k in m && k != c ==> k in m - {c} && (m - {c})[k] == m[k];
    }
  }

  lemma {:induction false} SumsAdd(x: map<nat, int>, y: map<nat, int>, z: map<nat, int>)
    requires x.Keys == y.Keys == z.Keys
    requires forall k :: k in x ==> x[k] == y[k] + z[k]
    ensures Sum(x) == Sum(y) + Sum(z)
    decreases |x|
  {
    if x != map[] {
      var k :| k in x;
      SumRemove(x, k);
      SumRemove(y, k);
      SumRemove(z, k);
      SumsAdd(x - {k}, y - {k}, z - {k});
    } else {
      assert y == map[] && z == map[];
    }
  }

  lemma WorkedIsNotNegative(auth: Authority, e: Entry, key: DayKey)
    ensures Worked(auth, e, key) >= 0
  {
    if Concerns(e, key) {
      AuthorizedIsWorked(auth, e.start, e.end.value, key.day);
    }
  }

  lemma TotalIsTime(auth: Authority, t: Tables, key: DayKey)
    ensures Total(auth, t, key) >= 0
    ensures Total(auth, t, key) > 0 <==> HasTime(auth, t, key)
  {
    forall e ensures Worked(auth, e, key) >= 0 {
      WorkedIsNotNegative(auth, e, key);
    }
    var g, m := SegmentTime(auth, t, key), ManualTime(auth, t, key);
    SumOfNonNegative(g);
    SumOfNonNegative(m);
    assert forall k :: k in t.segments ==> k in g && g[k] == Worked(auth, SegmentEntry(t.sessions, t.segments[k]), key);
    assert forall k :: k in t.manual ==> k in m && m[k] == Worked(auth, ManualEntry(t.manual[k]), key);
  }

  ghost predicate Together(x: Authority, y: Authority, z: Authority) {
    forall start, end, day ::
        Authorized(x, start, end, day) == Authorized(y, start, end, day) + Authorized(z, start, end, day)
  }

  lemma TotalsAdd(x: Authority, y: Authority, z: Authority, t: Tables, key: DayKey)
    requires Together(x, y, z)
    ensures Total(x, t, key) == Total(y, t, key) + Total(z, t, key)
  {
    SumsAdd(SegmentTime(x, t, key), SegmentTime(y, t, key), SegmentTime(z, t, key));
    SumsAdd(ManualTime(x, t, key), ManualTime(y, t, key), ManualTime(z, t, key));
  }

  function PartUnder(a: AccountId, p: Period, start: int, end: int, day: int): int {
    if p.account == a then Part(p, start, end, day) else 0
  }

  lemma PartsOfMore(a: AccountId, ps: seq<Period>, p: Period, start: int, end: int, day: int)
    ensures Parts(a, ps + [p], start, end, day) == Parts(a, ps, start, end, day) + PartUnder(a, p, start, end, day)
    ensures Parts(a, [p], start, end, day) == PartUnder(a, p, start, end, day)
  {
    assert (ps + [p])[..|ps + [p]| - 1] == ps;
    assert [p][..0] == [];
  }

  lemma OnePeriodMore(a: AccountId, ps: seq<Period>, p: Period)
    ensures Together(Under(a, ps + [p]), Under(a, ps), Under(a, [p]))
  {
    forall start, end, day
      ensures Authorized(Under(a, ps + [p]), start, end, day)
           == Authorized(Under(a, ps), start, end, day) + Authorized(Under(a, [p]), start, end, day)
    {
      PartsOfMore(a, ps, p, start, end, day);
    }
  }

  /** Ending a period takes away what lies behind the end. */
  lemma EndingTakesTheRest(ps: seq<Period>, now: int)
    requires IsOpen(ps) && Closable(ps, now)
    ensures Together(Auth(ps), Auth(CloseLast(ps, now)), Under(LastAccount(ps), [Period(LastAccount(ps), now, None)]))
  {
    var a, older, last := LastAccount(ps), ps[..|ps| - 1], ps[|ps| - 1];
    assert ps == older + [last];
    forall start, end, day
      ensures Authorized(Auth(ps), start, end, day)
           == Authorized(Auth(CloseLast(ps, now)), start, end, day)
               + Authorized(Under(a, [Period(a, now, None)]), start, end, day)
    {
      PartsOfMore(a, older, last, start, end, day);
      PartsOfMore(a, older, last.(end := Some(now)), start, end, day);
      PartsOfMore(a, older, Period(a, now, None), start, end, day);
    }
  }

  lemma NoPeriodsNoTime(a: AccountId, t: Tables, key: DayKey)
    ensures !HasTime(Under(a, []), t, key)
  {}

  // ----- Exports over whole runs -----

  /** For one clean key: it stays exported exactly if no completed time of it is shifted. */
  lemma ShiftDecides(s: State, linked: map<TaskId, IntegrationId>, step: Step, key: DayKey)
    requires Sound(s) && Possible(s, step) && !step.Change? && !step.Stage? && Clean(s, linked, key)
    requires Exported(s, key) == AuthorizedTotal(s, key)
    ensures var pair := PairOf(key);
      Exported(Next(s, linked, step), key) == AuthorizedTotal(Next(s, linked, step), key)
      <==> !HasTime(Under(AccountAfter(s, step, pair), Shift(s, step, pair)), s.tables, key)
  {
    var pair := PairOf(key);
    var ps := PeriodsOf(s, pair);
    var shift := Shift(s, step, pair);
    var after := AccountAfter(s, step, pair);
    TotalIsTime(Under(after, shift), s.tables, key);
    var ps' := PeriodsOf(Next(s, linked, step), pair);
    if step.Connect? && step.pair == pair && LastAccount(ps) != after {
      assert ps' == shift;
    } else if step.Connect? && step.pair == pair && !IsOpen(ps) {
      OnePeriodMore(after, ps, shift[0]);
      TotalsAdd(Auth(ps'), Auth(ps), Under(after, shift), s.tables, key);
    } else if Disconnects(step) && Ends(step, pair) && IsOpen(ps) {
      EndingTakesTheRest(ps, step.now);
      TotalsAdd(Auth(ps), Auth(ps'), Under(after, shift), s.tables, key);
    } else {
      NoPeriodsNoTime(after, s.tables, key);
    }
  }

  lemma ChangeKeepsUpToDate(s: State, linked: map<TaskId, IntegrationId>, st: Statement)
    requires Sound(s) && UpToDate(s, linked) && Valid(s.tables, st)
    ensures UpToDate(Next(s, linked, Change(st)), linked)
  {
    var s' := Next(s, linked, Change(st));
    forall key | Clean(s', linked, key)
      ensures Exported(s', key) == AuthorizedTotal(s', key)
    {
      assert Clean(s, linked, key);
      UnmarkedIsUnchanged(Auth(PeriodsOf(s, PairOf(key))), s.tables, linked, st, key);
    }
  }

  /** A staged day is exported with its authorized total. */
  lemma StagedIsExported(s: State, days: set<DayKey>, key: DayKey)
    requires Sound(s) && Possible(s, Stage(days)) && key in days
    ensures Exported(StageDays(s, days), key) == AuthorizedTotal(s, key)
  {
    TotalIsTime(Auth(PeriodsOf(s, PairOf(key))), s.tables, key);
  }

  lemma StagingKeepsUpToDate(s: State, linked: map<TaskId, IntegrationId>, days: set<DayKey>)
    requires Sound(s) && UpToDate(s, linked) && Possible(s, Stage(days))
    ensures UpToDate(StageDays(s, days), linked)
  {
    var s' := StageDays(s, days);
    forall key | Clean(s', linked, key)
      ensures Exported(s', key) == AuthorizedTotal(s', key)
    {
      assert AuthorizedTotal(s', key) == AuthorizedTotal(s, key);
      if key in days {
        StagedIsExported(s, days, key);
      } else {
        assert Clean(s, linked, key);
      }
    }
  }

  /** A step leaves every clean day exported as it is now authorized, exactly if it shifts no completed time of a
      clean day into or out of the authorization. */
  lemma StaysUpToDate(s: State, linked: map<TaskId, IntegrationId>, step: Step)
    requires Sound(s) && UpToDate(s, linked) && Possible(s, step)
    ensures UpToDate(Next(s, linked, step), linked) <==> !Disturbs(s, linked, step)
  {
    if step.Change? || step.Stage? {
      forall key
        ensures !HasTime(Under(AccountAfter(s, step, PairOf(key)), Shift(s, step, PairOf(key))), s.tables, key)
      {
        NoPeriodsNoTime(AccountAfter(s, step, PairOf(key)), s.tables, key);
      }
      if step.Change? {
        ChangeKeepsUpToDate(s, linked, step.st);
      } else {
        StagingKeepsUpToDate(s, linked, step.days);
      }
    } else {
      forall key | Clean(s, linked, key)
        ensures Clean(Next(s, linked, step), linked, key)
        ensures Exported(Next(s, linked, step), key) == AuthorizedTotal(Next(s, linked, step), key)
          <==> !HasTime(Under(AccountAfter(s, step, PairOf(key)), Shift(s, step, PairOf(key))), s.tables, key)
      {
        ShiftDecides(s, linked, step, key);
      }
      assert forall key :: Clean(Next(s, linked, step), linked, key) ==> Clean(s, linked, key);
    }
  }

  ghost predicate PossibleRun(s: State, linked: map<TaskId, IntegrationId>, steps: seq<Step>)
    decreases |steps|
  {
    |steps| > 0 ==> Possible(s, steps[0]) && PossibleRun(Next(s, linked, steps[0]), linked, steps[1..])
  }

  ghost predicate AlwaysUpToDate(s: State, linked: map<TaskId, IntegrationId>, steps: seq<Step>)
    decreases |steps|
  {
    UpToDate(s, linked) && (|steps| > 0 ==> AlwaysUpToDate(Next(s, linked, steps[0]), linked, steps[1..]))
  }

  ghost predicate NothingDisturbs(s: State, linked: map<TaskId, IntegrationId>, steps: seq<Step>)
    decreases |steps|
  {
    |steps| > 0 ==> !Disturbs(s, linked, steps[0]) && NothingDisturbs(Next(s, linked, steps[0]), linked, steps[1..])
  }

  lemma {:induction false} UpToDateWhileUndisturbed(s: State, linked: map<TaskId, IntegrationId>, steps: seq<Step>)
    requires Sound(s) && UpToDate(s, linked) && PossibleRun(s, linked, steps)
    ensures AlwaysUpToDate(s, linked, steps) <==> NothingDisturbs(s, linked, steps)
    decreases |steps|
  {
    if |steps| > 0 {
      NextKeepsSound(s, linked, steps[0]);
      StaysUpToDate(s, linked, steps[0]);
      if !Disturbs(s, linked, steps[0]) {
        UpToDateWhileUndisturbed(Next(s, linked, steps[0]), linked, steps[1..]);
      }
    }
  }

  function Empty(): State { State(Tables([], map[], map[]), {}, map[], map[], map[]) }

  lemma EmptyIsUpToDate(linked: map<TaskId, IntegrationId>)
    ensures Sound(Empty()) && UpToDate(Empty(), linked)
  {
    forall key
      ensures AuthorizedTotal(Empty(), key) == 0
    {
      TotalIsTime(Auth([]), Empty().tables, key);
    }
  }

  /** Over every run of inserts, updates, deletes, stagings, connections and disconnections from empty tables: a linked
      day that is not on the dirty list is exported, at every moment, with exactly the completed time that is authorized
      for it, if and only if no connection or disconnection shifts the authorization of completed time on a day that is
      not on the list. */
  lemma ExportsNeverMissAChange(linked: map<TaskId, IntegrationId>, steps: seq<Step>)
    requires PossibleRun(Empty(), linked, steps)
    ensures AlwaysUpToDate(Empty(), linked, steps) <==> NothingDisturbs(Empty(), linked, steps)
  {
    EmptyIsUpToDate(linked);
    UpToDateWhileUndisturbed(Empty(), linked, steps);
  }

  // ----- The constraints of the tables -----

  /** Two users of an integration are not connected to one account. */
  ghost predicate AccountsAreApart(s: State) {
    forall p, q :: p in s.connections && q in s.connections && p != q && p.0 == q.0 ==>
      s.connections[p].account != s.connections[q].account
  }

  ghost predicate AreOrdered(ps: seq<Period>) {
    forall i :: 0 <= i < |ps| && ps[i].end.Some? ==> ps[i].start <= ps[i].end.value
  }

  ghost predicate PeriodsAreOrdered(s: State) {
    forall p :: p in s.periods ==> AreOrdered(s.periods[p])
  }

  /** What a connection or a disconnection demands beside the constraints. */
  ghost predicate IsAsked(s: State, step: Step) {
    match step
    case Connect(pair, c, _) =>
      c.enabled && forall k :: k in s.exports && (k.integration, k.user) == pair ==> s.exports[k].account == c.account
    case Disconnect(pair, _) => pair in s.connections && !s.connections[pair].site
    case _ => true
  }

  lemma OrderIsClosable(s: State, linked: map<TaskId, IntegrationId>, step: Step, pair: Pair)
    requires Sound(s) && PeriodsAreOrdered(s) && !step.Change? && !step.Stage?
    ensures AreOrdered(PeriodsOf(Next(s, linked, step), pair)) <==>
      var ps := PeriodsOf(s, pair);
      (IsOpen(ps) && EndsPeriod(step, pair, LastAccount(ps)) ==> Closable(ps, step.now))
  {
    var ps, after := PeriodsOf(s, pair), PeriodsOf(Next(s, linked, step), pair);
    PeriodsChange(s, linked, step, pair);
    if IsOpen(ps) {
      assert after[|ps| - 1] == if EndsPeriod(step, pair, LastAccount(ps)) then ps[|ps| - 1].(end := Some(step.now))
                                else ps[|ps| - 1];
    }
  }

  lemma OrderAfter(s: State, linked: map<TaskId, IntegrationId>, step: Step)
    requires Sound(s) && PeriodsAreOrdered(s) && !step.Change? && !step.Stage?
    ensures PeriodsAreOrdered(Next(s, linked, step)) <==>
      forall p :: p in s.periods && IsOpen(s.periods[p]) && EndsPeriod(step, p, LastAccount(s.periods[p])) ==>
        Closable(s.periods[p], step.now)
  {
    var s' := Next(s, linked, step);
    forall p
      ensures AreOrdered(PeriodsOf(s', p)) <==>
        var ps := PeriodsOf(s, p); (IsOpen(ps) && EndsPeriod(step, p, LastAccount(ps)) ==> Closable(ps, step.now))
    {
      OrderIsClosable(s, linked, step, p);
    }
    assert forall p :: p in s.periods ==> p in s'.periods && PeriodsOf(s, p) == s.periods[p];
    assert forall p :: p in s'.periods ==> PeriodsOf(s', p) == s'.periods[p];
  }

  lemma ApartAfter(s: State, linked: map<TaskId, IntegrationId>, step: Step)
    requires AccountsAreApart(s)
    ensures AccountsAreApart(Next(s, linked, step)) <==>
      (step.Connect? ==>
         forall p :: p in s.connections && p != step.pair && p.0 == step.pair.0 ==>
           s.connections[p].account != step.connection.account)
  {
    var before, after := s.connections, Next(s, linked, step).connections;
    assert forall p :: p in after && p in before && !(step.Connect? && p == step.pair) ==>
      after[p].account == before[p].account;
    if step.Connect? {
      assert after[step.pair] == step.connection;
      assert forall p :: p in before ==> p in after;
    }
  }

  /** A connection or a disconnection that is asked for is refused exactly if a table would break its constraint. */
  lemma RefusedForAConstraint(s: State, linked: map<TaskId, IntegrationId>, step: Step)
    requires Sound(s) && AccountsAreApart(s) && PeriodsAreOrdered(s) && !step.Change? && !step.Stage?
    ensures Possible(s, step) <==>
      IsAsked(s, step) && AccountsAreApart(Next(s, linked, step)) && PeriodsAreOrdered(Next(s, linked, step))
  {
    OrderAfter(s, linked, step);
    ApartAfter(s, linked, step);
  }

  lemma {:induction false} ConstraintsGoOn(s: State, linked: map<TaskId, IntegrationId>, steps: seq<Step>)
    requires Sound(s) && AccountsAreApart(s) && PeriodsAreOrdered(s) && PossibleRun(s, linked, steps)
    ensures AccountsAreApart(After(s, linked, steps)) && PeriodsAreOrdered(After(s, linked, steps))
    decreases |steps|
  {
    if |steps| > 0 {
      NextKeepsSound(s, linked, steps[0]);
      ApartAfter(s, linked, steps[0]);
      if !steps[0].Change? && !steps[0].Stage? {
        RefusedForAConstraint(s, linked, steps[0]);
      }
      ConstraintsGoOn(Next(s, linked, steps[0]), linked, steps[1..]);
    }
  }

  /** After every run from empty tables no two users of an integration are connected to one account, and no period ends
      before it starts. */
  lemma TheConstraintsHold(linked: map<TaskId, IntegrationId>, steps: seq<Step>)
    requires PossibleRun(Empty(), linked, steps)
    ensures AccountsAreApart(After(Empty(), linked, steps)) && PeriodsAreOrdered(After(Empty(), linked, steps))
  {
    ConstraintsGoOn(Empty(), linked, steps);
  }

  // ----- When a change of the authorization does no harm, and when it does -----

  predicate CompletedBy(t: Tables, now: int) {
    && (forall k :: k in t.segments && t.segments[k].end.Some? ==> t.segments[k].end.value <= now)
    && (forall k :: k in t.manual && t.manual[k].approved ==> t.manual[k].end <= now)
  }

  lemma {:induction false} PartsAreOfTheAccount(a: AccountId, ps: seq<Period>, start: int, end: int, day: int)
    requires forall p :: p in ps && p.account == a ==> end <= p.start
    ensures Parts(a, ps, start, end, day) == 0
  {
    if ps != [] {
      assert ps[|ps| - 1] in ps;
      PartsAreOfTheAccount(a, ps[..|ps| - 1], start, end, day);
    }
  }

  /** While no entry is completed ahead of the clock, only a return to an account after another one was connected
      can take a clean day out of step. */
  lemma OnlyAReturnDisturbs(s: State, linked: map<TaskId, IntegrationId>, step: Step)
    requires Sound(s) && Possible(s, step) && !step.Change? && !step.Stage? && CompletedBy(s.tables, step.now)
    requires step.Connect? && LastAccount(PeriodsOf(s, step.pair)) != step.connection.account ==>
               forall p :: p in PeriodsOf(s, step.pair) ==> p.account != step.connection.account
    ensures !Disturbs(s, linked, step)
  {
    forall key
      ensures !HasTime(Under(AccountAfter(s, step, PairOf(key)), Shift(s, step, PairOf(key))), s.tables, key)
    {
      var a, shift := AccountAfter(s, step, PairOf(key)), Shift(s, step, PairOf(key));
      assert forall p :: p in shift && p.account == a ==> p.start == step.now by {
        ShiftStartsNow(s, step, PairOf(key));
      }
      forall start, end | end <= step.now
        ensures Parts(a, shift, start, end, key.day) == 0
      {
        PartsAreOfTheAccount(a, shift, start, end, key.day);
      }
    }
  }

  lemma ShiftStartsNow(s: State, step: Step, pair: Pair)
    requires !step.Change? && !step.Stage?
    requires step.Connect? && LastAccount(PeriodsOf(s, step.pair)) != step.connection.account ==>
               forall p :: p in PeriodsOf(s, step.pair) ==> p.account != step.connection.account
    ensures forall p :: p in Shift(s, step, pair) && p.account == AccountAfter(s, step, pair) ==> p.start == step.now
  {
    var ps := PeriodsOf(s, pair);
    if IsOpen(ps) {
      var last := ps[|ps| - 1];
      assert last in ps;
      assert forall p :: p in CloseLast(ps, step.now) ==> p in ps || p == last.(end := Some(step.now));
    }
  }

  const HOUR: int := 60 * MINUTE

  function TheTask(): map<TaskId, IntegrationId> { map[0 := 0] }

  function TheDay(): DayKey { DayKey(0, 0, 0, 0) }

  function TheSession(): Session {
    Session(Some(0), 0, Some(0), Some(0), Active, HOUR, None, HOUR)
  }

  function OneHour(): Segment { Segment(0, HOUR, Some(2 * HOUR)) }

  function TheTables(): Tables { Tables([TheSession()], map[0 := OneHour()], map[]) }

  lemma NothingCounts(auth: Authority, t: Tables, key: DayKey)
    requires t.segments == map[] && t.manual == map[]
    ensures Total(auth, t, key) == 0
  {
    TotalIsTime(auth, t, key);
  }

  lemma OneSegmentCounts(auth: Authority, t: Tables, k: nat, g: Segment, key: DayKey)
    requires t.segments == map[] && t.manual == map[]
    ensures Total(auth, t.(segments := map[k := g]), key) == Worked(auth, SegmentEntry(t.sessions, g), key)
  {
    NothingCounts(auth, t, key);
    PutSegmentTotal(auth, t, k, g, key);
    assert t.segments[k := g] == map[k := g];
  }

  /** The one hour counts as far as it is authorized. */
  lemma TheHourCounts(auth: Authority, t: Tables, key: DayKey)
    requires t == TheTables() && key == TheDay()
    ensures Total(auth, t, key) == Authorized(auth, HOUR, 2 * HOUR, 0)
  {
    var sessions := t.sessions;
    OneSegmentCounts(auth, Tables(sessions, map[], map[]), 0, OneHour(), key);
    assert Concerns(SegmentEntry(sessions, OneHour()), key);
  }

  lemma TheHourIsMarked()
    ensures DayOf(HOUR) == 0 && DayOf(2 * HOUR - 1) == 0
    ensures Marked(Tables([TheSession()], map[], map[]), TheTask(), PutSegment(0, OneHour())) == {TheDay()}
  {
    DayBounds(HOUR, 0);
    DayBounds(2 * HOUR - 1, 0);
  }

  ghost function After(s: State, linked: map<TaskId, IntegrationId>, steps: seq<Step>): State
    decreases |steps|
  {
    if |steps| == 0 then s else After(Next(s, linked, steps[0]), linked, steps[1..])
  }

  lemma {:induction false} OneMoreStep(s: State, linked: map<TaskId, IntegrationId>, steps: seq<Step>, step: Step)
    requires PossibleRun(s, linked, steps) && Possible(After(s, linked, steps), step)
    ensures PossibleRun(s, linked, steps + [step])
    ensures After(s, linked, steps + [step]) == Next(After(s, linked, steps), linked, step)
    decreases |steps|
  {
    assert (steps + [step])[0] == if steps == [] then step else steps[0];
    if |steps| > 0 {
      assert (steps + [step])[1..] == steps[1..] + [step];
      OneMoreStep(Next(s, linked, steps[0]), linked, steps[1..], step);
    } else {
      assert (steps + [step])[1..] == [];
    }
  }

  /** The hour is completed and its day is marked. */
  lemma TheHourIsRecorded(steps: seq<Step>) returns (more: seq<Step>)
    requires PossibleRun(Empty(), TheTask(), steps)
    requires var s := After(Empty(), TheTask(), steps); s.tables == Tables([], map[], map[]) && s.dirty == {}
    ensures PossibleRun(Empty(), TheTask(), more)
    ensures After(Empty(), TheTask(), more)
         == After(Empty(), TheTask(), steps).(tables := TheTables(), dirty := {TheDay()})
  {
    OneMoreStep(Empty(), TheTask(), steps, Change(NewSession(TheSession())));
    more := steps + [Change(NewSession(TheSession()))];
    OneMoreStep(Empty(), TheTask(), more, Change(PutSegment(0, OneHour())));
    more := more + [Change(PutSegment(0, OneHour()))];
    TheHourIsMarked();
  }

  /** Staging takes the day off the list, and if none of it is authorized it writes no export. */
  lemma TheHourIsStaged(steps: seq<Step>, account: AccountId, ps: seq<Period>) returns (more: seq<Step>)
    requires PossibleRun(Empty(), TheTask(), steps)
    requires var s := After(Empty(), TheTask(), steps);
      && s.tables == TheTables() && s.dirty == {TheDay()} && s.exports == map[]
      && s.connections == map[(0, 0) := Connection(account, false, true)] && s.periods == map[(0, 0) := ps]
      && Parts(account, ps, HOUR, 2 * HOUR, 0) == 0
    ensures PossibleRun(Empty(), TheTask(), more)
    ensures After(Empty(), TheTask(), more) == After(Empty(), TheTask(), steps).(dirty := {})
  {
    var s := After(Empty(), TheTask(), steps);
    TheHourCounts(Under(account, ps), s.tables, TheDay());
    assert Staged(s, TheDay()) == None;
    OneMoreStep(Empty(), TheTask(), steps, Stage({TheDay()}));
    more := steps + [Stage({TheDay()})];
    assert After(Empty(), TheTask(), more).exports == map[];
  }

  /** Work that was done before its author connected an account is never exported: its day leaves the dirty list
      without an export. */
  lemma WorkBeforeTheConnectionIsNotExported() returns (steps: seq<Step>)
    ensures PossibleRun(Empty(), TheTask(), steps)
    ensures var s := After(Empty(), TheTask(), steps);
      && TheDay() !in s.dirty && TheDay() !in s.exports && (0, 0) in s.connections
      && Total(Everything, s.tables, TheDay()) == HOUR && AuthorizedTotal(s, TheDay()) == 0
  {
    steps := TheHourIsRecorded([]);
    var connect := Connect((0, 0), Connection(1, false, true), 3 * HOUR);
    OneMoreStep(Empty(), TheTask(), steps, connect);
    steps := steps + [connect];
    var ps := [Period(1, 3 * HOUR, None)];
    PartsOfMore(1, [], ps[0], HOUR, 2 * HOUR, 0);
    assert [] + [ps[0]] == ps;
    assert After(Empty(), TheTask(), steps).connections == map[(0, 0) := connect.connection];
    assert After(Empty(), TheTask(), steps).periods == map[(0, 0) := ps];
    steps := TheHourIsStaged(steps, 1, ps);
    AllOfTheHour(After(Empty(), TheTask(), steps).tables, TheDay());
    NoneOfTheHour(After(Empty(), TheTask(), steps), TheDay(), ps);
  }

  lemma HourOfTheDay(start: int, end: int, day: int)
    requires start == HOUR && end == 2 * HOUR && day == 0
    ensures Overlap(start, end, day) == HOUR
  {}

  lemma AllOfTheHour(t: Tables, key: DayKey)
    requires t == TheTables() && key == TheDay()
    ensures Total(Everything, t, key) == HOUR
  {
    HourOfTheDay(HOUR, 2 * HOUR, 0);
    TheHourCounts(Everything, t, key);
  }

  lemma NoneOfTheHour(s: State, key: DayKey, ps: seq<Period>)
    requires s.tables == TheTables() && key == TheDay()
    requires PeriodsOf(s, (0, 0)) == ps && Parts(LastAccount(ps), ps, HOUR, 2 * HOUR, 0) == 0
    ensures AuthorizedTotal(s, key) == 0
  {
    TheHourCounts(Auth(ps), s.tables, key);
  }

  /** Changing the account and back loses a day: the hour was worked while the first account was connected, the
      second one makes staging drop its day, and the first one is responsible for it again at the end. */
  lemma ReturningToAnAccountLosesADay() returns (steps: seq<Step>)
    ensures PossibleRun(Empty(), TheTask(), steps)
    ensures var s := After(Empty(), TheTask(), steps);
      && TheDay() !in s.dirty && TheDay() !in s.exports && (0, 0) in s.connections
      && AuthorizedTotal(s, TheDay()) == HOUR && !UpToDate(s, TheTask())
  {
    var first, second := Connection(1, false, true), Connection(2, false, true);
    OneMoreStep(Empty(), TheTask(), [], Connect((0, 0), first, 0));
    steps := TheHourIsRecorded([Connect((0, 0), first, 0)]);
    assert Opened([], 1, 0) == [Period(1, 0, None)];
    assert After(Empty(), TheTask(), steps).periods == map[(0, 0) := [Period(1, 0, None)]];
    assert After(Empty(), TheTask(), steps).connections == map[(0, 0) := first];
    steps := TheAccountIsChanged(steps, first, second);
    var ps := [Period(1, 0, Some(3 * HOUR)), Period(2, 3 * HOUR, None)];
    PartsOfMore(2, [], ps[0], HOUR, 2 * HOUR, 0);
    PartsOfMore(2, [ps[0]], ps[1], HOUR, 2 * HOUR, 0);
    assert [ps[0]] + [ps[1]] == ps && [] + [ps[0]] == [ps[0]];
    steps := TheHourIsStaged(steps, 2, ps);
    OneMoreStep(Empty(), TheTask(), steps, Connect((0, 0), first, 4 * HOUR));
    steps := steps + [Connect((0, 0), first, 4 * HOUR)];
    TheReturn(After(Empty(), TheTask(), steps), TheDay(), ps);
  }

  lemma TheAccountIsChanged(steps: seq<Step>, first: Connection, second: Connection) returns (more: seq<Step>)
    requires PossibleRun(Empty(), TheTask(), steps) && second.account != first.account && second.enabled && !second.site
    requires var s := After(Empty(), TheTask(), steps);
      && s.exports == map[] && s.connections == map[(0, 0) := first]
      && s.periods == map[(0, 0) := [Period(first.account, 0, None)]]
    ensures PossibleRun(Empty(), TheTask(), more)
    ensures After(Empty(), TheTask(), more) == After(Empty(), TheTask(), steps).(
      connections := map[(0, 0) := second],
      periods := map[(0, 0) := [Period(first.account, 0, Some(3 * HOUR)), Period(second.account, 3 * HOUR, None)]])
  {
    var s := After(Empty(), TheTask(), steps);
    var change := Connect((0, 0), second, 3 * HOUR);
    var ps := PeriodsOf(s, (0, 0));
    assert ps == [Period(first.account, 0, None)] && ps[..0] == [];
    assert Opened(ps, second.account, 3 * HOUR)
        == [Period(first.account, 0, Some(3 * HOUR)), Period(second.account, 3 * HOUR, None)];
    OneMoreStep(Empty(), TheTask(), steps, change);
    more := steps + [change];
    assert SwitchedOff(s.connections, (0, 0), second)[(0, 0) := second] == map[(0, 0) := second];
  }

  lemma TheReturn(s: State, key: DayKey, ps: seq<Period>)
    requires key == TheDay() && ps == [Period(1, 0, Some(3 * HOUR)), Period(2, 3 * HOUR, None)]
    requires s.tables == TheTables() && s.dirty == {} && s.exports == map[]
    requires PeriodsOf(s, (0, 0)) == CloseLast(ps, 4 * HOUR) + [Period(1, 4 * HOUR, None)]
    ensures AuthorizedTotal(s, key) == HOUR && !UpToDate(s, TheTask())
  {
    var qs := PeriodsOf(s, (0, 0));
    assert [] + [qs[0]] == [qs[0]] && [qs[0]] + [qs[1]] == [qs[0], qs[1]] && [qs[0], qs[1]] + [qs[2]] == qs;
    PartsOfMore(1, [], qs[0], HOUR, 2 * HOUR, 0);
    PartsOfMore(1, [qs[0]], qs[1], HOUR, 2 * HOUR, 0);
    PartsOfMore(1, [qs[0], qs[1]], qs[2], HOUR, 2 * HOUR, 0);
    TheHourCounts(Auth(qs), s.tables, key);
    assert Clean(s, TheTask(), key);
  }

  // ----- The trigger functions in place -----

  class WorklogStore {
    var tables: Tables
    var dirty: set<DayKey>
    const linked: map<TaskId, IntegrationId>

    constructor (linked: map<TaskId, IntegrationId>)
      ensures tables == Tables([], map[], map[]) && dirty == {} && this.linked == linked
    {
      this.linked := linked;
      tables, dirty := Tables([], map[], map[]), {};
    }

    method Enqueue(e: Entry)
      modifies this`dirty
      ensures dirty == old(dirty) + Marks(linked, e)
      ensures forall key :: key in dirty <==>
        key in old(dirty) || (e.end.Some? && Touches(linked, e.user, e.task, e.start, e.end.value, key))
    {
      forall key
        ensures key in Marks(linked, e) <==> e.end.Some? && Touches(linked, e.user, e.task, e.start, e.end.value, key)
      {
        MarksTouched(linked, e, key);
      }
      if e.user.None? || e.task.None? || e.end.None? || e.end.value <= e.start {
        return;
      }
      if e.task.value !in linked {
        return;
      }
      var day := DayOf(e.start);
      var last := DayOf(e.end.value - 1);
      ghost var first := day;
      while day <= last
        invariant first <= day <= last + 1
        invariant dirty == old(dirty)
          + set d | first <= d < day :: DayKey(linked[e.task.value], e.user.value, e.task.value, d)
        decreases last - day
      {
        dirty := dirty + {DayKey(linked[e.task.value], e.user.value, e.task.value, day)};
        day := day + 1;
      }
    }

    /** An insert or an update of a segment row, with its trigger. */
    method WriteSegment(id: nat, g: Segment)
      requires g.session < |tables.sessions|
      modifies this`tables, this`dirty
      ensures tables == Execute(old(tables), PutSegment(id, g))
      ensures tables == old(tables).(segments := tables.segments)
      ensures id in tables.segments && tables.segments[id] == g && tables.segments - {id} == old(tables).segments - {id}
      ensures dirty == old(dirty) + Marked(old(tables), linked, PutSegment(id, g))
    {
      if id in tables.segments {
        Enqueue(SegmentEntry(tables.sessions, tables.segments[id]));
      }
      Enqueue(SegmentEntry(tables.sessions, g));
      tables := tables.(segments := tables.segments[id := g]);
    }

    method DeleteSegment(id: nat)
      modifies this`tables, this`dirty
      ensures tables == Execute(old(tables), DropSegment(id))
      ensures tables == old(tables).(segments := tables.segments) && tables.segments == old(tables).segments - {id}
      ensures dirty == old(dirty) + Marked(old(tables), linked, DropSegment(id))
    {
      if id in tables.segments {
        Enqueue(SegmentEntry(tables.sessions, tables.segments[id]));
      }
      tables := tables.(segments := tables.segments - {id});
    }

    /** An insert or an update of a manual entry, with its trigger. */
    method WriteManual(id: nat, m: Manual)
      modifies this`tables, this`dirty
      ensures tables == Execute(old(tables), PutManual(id, m))
      ensures tables == old(tables).(manual := tables.manual)
      ensures id in tables.manual && tables.manual[id] == m && tables.manual - {id} == old(tables).manual - {id}
      ensures dirty == old(dirty) + Marked(old(tables), linked, PutManual(id, m))
    {
      if id in tables.manual {
        Enqueue(ManualEntry(tables.manual[id]));
      }
      Enqueue(ManualEntry(m));
      tables := tables.(manual := tables.manual[id := m]);
    }

    method DeleteManual(id: nat)
      modifies this`tables, this`dirty
      ensures tables == Execute(old(tables), DropManual(id))
      ensures tables == old(tables).(manual := tables.manual) && tables.manual == old(tables).manual - {id}
      ensures dirty == old(dirty) + Marked(old(tables), linked, DropManual(id))
    {
      if id in tables.manual {
        Enqueue(ManualEntry(tables.manual[id]));
      }
      tables := tables.(manual := tables.manual - {id});
    }
  }
}
