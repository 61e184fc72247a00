/** Pay periods on the Gregorian calendar, the timesheets generated for them, and the time each one counts. */
module PayPeriods {
  import opened Records
  import Intervals
  import ServerRuns
  import TrackingWindows

  // ----- The calendar -----

  datatype Date = Date(year: int, month: int, day: int)

  predicate IsLeap(year: int) { year % 4 == 0 && (year % 100 != 0 || year % 400 == 0) }

  function DaysIn(year: int, month: int): int {
    if month == 2 then (if IsLeap(year) then 29 else 28)
    else if month == 4 || month == 6 || month == 9 || month == 11 then 30
    else 31
  }

  predicate IsDate(d: Date) { 1 <= d.month <= 12 && 1 <= d.day <= DaysIn(d.year, d.month) }

  function NextDay(d: Date): (next: Date)
    requires IsDate(d)
    ensures IsDate(next)
  {
    if d.day < DaysIn(d.year, d.month) then d.(day := d.day + 1)
    else if d.month < 12 then Date(d.year, d.month + 1, 1)
    else Date(d.year + 1, 1, 1)
  }

  function PreviousDay(d: Date): (previous: Date)
    requires IsDate(d)
    ensures IsDate(previous)
  {
    if d.day > 1 then d.(day := d.day - 1)
    else if d.month > 1 then Date(d.year, d.month - 1, DaysIn(d.year, d.month - 1))
    else Date(d.year - 1, 12, 31)
  }

  /** `date + timedelta(days=n)`, day by day. */
  function Plus(d: Date, n: int): (later: Date)
    requires IsDate(d)
    ensures IsDate(later)
    decreases if n >= 0 then n else -n
  {
    if n == 0 then d
    else if n > 0 then NextDay(Plus(d, n - 1))
    else PreviousDay(Plus(d, n + 1))
  }

  // ----- Counting days -----

  function DaysBeforeYear(year: int): int {
    365 * (year - 1) + (year - 1) / 4 - (year - 1) / 100 + (year - 1) / 400
  }

  function DaysBeforeMonth(year: int, month: int): int
    requires 1 <= month
  {
    if month == 1 then 0 else DaysBeforeMonth(year, month - 1) + DaysIn(year, month - 1)
  }

  /** Days since 1 January 1970. */
  function Ordinal(d: Date): int
    requires IsDate(d)
  {
    DaysBeforeYear(d.year) + DaysBeforeMonth(d.year, d.month) + d.day - 1 - 719_162
  }

  lemma QuartersStep(n: int)
    ensures n / 4 == (n - 1) / 4 + if n % 4 == 0 then 1 else 0
  {}

  lemma CenturiesStep(n: int)
    ensures n / 100 == (n - 1) / 100 + if n % 100 == 0 then 1 else 0
  {}

  lemma CyclesStep(n: int)
    ensures n / 400 == (n - 1) / 400 + if n % 400 == 0 then 1 else 0
  {}

  lemma LeapNests(n: int)
    ensures n % 400 == 0 ==> n % 100 == 0
    ensures n % 100 == 0 ==> n % 4 == 0
  {}

  lemma YearLength(year: int)
    ensures DaysBeforeMonth(year, 12) + 31 == if IsLeap(year) then 366 else 365
    ensures DaysBeforeYear(year + 1) == DaysBeforeYear(year) + DaysBeforeMonth(year, 12) + 31
  {
    MonthStarts(year);
    QuartersStep(year);
    CenturiesStep(year);
    CyclesStep(year);
    LeapNests(year);
    LeapDay(year);
  }

  lemma LeapDay(year: int)
    requires year / 4 == (year - 1) / 4 + if year % 4 == 0 then 1 else 0
    requires year / 100 == (year - 1) / 100 + if year % 100 == 0 then 1 else 0
    requires year / 400 == (year - 1) / 400 + if year % 400 == 0 then 1 else 0
    requires (year % 400 == 0 ==> year % 100 == 0) && (year % 100 == 0 ==> year % 4 == 0)
    ensures DaysBeforeYear(year + 1) == DaysBeforeYear(year) + if IsLeap(year) then 366 else 365
  {}

  lemma MonthStarts(year: int)
    ensures DaysBeforeMonth(year, 12) == if IsLeap(year) then 335 else 334
  {
    assert DaysBeforeMonth(year, 2) == 31;
    assert DaysBeforeMonth(year, 4) == DaysBeforeMonth(year, 3) + 31;
    assert DaysBeforeMonth(year, 6) == DaysBeforeMonth(year, 5) + 31;
    assert DaysBeforeMonth(year, 8) == DaysBeforeMonth(year, 7) + 31;
    assert DaysBeforeMonth(year, 10) == DaysBeforeMonth(year, 9) + 30;
    assert DaysBeforeMonth(year, 12) == DaysBeforeMonth(year, 11) + 30;
  }

  /** The formula counts days: it starts at zero and goes up by one from each date to the next. */
  lemma OrdinalCountsDays(d: Date)
    requires IsDate(d)
    ensures Ordinal(NextDay(d)) == Ordinal(d) + 1
    ensures Ordinal(PreviousDay(d)) == Ordinal(d) - 1
    ensures Ordinal(Date(1970, 1, 1)) == 0
  {
    NextDayIsOneMore(d);
    PreviousDayIsOneLess(d);
  }

  lemma NextDayIsOneMore(d: Date)
    requires IsDate(d)
    ensures Ordinal(NextDay(d)) == Ordinal(d) + 1
  {
    YearLength(d.year);
  }

  lemma PreviousDayIsOneLess(d: Date)
    requires IsDate(d)
    ensures Ordinal(PreviousDay(d)) == Ordinal(d) - 1
  {
    YearLength(d.year - 1);
  }

  lemma {:induction false} PlusCounts(d: Date, n: int)
    requires IsDate(d)
    ensures Ordinal(Plus(d, n)) == Ordinal(d) + n
    decreases if n >= 0 then n else -n
  {
    if n > 0 {
      PlusCounts(d, n - 1);
      OrdinalCountsDays(Plus(d, n - 1));
    } else if n < 0 {
      PlusCounts(d, n + 1);
      OrdinalCountsDays(Plus(d, n + 1));
    }
  }

  lemma {:induction false} MonthsGrow(year: int, month: int, later: int)
    requires 1 <= month < later <= 13
    ensures DaysBeforeMonth(year, month) + DaysIn(year, month) <= DaysBeforeMonth(year, later)
  {
    if month < later - 1 {
      MonthsGrow(year, month, later - 1);
    }
  }

  lemma {:induction false} YearsGrow(year: int, later: int)
    requires year < later
    ensures DaysBeforeYear(year) + DaysBeforeMonth(year, 12) + 31 <= DaysBeforeYear(later)
    decreases later - year
  {
    YearLength(later - 1);
    if year < later - 1 {
      YearsGrow(year, later - 1);
    }
  }

  predicate Before(a: Date, b: Date) {
    a.year < b.year || (a.year == b.year && (a.month < b.month || (a.month == b.month && a.day < b.day)))
  }

  /** Later dates have larger numbers, so a date is known by its number. */
  lemma OrdinalGrows(a: Date, b: Date)
    requires IsDate(a) && IsDate(b)
    ensures Before(a, b) <==> Ordinal(a) < Ordinal(b)
  {
    if Before(a, b) {
      OrdinalGrowsOneWay(a, b);
    } else if a != b {
      OrdinalGrowsOneWay(b, a);
    }
  }

  lemma OrdinalGrowsOneWay(a: Date, b: Date)
    requires IsDate(a) && IsDate(b) && Before(a, b)
    ensures Ordinal(a) < Ordinal(b)
  {
    if a.year < b.year {
      YearsGrow(a.year, b.year);
      if a.month < 12 {
        MonthsGrow(a.year, a.month, 12);
      }
      if 1 < b.month {
        MonthsGrow(b.year, 1, b.month);
      }
    } else if a.month < b.month {
      MonthsGrow(a.year, a.month, b.month);
    }
  }

  lemma OrdinalTellsDates(a: Date, b: Date)
    requires IsDate(a) && IsDate(b) && Ordinal(a) == Ordinal(b)
    ensures a == b
  {
    OrdinalGrows(a, b);
    OrdinalGrows(b, a);
  }

  /** The date with a number; date arithmetic is arithmetic on numbers. */
  function Civil(n: int): (d: Date)
    ensures IsDate(d)
  {
    Plus(Date(1970, 1, 1), n)
  }

  lemma DatesAreNumbers(d: Date, n: int)
    requires IsDate(d)
    ensures Ordinal(Civil(n)) == n && Civil(Ordinal(d)) == d
  {
    PlusCounts(Date(1970, 1, 1), n);
    PlusCounts(Date(1970, 1, 1), Ordinal(d));
    OrdinalTellsDates(Civil(Ordinal(d)), d);
  }

  // ----- Periods -----

  /** A week starts on Sunday (0) to Saturday (6). */
  datatype Frequency = Weekly(startsOn: int) | Biweekly | Monthly

  /** First and last day, by number. */
  datatype Period = Period(start: int, end: int)

  /** Monday is 0, and 1 January 1970 was a Thursday. */
  function Weekday(day: int): int { (day + 3) % 7 }

  /** 5 January 1970. */
  const ANCHOR := 4

  /** The period that `generate_open_timesheets` works out for a day. */
  function PeriodOf(frequency: Frequency, today: int): Period {
    match frequency
    case Monthly =>
      var start := Civil(today).(day := 1);
      var nextMonth := Plus(start.(day := 28), 4).(day := 1);
      Period(Ordinal(start), Ordinal(nextMonth) - 1)
    case Biweekly =>
      var start := ANCHOR + (today - ANCHOR) / 14 * 14;
      Period(start, start + 13)
    case Weekly(startsOn) =>
      var weekday := if startsOn == 0 then 6 else startsOn - 1;
      var start := today - (Weekday(today) - weekday) % 7;
      Period(start, start + 6)
  }

  // ----- Every frequency cuts the calendar into periods -----

  predicate Inside(p: Period, day: int) { p.start <= day <= p.end }

  lemma FourDaysAfterThe28th(d: Date)
    requires IsDate(d) && d.day == 28
    ensures Plus(d, 4) == NextDay(d.(day := DaysIn(d.year, d.month))).(day := 32 - DaysIn(d.year, d.month))
  {
    var d1 := NextDay(d);
    var d2 := NextDay(d1);
    var d3 := NextDay(d2);
    assert Plus(d, 1) == d1 by { assert Plus(d, 0) == d; }
    assert Plus(d, 2) == d2;
    assert Plus(d, 3) == d3;
    assert Plus(d, 4) == NextDay(d3);
  }

  /** A monthly period is the calendar month, in leap years too. */
  lemma MonthlyIsTheMonth(today: int)
    ensures var d := Civil(today);
            PeriodOf(Monthly, today) == Period(Ordinal(d.(day := 1)), Ordinal(d.(day := DaysIn(d.year, d.month))))
  {
    var d := Civil(today);
    var last := d.(day := DaysIn(d.year, d.month));
    FourDaysAfterThe28th(d.(day := 28));
    assert Plus(d.(day := 28), 4).(day := 1) == NextDay(last);
    OrdinalCountsDays(last);
  }

  lemma DaysOfTheMonth(d: Date, other: Date)
    requires IsDate(d) && IsDate(other)
    ensures Ordinal(d.(day := 1)) <= Ordinal(other) <= Ordinal(d.(day := DaysIn(d.year, d.month)))
       <==> other.year == d.year && other.month == d.month
  {
    OrdinalGrows(other, d.(day := 1));
    OrdinalGrows(d.(day := DaysIn(d.year, d.month)), other);
  }

  /** A day is in a monthly period exactly when it is of the same month. */
  lemma InsideTheMonth(today: int, other: int)
    ensures Inside(PeriodOf(Monthly, today), other)
       <==> Civil(other).year == Civil(today).year && Civil(other).month == Civil(today).month
  {
    MonthlyIsTheMonth(today);
    DatesAreNumbers(Civil(other), other);
    DaysOfTheMonth(Civil(today), Civil(other));
  }

  /** A day lies in its period. */
  lemma PeriodContainsToday(frequency: Frequency, today: int)
    ensures Inside(PeriodOf(frequency, today), today)
  {
    if frequency.Monthly? {
      InsideTheMonth(today, today);
    }
  }

  lemma WeekOf(today: int, weekday: int, other: int)
    requires today - (Weekday(today) - weekday) % 7 <= other <= today - (Weekday(today) - weekday) % 7 + 6
    ensures other - (Weekday(other) - weekday) % 7 == today - (Weekday(today) - weekday) % 7
  {
    RemainderOfRemainder(today + 3, weekday);
    RemainderOfRemainder(other + 3, weekday);
    SameBlock(today + 3 - weekday, other + 3 - weekday);
  }

  lemma RemainderOfRemainder(n: int, w: int)
    ensures (n % 7 - w) % 7 == (n - w) % 7
  {}

  lemma SameBlock(n: int, m: int)
    requires n - n % 7 <= m <= n - n % 7 + 6
    ensures m - m % 7 == n - n % 7
  {}

  /** All the days of a period have that same period. */
  lemma OnePeriodPerDay(frequency: Frequency, today: int, other: int)
    requires Inside(PeriodOf(frequency, today), other)
    ensures PeriodOf(frequency, other) == PeriodOf(frequency, today)
  {
    match frequency
    case Monthly =>
      InsideTheMonth(today, other);
      MonthlyIsTheMonth(today);
      MonthlyIsTheMonth(other);
    case Weekly(startsOn) => WeekOf(today, if startsOn == 0 then 6 else startsOn - 1, other);
    case Biweekly =>
  }

  /** Two periods of one frequency are the same or have no day in common. */
  lemma EqualOrDisjoint(frequency: Frequency, a: int, b: int, day: int)
    requires Inside(PeriodOf(frequency, a), day) && Inside(PeriodOf(frequency, b), day)
    ensures PeriodOf(frequency, a) == PeriodOf(frequency, b)
  {
    OnePeriodPerDay(frequency, a, day);
    OnePeriodPerDay(frequency, b, day);
  }

  function Following(frequency: Frequency, p: Period): Period { PeriodOf(frequency, p.end + 1) }

  lemma WeeksTile(today: int, weekday: int)
    ensures var start := today - (Weekday(today) - weekday) % 7;
            start + 7 - (Weekday(start + 7) - weekday) % 7 == start + 7
  {
    RemainderOfRemainder(today + 3, weekday);
    RemainderOfRemainder(today - (Weekday(today) - weekday) % 7 + 10, weekday);
    StartsAreAligned(today + 3 - weekday);
  }

  lemma StartsAreAligned(n: int)
    ensures (n - n % 7 + 7) % 7 == 0
  {}

  lemma MonthsTile(today: int)
    ensures Following(Monthly, PeriodOf(Monthly, today)).start == PeriodOf(Monthly, today).end + 1
  {
    var d := Civil(today);
    var end := Ordinal(d.(day := DaysIn(d.year, d.month)));
    TheNextMonthFollows(d);
    assert PeriodOf(Monthly, today).end == end by {
      MonthlyIsTheMonth(today);
    }
    FollowingIsAt(PeriodOf(Monthly, today), end);
  }

  lemma FollowingIsAt(p: Period, end: int)
    requires p.end == end && PeriodOf(Monthly, end + 1).start == end + 1
    ensures Following(Monthly, p).start == p.end + 1
  {}

  lemma TheNextMonthFollows(d: Date)
    requires IsDate(d)
    ensures var last := Ordinal(d.(day := DaysIn(d.year, d.month))); PeriodOf(Monthly, last + 1).start == last + 1
  {
    var last := d.(day := DaysIn(d.year, d.month));
    OrdinalCountsDays(last);
    assert NextDay(last).day == 1;
    FirstStartsItsMonth(NextDay(last));
  }

  lemma FirstStartsItsMonth(d: Date)
    requires IsDate(d) && d.day == 1
    ensures PeriodOf(Monthly, Ordinal(d)).start == Ordinal(d)
  {
    DatesAreNumbers(d, 0);
    MonthlyIsTheMonth(Ordinal(d));
  }

  /** The next period starts the day after: no day falls between two periods. */
  lemma PeriodsTile(frequency: Frequency, today: int)
    ensures Following(frequency, PeriodOf(frequency, today)).start == PeriodOf(frequency, today).end + 1
  {
    match frequency
    case Monthly => MonthsTile(today);
    case Weekly(startsOn) => WeeksTile(today, if startsOn == 0 then 6 else startsOn - 1);
    case Biweekly =>
  }

  /** Dates and weekdays go on together, and the windows of the agent's schedules are placed on the same weeks. */
  lemma WeekdaysFollowTheCalendar(n: int)
    ensures Civil(n + 1) == NextDay(Civil(n))
    ensures Weekday(n + 1) == if Weekday(n) == 6 then 0 else Weekday(n) + 1
    ensures TrackingWindows.Weekday(n) == Weekday(n)
  {
    DatesFollow(n);
  }

  lemma DatesFollow(n: int)
    ensures Civil(n + 1) == NextDay(Civil(n))
  {
    var next := NextDay(Civil(n));
    OrdinalCountsDays(Civil(n));
    DatesAreNumbers(Civil(n), n);
    DatesAreNumbers(next, n);
  }

  /** 5 January 1970 was a Monday. */
  lemma FifthOfJanuary(d: Date)
    requires d == Date(1970, 1, 5)
    ensures Ordinal(d) == 4 == TrackingWindows.DateOf(0, 0) && Weekday(Ordinal(d)) == 0 && Civil(Ordinal(d)) == d
  {
    var first := d.(day := 1);
    FirstOfJanuary(first);
    LaterInTheMonth(first, d.day);
    DatesAreNumbers(d, 0);
  }

  lemma FirstOfJanuary(d: Date)
    requires d == Date(1970, 1, 1)
    ensures Ordinal(d) == 0
  {
    OrdinalCountsDays(d);
  }

  lemma LaterInTheMonth(d: Date, day: int)
    requires IsDate(d) && IsDate(d.(day := day))
    ensures Ordinal(d.(day := day)) == Ordinal(d) + day - d.day
  {}

  /** What makes a stretch of days a pay period: a week from the configured weekday (0 being Sunday, and 4 January 1970
      one), two weeks counted from 5 January 1970, or a calendar month. */
  predicate IsPayPeriod(frequency: Frequency, p: Period) {
    match frequency
    case Weekly(startsOn) => p.end == p.start + 6 && (p.start - 3 - startsOn) % 7 == 0
    case Biweekly => p.end == p.start + 13 && (p.start - 4) % 14 == 0
    case Monthly =>
      var first, last := Civil(p.start), Civil(p.end);
      first.year == last.year && first.month == last.month && first.day == 1 && Civil(p.end + 1).day == 1
  }

  /** The period of a day is the one pay period that the day lies in. */
  lemma PeriodsAreThePayPeriods(frequency: Frequency, today: int, p: Period)
    ensures p == PeriodOf(frequency, today) <==> Inside(p, today) && IsPayPeriod(frequency, p)
  {
    match frequency
    case Monthly => MonthsAreThePayPeriods(today, p);
    case Weekly(startsOn) => WeeksAreThePayPeriods(startsOn, today, p);
    case Biweekly =>
  }

  lemma WeeksAreThePayPeriods(startsOn: int, today: int, p: Period)
    ensures p == PeriodOf(Weekly(startsOn), today) <==> Inside(p, today) && IsPayPeriod(Weekly(startsOn), p)
  {
    var w := if startsOn == 0 then 6 else startsOn - 1;
    var start := PeriodOf(Weekly(startsOn), today).start;
    assert (start - 4 - w) % 7 == 0 by {
      RemainderOfRemainder(today + 3, w);
    }
  }

  lemma MonthsAreThePayPeriods(today: int, p: Period)
    ensures p == PeriodOf(Monthly, today) <==> Inside(p, today) && IsPayPeriod(Monthly, p)
  {
    MonthlyIsTheMonth(today);
    var d := Civil(today);
    var first, last := d.(day := 1), d.(day := DaysIn(d.year, d.month));
    DatesAreNumbers(first, today);
    DatesAreNumbers(last, today);
    OrdinalCountsDays(last);
    DatesAreNumbers(NextDay(last), today);
    if Inside(p, today) && IsPayPeriod(Monthly, p) {
      OnlyTheMonth(today, p);
    }
  }

  lemma OnlyTheMonth(today: int, p: Period)
    requires Inside(p, today) && IsPayPeriod(Monthly, p)
    ensures p == PeriodOf(Monthly, today)
  {
    var month := PeriodOf(Monthly, p.start);
    MonthlyIsTheMonth(p.start);
    DatesAreNumbers(Civil(p.start), p.start);
    InsideTheMonth(p.start, p.end);
    InsideTheMonth(p.start, p.end + 1);
    DatesAreNumbers(Civil(p.end + 1), p.end + 1);
    assert p.start == month.start && p.end == month.end;
    OnePeriodPerDay(Monthly, p.start, today);
  }

  // ----- The time a timesheet counts -----

  function From(p: Period): int { p.start * DAY }

  function Until(p: Period): int { (p.end + 1) * DAY }

  function EndOr(segment: Segment, now: int): int { if segment.end.Some? then segment.end.value else now }

  ghost predicate Refer(sessions: seq<Session>, segments: seq<Segment>) {
    forall k :: 0 <= k < |segments| ==> segments[k].session < |sessions|
  }

  predicate Belongs(sessions: seq<Session>, user: UserId, segment: Segment)
    requires segment.session < |sessions|
  {
    sessions[segment.session].user == Some(user)
  }

  /** The part of a segment that lies between two instants, if it is the user's. */
  function Share(lo: int, hi: int, sessions: seq<Session>, user: UserId, segment: Segment, now: int): int
    requires segment.session < |sessions|
  {
    if Belongs(sessions, user, segment) then Intervals.Clip(segment.start, EndOr(segment, now), lo, hi) else 0
  }

  /** The conditions of the joins: the session starts before the period ends, and the segment meets the period. */
  predicate Joined(p: Period, sessions: seq<Session>, segment: Segment, now: int)
    requires segment.session < |sessions|
  {
    && sessions[segment.session].started < Until(p)
    && segment.start < Until(p) && EndOr(segment, now) >= From(p)
  }

  /** The tracked time of a user's timesheet: the segments that the query joins, each clipped to the period. */
  function Tracked(p: Period, sessions: seq<Session>, user: UserId, segments: seq<Segment>, now: int): int
    requires Refer(sessions, segments)
  {
    if segments == [] then 0
    else
      var segment := segments[|segments| - 1];
      Tracked(p, sessions, user, segments[..|segments| - 1], now)
      + (if Joined(p, sessions, segment, now) then Share(From(p), Until(p), sessions, user, segment, now) else 0)
  }

  /** The user's time between two instants. */
  function TrackedBetween(lo: int, hi: int, sessions: seq<Session>, user: UserId, segments: seq<Segment>, now: int): int
    requires Refer(sessions, segments)
  {
    if segments == [] then 0
    else
      TrackedBetween(lo, hi, sessions, user, segments[..|segments| - 1], now)
      + Share(lo, hi, sessions, user, segments[|segments| - 1], now)
  }

  /** A user's segment counts in a period with the instants it shares with the period's days, an open one up to now. */
  lemma ShareCountsInstants(p: Period, sessions: seq<Session>, user: UserId, segment: Segment, now: int)
    requires segment.session < |sessions|
    ensures Share(From(p), Until(p), sessions, user, segment, now)
      == if sessions[segment.session].user != Some(user) then 0
         else |Intervals.Instants(segment.start, if segment.end == None then now else segment.end.value,
                                  p.start * 86_400_000_000, (p.end + 1) * 86_400_000_000)|
    ensures Joined(p, sessions, segment, now)
      <==> && sessions[segment.session].started < (p.end + 1) * 86_400_000_000
           && segment.start < (p.end + 1) * 86_400_000_000
           && (if segment.end == None then now else segment.end.value) >= p.start * 86_400_000_000
  {
    Intervals.ClipCountsInstants(segment.start, EndOr(segment, now), From(p), Until(p));
  }

  /** A timesheet counts segment by segment. */
  lemma TrackedSegmentBySegment(p: Period, sessions: seq<Session>, user: UserId, segments: seq<Segment>, g: Segment,
      now: int)
    requires Refer(sessions, segments) && g.session < |sessions|
    ensures Tracked(p, sessions, user, [], now) == 0
    ensures Refer(sessions, segments + [g])
    ensures Tracked(p, sessions, user, segments + [g], now)
         == Tracked(p, sessions, user, segments, now)
          + if Joined(p, sessions, g, now) then Share(From(p), Until(p), sessions, user, g, now) else 0
  {
    assert (segments + [g])[..|segments|] == segments;
  }

  /** A segment of the user has time in the period although its session starts after it. */
  ghost predicate StartsTooLate(p: Period, sessions: seq<Session>, user: UserId, segments: seq<Segment>, now: int)
    requires Refer(sessions, segments)
  {
    exists k :: 0 <= k < |segments|
      && Share(From(p), Until(p), sessions, user, segments[k], now) > 0
      && sessions[segments[k].session].started >= Until(p)
  }

  lemma StartsTooLateGrows(p: Period, sessions: seq<Session>, user: UserId, segments: seq<Segment>, now: int)
    requires Refer(sessions, segments) && segments != []
    ensures var last := segments[|segments| - 1];
            StartsTooLate(p, sessions, user, segments, now) <==>
              || StartsTooLate(p, sessions, user, segments[..|segments| - 1], now)
              || (Share(From(p), Until(p), sessions, user, last, now) > 0 && sessions[last.session].started >= Until(p))
  {
    var front := segments[..|segments| - 1];
    if StartsTooLate(p, sessions, user, front, now) {
      var k :| 0 <= k < |front|
        && Share(From(p), Until(p), sessions, user, front[k], now) > 0
        && sessions[front[k].session].started >= Until(p);
      assert segments[k] == front[k];
    }
    if StartsTooLate(p, sessions, user, segments, now) {
      var k :| 0 <= k < |segments|
        && Share(From(p), Until(p), sessions, user, segments[k], now) > 0
        && sessions[segments[k].session].started >= Until(p);
      assert k < |front| ==> front[k] == segments[k];
    }
  }

  /** The conditions of the joins leave out no time of the period, if and only if no segment with time in it belongs to
      a session that starts after it. */
  lemma {:induction false} TheJoinLosesNothing(p: Period, sessions: seq<Session>, user: UserId, segments: seq<Segment>,
      now: int)
    requires Refer(sessions, segments)
    ensures var kept, all := Tracked(p, sessions, user, segments, now),
                             TrackedBetween(From(p), Until(p), sessions, user, segments, now);
            kept <= all && (kept == all <==> !StartsTooLate(p, sessions, user, segments, now))
  {
    if segments != [] {
      TheJoinLosesNothing(p, sessions, user, segments[..|segments| - 1], now);
      StartsTooLateGrows(p, sessions, user, segments, now);
    }
  }

  /** Sessions start no later than their segments, as `ServerRuns.SessionsStartFirst` has it. */
  ghost predicate SessionsFirst(sessions: seq<Session>, segments: seq<Segment>)
    requires Refer(sessions, segments)
  {
    forall k :: 0 <= k < |segments| ==> sessions[segments[k].session].started <= segments[k].start
  }

  lemma SessionsFirstLoseNothing(p: Period, sessions: seq<Session>, user: UserId, segments: seq<Segment>, now: int)
    requires Refer(sessions, segments) && SessionsFirst(sessions, segments)
    ensures Tracked(p, sessions, user, segments, now)
      == TrackedBetween(From(p), Until(p), sessions, user, segments, now)
  {
    TheJoinLosesNothing(p, sessions, user, segments, now);
  }

  /** It can lose time: for every period there is a run of heartbeats without identifiers after which the timesheet
      leaves out a minute of the period, because the session of its segment starts after the period. */
  lemma ATimesheetCanLoseTime(p: Period, now: int) returns (run: seq<ServerRuns.Command>)
    requires p.start <= p.end
    ensures var db := ServerRuns.Empty(ServerRuns.OneUser(Admin));
      && ServerRuns.WorkSync.Coherent(db) && ServerRuns.AllowedRun(db, run)
      && var l := ServerRuns.After(db, run).ledger;
         && Refer(l.sessions, l.segments)
         && forall asOf :: asOf >= Until(p) ==>
              && Tracked(p, l.sessions, 0, l.segments, asOf) == 0
              && TrackedBetween(From(p), Until(p), l.sessions, 0, l.segments, asOf) == MINUTE
  {
    ServerRuns.EmptyTablesAreSound(ServerRuns.OneUser(Admin));
    run := ServerRuns.ASegmentCanPrecedeItsSession(Until(p), now);
    var l := ServerRuns.After(ServerRuns.Empty(ServerRuns.OneUser(Admin)), run).ledger;
    forall asOf | asOf >= Until(p)
      ensures Tracked(p, l.sessions, 0, l.segments, asOf) == 0
      ensures TrackedBetween(From(p), Until(p), l.sessions, 0, l.segments, asOf) == MINUTE
    {
      TheMinuteBefore(p, l.sessions, l.segments, asOf);
    }
  }

  lemma TheMinuteBefore(p: Period, sessions: seq<Session>, segments: seq<Segment>, asOf: int)
    requires p.start <= p.end && asOf >= Until(p) && |sessions| == 1
    requires sessions[0].user == Some(0) && sessions[0].started == Until(p) + MINUTE
    requires segments == [Segment(0, Until(p) + MINUTE, Some(Until(p) + 2 * MINUTE)),
      Segment(0, Until(p) - MINUTE, None)]
    ensures Tracked(p, sessions, 0, segments, asOf) == 0
    ensures TrackedBetween(From(p), Until(p), sessions, 0, segments, asOf) == MINUTE
  {
    var first := segments[..1];
    assert From(p) <= Until(p) - MINUTE;
    assert Share(From(p), Until(p), sessions, 0, segments[0], asOf) == 0;
    assert Share(From(p), Until(p), sessions, 0, segments[1], asOf) == MINUTE;
    assert !Joined(p, sessions, segments[0], asOf) && !Joined(p, sessions, segments[1], asOf);
    assert first[0] == segments[0] && first[..0] == [];
    assert Tracked(p, sessions, 0, first, asOf) == 0;
    assert TrackedBetween(From(p), Until(p), sessions, 0, first, asOf) == 0;
  }

  lemma {:induction false} NeighboursAddUp(lo: int, mid: int, hi: int, sessions: seq<Session>, user: UserId,
                                           segments: seq<Segment>, now: int)
    requires lo <= mid <= hi && Refer(sessions, segments)
    ensures TrackedBetween(lo, mid, sessions, user, segments, now)
      + TrackedBetween(mid, hi, sessions, user, segments, now)
         == TrackedBetween(lo, hi, sessions, user, segments, now)
  {
    if segments != [] {
      NeighboursAddUp(lo, mid, hi, sessions, user, segments[..|segments| - 1], now);
    }
  }

  /** Each period starts the day after the one before it. */
  predicate Consecutive(periods: seq<Period>) {
    && (forall i :: 0 <= i < |periods| ==> periods[i].start <= periods[i].end)
    && (forall i :: 1 <= i < |periods| ==> periods[i].start == periods[i - 1].end + 1)
  }

  function TrackedOver(periods: seq<Period>, sessions: seq<Session>, user: UserId, segments: seq<Segment>,
      now: int): int
    requires Refer(sessions, segments)
  {
    if periods == [] then 0
    else
      TrackedOver(periods[..|periods| - 1], sessions, user, segments, now)
      + Tracked(periods[|periods| - 1], sessions, user, segments, now)
  }

  lemma WithoutTheLast(periods: seq<Period>)
    requires Consecutive(periods) && |periods| > 1
    ensures var front, last := periods[..|periods| - 1], periods[|periods| - 1];
      && Consecutive(front) && last.start <= last.end
      && From(last) == Until(front[|front| - 1]) && From(last) < Until(last)
  {}

  /** Over consecutive periods, what the timesheets count adds up to all the time tracked from the first to the last. */
  lemma {:induction false} TimesheetsAddUp(periods: seq<Period>, sessions: seq<Session>, user: UserId,
                                           segments: seq<Segment>, now: int)
    requires Consecutive(periods) && periods != []
    requires Refer(sessions, segments) && SessionsFirst(sessions, segments)
    ensures From(periods[0]) < Until(periods[|periods| - 1])
    ensures TrackedOver(periods, sessions, user, segments, now)
         == TrackedBetween(From(periods[0]), Until(periods[|periods| - 1]), sessions, user, segments, now)
  {
    var front, last := periods[..|periods| - 1], periods[|periods| - 1];
    SessionsFirstLoseNothing(last, sessions, user, segments, now);
    if front != [] {
      WithoutTheLast(periods);
      TimesheetsAddUp(front, sessions, user, segments, now);
      NeighboursAddUp(From(periods[0]), From(last), Until(last), sessions, user, segments, now);
    } else {
      assert TrackedOver(front, sessions, user, segments, now) == 0;
    }
  }

  /** A period, the one after it, and so on. */
  function Chain(next: Period -> Period, first: Period, n: nat): (periods: seq<Period>)
    ensures |periods| == n + 1
  {
    if n == 0 then [first]
    else
      var before := Chain(next, first, n - 1);
      before + [next(before[n - 1])]
  }

  ghost predicate Continues(next: Period -> Period, proper: Period -> bool) {
    forall p :: proper(p) ==> p.start <= p.end && next(p).start == p.end + 1 && proper(next(p))
  }

  lemma {:induction false} ChainIsConsecutive(next: Period -> Period, proper: Period -> bool, first: Period, n: nat)
    requires proper(first) && Continues(next, proper)
    ensures Consecutive(Chain(next, first, n)) && proper(Chain(next, first, n)[n])
  {
    if n > 0 {
      ChainIsConsecutive(next, proper, first, n - 1);
      var before := Chain(next, first, n - 1);
      assert proper(before[n - 1]) && proper(next(before[n - 1]));
      OneMorePeriod(before, next(before[n - 1]));
    }
  }

  function NextOf(frequency: Frequency): Period -> Period { p => Following(frequency, p) }

  ghost function ProperFor(frequency: Frequency): Period -> bool { p => IsPeriod(frequency, p) }

  /** The first periods of a frequency, from the one of a day onwards. */
  function PeriodsFrom(frequency: Frequency, today: int, n: nat): (periods: seq<Period>)
    ensures |periods| == n + 1
  {
    Chain(NextOf(frequency), PeriodOf(frequency, today), n)
  }

  /** Some day has the period. */
  ghost predicate IsPeriod(frequency: Frequency, p: Period) {
    exists day: int :: p == PeriodOf(frequency, day)
  }

  lemma FollowsOn(frequency: Frequency, p: Period)
    requires IsPeriod(frequency, p)
    ensures p.start <= p.end && Following(frequency, p).start == p.end + 1
    ensures IsPeriod(frequency, Following(frequency, p))
  {
    var day :| p == PeriodOf(frequency, day);
    PeriodsTile(frequency, day);
    PeriodContainsToday(frequency, day);
  }

  lemma PeriodsContinue(frequency: Frequency)
    ensures Continues(NextOf(frequency), ProperFor(frequency))
  {
    forall p | ProperFor(frequency)(p)
      ensures p.start <= p.end && NextOf(frequency)(p).start == p.end + 1 && ProperFor(frequency)(NextOf(frequency)(p))
    {
      FollowsOn(frequency, p);
    }
  }

  lemma FirstIsProper(frequency: Frequency, today: int)
    ensures ProperFor(frequency)(PeriodOf(frequency, today))
  {}

  lemma PeriodsAreConsecutive(frequency: Frequency, today: int, n: nat)
    ensures Consecutive(PeriodsFrom(frequency, today, n))
  {
    PeriodsContinue(frequency);
    FirstIsProper(frequency, today);
    ChainIsConsecutive(NextOf(frequency), ProperFor(frequency), PeriodOf(frequency, today), n);
  }

  lemma OneMorePeriod(periods: seq<Period>, next: Period)
    requires Consecutive(periods) && periods != []
    requires next.start == periods[|periods| - 1].end + 1 && next.start <= next.end
    ensures Consecutive(periods + [next])
  {}

  /** However many periods follow, every moment of tracked time is counted by one timesheet, and by one only. */
  lemma EveryMomentIsCountedOnce(frequency: Frequency, today: int, n: nat, sessions: seq<Session>, user: UserId,
                                 segments: seq<Segment>, now: int)
    requires Refer(sessions, segments) && SessionsFirst(sessions, segments)
    ensures var periods := PeriodsFrom(frequency, today, n);
            TrackedOver(periods, sessions, user, segments, now)
                == TrackedBetween(From(periods[0]), Until(periods[n]), sessions, user, segments, now)
  {
    PeriodsAreConsecutive(frequency, today, n);
    TimesheetsAddUp(PeriodsFrom(frequency, today, n), sessions, user, segments, now);
  }

  // ----- Generating timesheets -----

  datatype Timesheet = Timesheet(user: UserId, period: Period)

  datatype Employee = Employee(id: UserId, enabled: bool, needsApproval: bool)

  predicate Due(users: seq<Employee>, user: UserId) {
    exists i :: 0 <= i < |users| && users[i].id == user && users[i].enabled && users[i].needsApproval
  }

  class TimesheetStore {
    var timesheets: set<Timesheet>

    /** `generate_open_timesheets`: the missing timesheets of the current period, and how many there were. */
    method GenerateOpen(frequency: Frequency, today: int, users: seq<Employee>) returns (created: nat)
      modifies this
      ensures forall t :: t in timesheets <==>
        t in old(timesheets) || (t.period == PeriodOf(frequency, today) && Due(users, t.user))
      ensures |timesheets| == |old(timesheets)| + created
    {
      var period := PeriodOf(frequency, today);
      created := 0;
      for i := 0 to |users|
        invariant forall t :: t in timesheets <==>
          t in old(timesheets) || (t.period == period && Due(users[..i], t.user))
        invariant |timesheets| == |old(timesheets)| + created
      {
        var user := users[i];
        DueOneMore(users, i);
        if user.enabled && user.needsApproval && Timesheet(user.id, period) !in timesheets {
          timesheets := timesheets + {Timesheet(user.id, period)};
          created := created + 1;
        }
      }
      assert users[..|users|] == users;
    }
  }

  lemma DueOneMore(users: seq<Employee>, i: nat)
    requires i < |users|
    ensures forall user :: Due(users[..i + 1], user) <==>
      Due(users[..i], user) || (user == users[i].id && users[i].enabled && users[i].needsApproval)
  {
    forall user
      ensures Due(users[..i + 1], user) <==>
        Due(users[..i], user) || (user == users[i].id && users[i].enabled && users[i].needsApproval)
    {
      if Due(users[..i], user) {
        var k :| 0 <= k < i && users[..i][k].id == user && users[..i][k].enabled && users[..i][k].needsApproval;
        assert users[..i + 1][k] == users[..i][k];
      }
      if user == users[i].id && users[i].enabled && users[i].needsApproval {
        assert users[..i + 1][i] == users[i];
      }
      if Due(users[..i + 1], user) {
        var k :| 0 <= k <= i && users[..i + 1][k].id == user && users[..i + 1][k].enabled &&
            users[..i + 1][k].needsApproval;
        if k < i {
          assert users[..i][k] == users[..i + 1][k];
        }
      }
    }
  }

  /** Under one frequency no two timesheets of an employee share a day, whenever they were generated. */
  lemma TimesheetsAreDisjoint(frequency: Frequency, t: Timesheet, u: Timesheet, day: int)
    requires IsPeriod(frequency, t.period) && IsPeriod(frequency, u.period) && t.user == u.user
    requires Inside(t.period, day) && Inside(u.period, day)
    ensures t == u
  {
    var a: int :| t.period == PeriodOf(frequency, a);
    var b: int :| u.period == PeriodOf(frequency, b);
    EqualOrDisjoint(frequency, a, b, day);
  }
}
