/**
 The next session of a net's schedule and the recurrence rule that goes with it, as the
 iCalendar generator computes them, against the meaning of the rule in section 3.8.5.3 of
 RFC 5545. Dates are in UTC; the two readings of the clock are parameters.

 Meetings are compared as instants: a day's number and the milliseconds since its midnight.
 A pattern's next meeting is found on day numbers, and the dates are those of `Calendar`.
 */
module NextSession {
  import opened Common
  import opened Calendar

  const DAY_MS := 86_400_000

  /** A Date: its day and the milliseconds since midnight. */
  datatype Moment = Moment(date: Date, ms: int)

  predicate Valid(m: Moment) { ValidDate(m.date) && 0 <= m.ms < DAY_MS }

  /** getTime, up to the choice of the epoch. */
  function Ms(m: Moment): int { Ordinal(m.date) * DAY_MS + m.ms }

  datatype Pattern = Daily | Weekly | Biweekly | Monthly | Adhoc | Unknown

  datatype Schedule =
    Schedule(pattern: Pattern, hours: int, minutes: int, dayOfWeek: Option<int>, dayOfMonth: Option<int>)

  /** The date k days on, rolling over months and years as setUTCDate does. */
  function DayAfter(d: Date, k: int): Date
    decreases if k < 0 then -k else k
  {
    if k == 0 then d else if k > 0 then DayAfter(NextDay(d), k - 1) else DayAfter(PreviousDay(d), k + 1)
  }

  /** setUTCHours: hours and minutes outside their range roll over to other days. */
  function AtUtcTime(d: Date, hours: int, minutes: int): Moment {
    var ms := hours * 3_600_000 + minutes * 60_000;
    Moment(DayAfter(d, ms / DAY_MS), ms % DAY_MS)
  }

  function AddDays(m: Moment, days: int): Moment { Moment(DayAfter(m.date, days), m.ms) }

  /** Date.UTC's day; month 13 is the next year's January. */
  function UtcDay(year: int, month: int, day: int): Date {
    DayAfter(if month == 13 then Date(year + 1, 1, 1) else Date(year, month, 1), day - 1)
  }

  /** JavaScript's remainder, which takes the sign of the dividend. */
  function Remainder(a: int, n: int): int
    requires n > 0
  {
    if a >= 0 then a % n else -(-a % n)
  }

  function OrElse(o: Option<int>, default: int): int { if o.Some? then o.value else default }

  /** computeNextSession; `now` is its first reading of the clock, `today` the one in todayAtUtcTime. */
  function ComputeNextSession(s: Schedule, now: Moment, today: Moment): Option<Moment> {
    match s.pattern
    case Daily =>
      var session := AtUtcTime(today.date, s.hours, s.minutes);
      Some(if Ms(session) > Ms(now) then session else AddDays(session, 1))
    case Weekly =>
      var candidate := WeekdayCandidate(s, now, today);
      Some(if Ms(candidate) <= Ms(now) then AddDays(candidate, 7) else candidate)
    case Biweekly =>
      var candidate := WeekdayCandidate(s, now, today);
      Some(if Ms(candidate) <= Ms(now) then AddDays(candidate, 14) else candidate)
    case Monthly =>
      var thisMonth := MonthSession(s, now.date.year, now.date.month);
      Some(if Ms(thisMonth) > Ms(now) && thisMonth.date.month == now.date.month then thisMonth
           else MonthSession(s, now.date.year, now.date.month + 1))
    case Adhoc => None
    case Unknown => None
  }

  function WeekdayCandidate(s: Schedule, now: Moment, today: Moment): Moment {
    var daysUntil := Remainder(OrElse(s.dayOfWeek, 0) - Weekday(Ordinal(now.date)) + 7, 7);
    AddDays(AtUtcTime(today.date, s.hours, s.minutes), daysUntil)
  }

  function MonthSession(s: Schedule, year: int, month: int): Moment {
    AtUtcTime(UtcDay(year, month, OrElse(s.dayOfMonth, 1)), s.hours, s.minutes)
  }

  // ---------------------------------------------------------------- recurrence rules

  datatype RRule = EveryDay | EveryWeek(interval: int, byDay: string) | EveryMonth(byMonthDay: int)

  const BYDAY: seq<string> := ["SU", "MO", "TU", "WE", "TH", "FR", "SA"]

  /** buildRRule, with the rule's parts apart; a weekday outside the table has no name. */
  function BuildRRule(s: Schedule): Option<RRule> {
    var day := OrElse(s.dayOfWeek, 0);
    var name := if 0 <= day < 7 then BYDAY[day] else "undefined";
    match s.pattern
    case Daily => Some(EveryDay)
    case Weekly => Some(EveryWeek(1, name))
    case Biweekly => Some(EveryWeek(2, name))
    case Monthly => Some(EveryMonth(OrElse(s.dayOfMonth, 1)))
    case Adhoc => None
    case Unknown => None
  }

  /** The recurrence set of a rule from its DTSTART on. Weeks are told apart by whole weeks from DTSTART,
      which for one weekday is what counting weeks from any week start gives. */
  predicate Recurs(rule: RRule, start: Moment, x: Moment) {
    && Ms(start) <= Ms(x) && x.ms == start.ms
    && match rule
       case EveryDay => true
       case EveryWeek(interval, byDay) =>
         && interval > 0 && (Ordinal(x.date) - Ordinal(start.date)) / 7 % interval == 0
         && BYDAY[Weekday(Ordinal(x.date))] == byDay
       case EveryMonth(byMonthDay) => x.date.day == byMonthDay
  }

  /** A schedule the application accepts: a time of day, a weekday, a day of the month. */
  predicate ValidSchedule(s: Schedule) {
    && 0 <= s.hours < 24 && 0 <= s.minutes < 60
    && (s.dayOfWeek.Some? ==> 0 <= s.dayOfWeek.value < 7)
    && (s.dayOfMonth.Some? ==> 1 <= s.dayOfMonth.value <= 31)
  }

  function TimeOf(s: Schedule): int { s.hours * 3_600_000 + s.minutes * 60_000 }

  /** The net meets then, as far as one moment can tell. */
  predicate Meets(s: Schedule, x: Moment) {
    && Valid(x) && x.ms == TimeOf(s)
    && match s.pattern
       case Daily => true
       case Weekly => Weekday(Ordinal(x.date)) == OrElse(s.dayOfWeek, 0)
       case Biweekly => Weekday(Ordinal(x.date)) == OrElse(s.dayOfWeek, 0)
       case Monthly => x.date.day == OrElse(s.dayOfMonth, 1)
       case Adhoc => false
       case Unknown => false
  }

  /** The first meeting after now. */
  ghost predicate IsNext(s: Schedule, now: Moment, r: Moment) {
    && Meets(s, r) && Ms(r) > Ms(now)
    && forall x | Meets(s, x) && Ms(x) > Ms(now) :: Ms(r) <= Ms(x)
  }

  // ---------------------------------------------------------------- days

  lemma {:induction false} DayAfterOrdinal(d: Date, k: int)
    requires ValidDate(d)
    ensures ValidDate(DayAfter(d, k)) && Ordinal(DayAfter(d, k)) == Ordinal(d) + k
    decreases if k < 0 then -k else k
  {
    if k > 0 {
      NextDayOrdinal(d);
      DayAfterOrdinal(NextDay(d), k - 1);
    } else if k < 0 {
      PreviousDayOrdinal(d);
      DayAfterOrdinal(PreviousDay(d), k + 1);
    }
  }

  /** A day number counted from the first of a month is that day if the month has it, else a day of the next month. */
  lemma DayOfMonth(year: int, month: int, day: int)
    requires 1 <= month <= 12 && 1 <= day <= 31
    ensures var n := DaysInMonth(year, month);
            var next := NextMonth(Date(year, month, 1));
            DayAfter(Date(year, month, 1), day - 1)
            == if day <= n then Date(year, month, day) else Date(next.year, next.month, day - n)
  {
    var first := Date(year, month, 1);
    var next := NextMonth(first);
    DayAfterOrdinal(first, day - 1);
    MonthLength(year, month);
    if day <= DaysInMonth(year, month) {
      OrdinalInjective(DayAfter(first, day - 1), Date(year, month, day));
    } else {
      OrdinalInjective(DayAfter(first, day - 1), Date(next.year, next.month, day - DaysInMonth(year, month)));
    }
  }

  /** The same, in figures. */
  lemma DayInMonth(year: int, month: int, day: int)
    requires 1 <= month <= 12 && 1 <= day <= 31
    ensures var leap := year % 4 == 0 && (year % 100 != 0 || year % 400 == 0);
            var n := [31, if leap then 29 else 28, 31, 30, 31, 30, 31, 31, 30, 31, 30, 31][month - 1];
            DayAfter(Date(year, month, 1), day - 1)
            == if day <= n then Date(year, month, day)
               else if month == 12 then Date(year + 1, 1, day - n) else Date(year, month + 1, day - n)
  {
    DayOfMonth(year, month, day);
    MonthLengths(year, month);
  }

  lemma OnTheDay(d: Date, s: Schedule)
    requires ValidSchedule(s)
    ensures AtUtcTime(d, s.hours, s.minutes) == Moment(d, TimeOf(s)) && 0 <= TimeOf(s) < DAY_MS
  {
    var ms := TimeOf(s);
    assert 0 <= ms < DAY_MS;
    assert ms / DAY_MS == 0 && ms % DAY_MS == ms;
  }

  /** The net meets on the full minute of its hours and minutes. */
  lemma ClockReads(s: Schedule, x: Moment)
    requires ValidSchedule(s) && Meets(s, x)
    ensures x.ms / 3_600_000 == s.hours && x.ms / 60_000 % 60 == s.minutes && x.ms % 60_000 == 0
  {
    assert x.ms == 60_000 * (60 * s.hours + s.minutes);
    assert x.ms / 60_000 == 60 * s.hours + s.minutes;
  }

  lemma DaysOn(m: Moment, k: int)
    requires Valid(m)
    ensures Valid(AddDays(m, k)) && Ordinal(AddDays(m, k).date) == Ordinal(m.date) + k
  {
    DayAfterOrdinal(m.date, k);
  }

  // ---------------------------------------------------------------- days as numbers

  /** The instant of a numbered day. */
  function InstantMs(day: int, ms: int): int { day * DAY_MS + ms }

  lemma MsIs(m: Moment)
    ensures Ms(m) == InstantMs(Ordinal(m.date), m.ms)
  {
  }

  /** Of the days that are `ahead` days after a day and every `step` days from there, the first that is later
      than now at the given time. */
  lemma FirstOfEvery(step: int, today: int, nowMs: int, ahead: int, ms: int, x: int, j: int)
    requires step == 1 || step == 7
    requires 0 <= ahead < step && 0 <= nowMs < DAY_MS && 0 <= ms < DAY_MS
    requires x == today + ahead + step * j && InstantMs(x, ms) > InstantMs(today, nowMs)
    ensures (if InstantMs(today + ahead, ms) > InstantMs(today, nowMs)
             then today + ahead else today + ahead + step) <= x
  {
    assert j >= 0;
  }

  lemma SameWeekday(a: int, b: int)
    requires a % 7 == b % 7
    ensures b == a + 7 * ((b - a) / 7)
  {
  }

  // ---------------------------------------------------------------- what comes next

  /** A meeting given by its day number. */
  lemma MeetingDay(s: Schedule, now: Moment, x: Moment)
    requires Meets(s, x) && Ms(x) > Ms(now)
    ensures InstantMs(Ordinal(x.date), TimeOf(s)) > InstantMs(Ordinal(now.date), now.ms)
  {
    MsIs(x);
    MsIs(now);
  }

  /** The day of a daily net's first session after now. */
  function FirstDay(s: Schedule, now: Moment): int {
    if TimeOf(s) > now.ms then Ordinal(now.date) else Ordinal(now.date) + 1
  }

  /** A meeting of a daily net is its first one after now if and only if it is on that day. */
  lemma FirstDayIsNext(s: Schedule, now: Moment, r: Moment)
    requires s.pattern == Daily && ValidSchedule(s) && Valid(now) && Meets(s, r)
    ensures IsNext(s, now, r) <==> Ordinal(r.date) == FirstDay(s, now)
  {
    var first := AddDays(Moment(now.date, TimeOf(s)), FirstDay(s, now) - Ordinal(now.date));
    DaysOn(Moment(now.date, TimeOf(s)), FirstDay(s, now) - Ordinal(now.date));
    MsIs(r);
    MsIs(now);
    MsIs(first);
    SameTime(Ordinal(r.date), Ordinal(first.date), TimeOf(s));
    AfterNow(FirstDay(s, now), TimeOf(s), Ordinal(now.date), now.ms);
    forall x | Meets(s, x) && Ms(x) > Ms(now)
      ensures Ms(first) <= Ms(x)
    {
      MeetingDay(s, now, x);
      MsIs(x);
      FirstOfEvery(1, Ordinal(now.date), now.ms, 0, TimeOf(s), Ordinal(x.date), Ordinal(x.date) - Ordinal(now.date));
      DaysCompare(FirstDay(s, now), Ordinal(x.date), x.ms);
    }
  }

  lemma SameTime(a: int, b: int, ms: int)
    ensures InstantMs(a, ms) == InstantMs(b, ms) <==> a == b
  {
  }

  lemma AfterNow(day: int, ms: int, now: int, nowMs: int)
    requires 0 <= nowMs < DAY_MS && 0 <= ms < DAY_MS
    ensures InstantMs(day, ms) > InstantMs(now, nowMs) <==> day > now || (day == now && ms > nowMs)
  {
  }

  /** For every two readings of the clock: a daily net's next session is its first one after now if and only if
      both readings fall on one day, or midnight lies between them and the earlier day's session was over, or
      the clock went back over midnight and the later day's session is to come. */
  lemma DailyIsNextIff(s: Schedule, now: Moment, today: Moment)
    requires s.pattern == Daily && ValidSchedule(s) && Valid(now) && Valid(today)
    ensures var r, ahead := ComputeNextSession(s, now, today), Ordinal(today.date) - Ordinal(now.date);
            && r.Some? && Meets(s, r.value)
            && (IsNext(s, now, r.value) <==>
                  ahead == 0 || (ahead == 1 && TimeOf(s) <= now.ms) || (ahead == -1 && TimeOf(s) > now.ms))
  {
    OnTheDay(today.date, s);
    var session := Moment(today.date, TimeOf(s));
    DaysOn(session, 1);
    MsIs(session);
    MsIs(now);
    AfterNow(Ordinal(today.date), TimeOf(s), Ordinal(now.date), now.ms);
    FirstDayIsNext(s, now, ComputeNextSession(s, now, today).value);
  }

  /** Read on one day, a daily net's next session is its first one after now, at most a day ahead. */
  lemma DailyIsNext(s: Schedule, now: Moment, today: Moment)
    requires s.pattern == Daily && ValidSchedule(s) && Valid(now) && Valid(today) && today.date == now.date
    ensures var r := ComputeNextSession(s, now, today);
            r.Some? && IsNext(s, now, r.value) && Ms(r.value) <= Ms(now) + DAY_MS
  {
    DailyIsNextIff(s, now, today);
    var r := ComputeNextSession(s, now, today).value;
    FirstDayIsNext(s, now, r);
    MsIs(r);
    MsIs(now);
    AfterNow(FirstDay(s, now) - 1, TimeOf(s), Ordinal(now.date), now.ms);
  }

  /** How many days the target weekday is after a numbered day. */
  function Ahead(target: int, day: int): (k: int)
    ensures 0 <= k < 7
  {
    (target - Weekday(day)) % 7
  }

  lemma AheadIs(target: int, day: int)
    requires 0 <= target < 7
    ensures Remainder(target - Weekday(day) + 7, 7) == Ahead(target, day)
    ensures Weekday(day + Ahead(target, day)) == target
  {
  }

  /** The candidate of the weekly patterns: as many days after `today` as the target weekday is after now's. */
  predicate IsCandidate(s: Schedule, now: Moment, today: Moment, c: Moment) {
    && Valid(c) && c.ms == TimeOf(s)
    && Ordinal(c.date) == Ordinal(today.date) + Ahead(OrElse(s.dayOfWeek, 0), Ordinal(now.date))
  }

  lemma Candidate(s: Schedule, now: Moment, today: Moment)
    requires ValidSchedule(s) && Valid(today)
    ensures IsCandidate(s, now, today, WeekdayCandidate(s, now, today))
  {
    OnTheDay(today.date, s);
    var target, day := OrElse(s.dayOfWeek, 0), Ordinal(now.date);
    AheadIs(target, day);
    DaysOn(Moment(today.date, TimeOf(s)), Ahead(target, day));
  }

  /** The candidate is on its weekday. */
  lemma CandidateMeets(s: Schedule, now: Moment, c: Moment)
    requires (s.pattern == Weekly || s.pattern == Biweekly) && ValidSchedule(s)
    requires IsCandidate(s, now, now, c)
    ensures Meets(s, c) && Ordinal(now.date) <= Ordinal(c.date) <= Ordinal(now.date) + 6
  {
    AheadIs(OrElse(s.dayOfWeek, 0), Ordinal(now.date));
  }

  lemma SoonestWeek(target: int, now: int, nowMs: int, ms: int, x: int)
    requires 0 <= target < 7 && 0 <= nowMs < DAY_MS && 0 <= ms < DAY_MS
    requires Weekday(x) == target && InstantMs(x, ms) > InstantMs(now, nowMs)
    ensures var c := now + Ahead(target, now);
            (if InstantMs(c, ms) > InstantMs(now, nowMs) then c else c + 7) <= x
  {
    var c := now + Ahead(target, now);
    AheadIs(target, now);
    SameWeekday(c, x);
    FirstOfEvery(7, now, nowMs, Ahead(target, now), ms, x, (x - c) / 7);
  }

  /** Every meeting after now is a whole number of weeks from the candidate. */
  lemma NoneSooner(s: Schedule, now: Moment, c: Moment, x: Moment)
    requires (s.pattern == Weekly || s.pattern == Biweekly) && ValidSchedule(s) && Valid(now)
    requires IsCandidate(s, now, now, c) && Meets(s, x) && Ms(x) > Ms(now)
    ensures FirstFrom(c, Ms(now), 7) <= Ordinal(x.date)
  {
    MsIs(c);
    MsIs(now);
    MeetingDay(s, now, x);
    SoonestWeek(OrElse(s.dayOfWeek, 0), Ordinal(now.date), now.ms, TimeOf(s), Ordinal(x.date));
  }

  /** The day of `c`, or `step` days later if `c` is not after now. */
  function FirstFrom(c: Moment, nowMs: int, step: int): int {
    if Ms(c) > nowMs then Ordinal(c.date) else Ordinal(c.date) + step
  }

  /** The candidate, or the day `step` days after it. */
  function Later(c: Moment, nowMs: int, step: int): Moment {
    if Ms(c) <= nowMs then AddDays(c, step) else c
  }

  lemma LaterIs(c: Moment, nowMs: int, step: int)
    requires Valid(c) && (step == 7 || step == 14)
    ensures var r := Later(c, nowMs, step);
            && Valid(r) && r.ms == c.ms && Ordinal(r.date) == FirstFrom(c, nowMs, step)
            && Weekday(Ordinal(r.date)) == Weekday(Ordinal(c.date))
  {
    DaysOn(c, step);
    WeeksOn(Ordinal(c.date), step);
  }

  lemma WeeksOn(day: int, step: int)
    requires step == 7 || step == 14
    ensures (day + step) % 7 == day % 7
  {
  }

  lemma StepBounds(now: int, nowMs: int, c: int, ms: int, step: int)
    requires 0 <= nowMs < DAY_MS && 0 <= ms < DAY_MS && now <= c <= now + 6 && (step == 7 || step == 14)
    ensures var r := if InstantMs(c, ms) > InstantMs(now, nowMs) then c else c + step;
            InstantMs(now, nowMs) < InstantMs(r, ms) <= InstantMs(now, nowMs) + step * DAY_MS
  {
  }

  /** The session taken from the candidate is ahead, on its weekday. */
  lemma FromCandidate(s: Schedule, now: Moment, c: Moment, step: int)
    requires (s.pattern == Weekly || s.pattern == Biweekly) && Valid(now) && Meets(s, c)
    requires Ordinal(now.date) <= Ordinal(c.date) <= Ordinal(now.date) + 6 && (step == 7 || step == 14)
    ensures var r := Later(c, Ms(now), step);
            Meets(s, r) && Ms(now) < Ms(r) <= Ms(now) + step * DAY_MS
  {
    var r := Later(c, Ms(now), step);
    LaterIs(c, Ms(now), step);
    MsIs(r);
    MsIs(c);
    MsIs(now);
    StepBounds(Ordinal(now.date), now.ms, Ordinal(c.date), c.ms, step);
  }

  lemma DaysCompare(a: int, b: int, ms: int)
    ensures a <= b <==> InstantMs(a, ms) <= InstantMs(b, ms)
  {
  }

  /** A week on, the session is the first one after now; two weeks on, only if the candidate itself is. */
  lemma FirstFromCandidate(s: Schedule, now: Moment, c: Moment, step: int)
    requires (s.pattern == Weekly || s.pattern == Biweekly) && Valid(now) && Meets(s, c)
    requires forall x | Meets(s, x) && Ms(x) > Ms(now) :: FirstFrom(c, Ms(now), 7) <= Ordinal(x.date)
    requires Ordinal(now.date) <= Ordinal(c.date) <= Ordinal(now.date) + 6 && (step == 7 || step == 14)
    ensures IsNext(s, now, Later(c, Ms(now), step)) <==> step == 7 || Ms(c) > Ms(now)
  {
    var r, week := Later(c, Ms(now), step), Later(c, Ms(now), 7);
    FromCandidate(s, now, c, step);
    FromCandidate(s, now, c, 7);
    LaterIs(c, Ms(now), step);
    LaterIs(c, Ms(now), 7);
    MsIs(week);
    MsIs(r);
    forall x | Meets(s, x) && Ms(x) > Ms(now)
      ensures Ms(week) <= Ms(x)
    {
      MsIs(x);
      DaysCompare(Ordinal(week.date), Ordinal(x.date), x.ms);
    }
    DaysCompare(Ordinal(r.date), Ordinal(week.date), c.ms);
  }

  /** What the two weekly patterns have in common, on one day. */
  lemma FromTheCandidate(s: Schedule, now: Moment, c: Moment, step: int)
    requires (s.pattern == Weekly || s.pattern == Biweekly) && ValidSchedule(s) && Valid(now)
    requires IsCandidate(s, now, now, c) && (step == 7 || step == 14)
    ensures var r := Later(c, Ms(now), step);
            Meets(s, r) && Ms(now) < Ms(r) <= Ms(now) + step * DAY_MS
            && (IsNext(s, now, r) <==> step == 7 || Ms(c) > Ms(now))
  {
    CandidateMeets(s, now, c);
    forall x | Meets(s, x) && Ms(x) > Ms(now)
      ensures FirstFrom(c, Ms(now), 7) <= Ordinal(x.date)
    {
      NoneSooner(s, now, c, x);
    }
    FromCandidate(s, now, c, step);
    FirstFromCandidate(s, now, c, step);
  }

  /** A weekly net's next session is its first one after now, at most a week ahead. */
  lemma WeeklyIsNext(s: Schedule, now: Moment, today: Moment)
    requires s.pattern == Weekly && ValidSchedule(s) && Valid(now) && Valid(today) && today.date == now.date
    ensures var r := ComputeNextSession(s, now, today);
            r.Some? && IsNext(s, now, r.value) && Ms(r.value) <= Ms(now) + 7 * DAY_MS
  {
    Candidate(s, now, today);
    FromTheCandidate(s, now, WeekdayCandidate(s, now, today), 7);
  }

  /** A biweekly net's next session is on its weekday, after now, and at most two weeks ahead; it is the very
      next of that weekday exactly if this week's is still to come. */
  lemma BiweeklyIsAhead(s: Schedule, now: Moment, today: Moment)
    requires s.pattern == Biweekly && ValidSchedule(s) && Valid(now) && Valid(today) && today.date == now.date
    ensures var r := ComputeNextSession(s, now, today);
            && r.Some? && Meets(s, r.value) && Ms(now) < Ms(r.value) <= Ms(now) + 14 * DAY_MS
            && (IsNext(s, now, r.value) <==> Ms(WeekdayCandidate(s, now, today)) > Ms(now))
  {
    Candidate(s, now, today);
    FromTheCandidate(s, now, WeekdayCandidate(s, now, today), 14);
  }

  // ---------------------------------------------------------------- weekly nets on two readings

  /** The candidate's day when both readings fall on now's day. */
  function ThisWeek(target: int, now: int): int { now + Ahead(target, now) }

  /** The session of this week is still to come. */
  predicate ToCome(target: int, now: int, nowMs: int, ms: int) {
    InstantMs(ThisWeek(target, now), ms) > InstantMs(now, nowMs)
  }

  /** The day of the first session after now. */
  function FirstWeekday(target: int, now: int, nowMs: int, ms: int): int {
    if ToCome(target, now, nowMs, ms) then ThisWeek(target, now) else ThisWeek(target, now) + 7
  }

  /** The day that comes out, `step` days after the candidate if that is not after now. */
  function DayThatComesOut(target: int, now: int, nowMs: int, today: int, ms: int, step: int): int {
    var c := today + Ahead(target, now);
    if InstantMs(c, ms) > InstantMs(now, nowMs) then c else c + step
  }

  /** For which two readings the right day comes out, `ahead` days apart: a week's step wants both on one day, or
      a week apart on the right sides of the session; two weeks' step wants an even number of weeks apart when
      this week's session is to come, and an odd number when it is over. */
  predicate RightDay(toCome: bool, ahead: int, step: int) {
    if step == 7 then ahead == 0 || (ahead == 7 && !toCome) || (ahead == -7 && toCome)
    else if toCome then ahead == 0 || ahead == -14 else ahead == 7 || ahead == -7
  }

  lemma RightDayIff(target: int, now: int, nowMs: int, today: int, ms: int, step: int)
    requires 0 <= target < 7 && 0 <= nowMs < DAY_MS && 0 <= ms < DAY_MS && (step == 7 || step == 14)
    ensures DayThatComesOut(target, now, nowMs, today, ms, step) == FirstWeekday(target, now, nowMs, ms)
            <==> RightDay(ToCome(target, now, nowMs, ms), today - now, step)
  {
    AfterNow(today + Ahead(target, now), ms, now, nowMs);
    AfterNow(ThisWeek(target, now), ms, now, nowMs);
  }

  /** The first session after now, given by its day. */
  lemma FirstWeekdayIsNext(s: Schedule, now: Moment, r: Moment)
    requires (s.pattern == Weekly || s.pattern == Biweekly) && ValidSchedule(s) && Valid(now)
    requires Valid(r) && r.ms == TimeOf(s)
    ensures IsNext(s, now, r)
            <==> Ordinal(r.date) == FirstWeekday(OrElse(s.dayOfWeek, 0), Ordinal(now.date), now.ms, TimeOf(s))
  {
    Candidate(s, now, now);
    var c := WeekdayCandidate(s, now, now);
    FromTheCandidate(s, now, c, 7);
    LaterIs(c, Ms(now), 7);
    var first := Later(c, Ms(now), 7);
    MsIs(c);
    MsIs(now);
    MsIs(r);
    MsIs(first);
    SameTime(Ordinal(r.date), Ordinal(first.date), TimeOf(s));
    if IsNext(s, now, r) { assert Ms(r) == Ms(first); }
    if Ordinal(r.date) == Ordinal(first.date) { OrdinalInjective(r.date, first.date); }
  }

  lemma ComesOut(s: Schedule, now: Moment, today: Moment, c: Moment, step: int)
    requires (s.pattern == Weekly || s.pattern == Biweekly) && ValidSchedule(s) && Valid(now) && Valid(today)
    requires IsCandidate(s, now, today, c) && (step == 7 || step == 14)
    ensures var target, day := OrElse(s.dayOfWeek, 0), Ordinal(now.date);
            IsNext(s, now, Later(c, Ms(now), step))
            <==> RightDay(ToCome(target, day, now.ms, TimeOf(s)), Ordinal(today.date) - day, step)
  {
    var r, target := Later(c, Ms(now), step), OrElse(s.dayOfWeek, 0);
    LaterIs(c, Ms(now), step);
    MsIs(c);
    MsIs(now);
    FirstWeekdayIsNext(s, now, r);
    RightDayIff(target, Ordinal(now.date), now.ms, Ordinal(today.date), TimeOf(s), step);
  }

  /** This week's session of a weekly or biweekly net is still to come: its weekday is after now's, or it is now's
      weekday and the time has not come. */
  predicate StillToCome(s: Schedule, now: Moment) {
    Weekday(Ordinal(now.date)) != OrElse(s.dayOfWeek, 0) || TimeOf(s) > now.ms
  }

  lemma StillToComeIs(s: Schedule, now: Moment)
    requires ValidSchedule(s) && Valid(now)
    ensures StillToCome(s, now) <==> ToCome(OrElse(s.dayOfWeek, 0), Ordinal(now.date), now.ms, TimeOf(s))
  {
    OnTheDay(now.date, s);
    var target, day := OrElse(s.dayOfWeek, 0), Ordinal(now.date);
    AheadIs(target, day);
    AfterNow(ThisWeek(target, day), TimeOf(s), day, now.ms);
  }

  /** For every two readings of the clock: a weekly net's next session is its first one after now if and only if
      both readings fall on one day, or they are a week apart on the right sides of the session. */
  lemma WeeklyIsNextIff(s: Schedule, now: Moment, today: Moment)
    requires s.pattern == Weekly && ValidSchedule(s) && Valid(now) && Valid(today)
    ensures var r, ahead := ComputeNextSession(s, now, today), Ordinal(today.date) - Ordinal(now.date);
            && r.Some?
            && (IsNext(s, now, r.value) <==>
                  || ahead == 0 || (ahead == 7 && !StillToCome(s, now)) || (ahead == -7 && StillToCome(s, now)))
  {
    Candidate(s, now, today);
    ComesOut(s, now, today, WeekdayCandidate(s, now, today), 7);
    StillToComeIs(s, now);
  }

  /** For every two readings of the clock: a biweekly net's next session is its very next weekday after now if and
      only if this week's is to come and the readings are of one day or two weeks back, or it is over and they are
      a week apart. */
  lemma BiweeklyIsNextIff(s: Schedule, now: Moment, today: Moment)
    requires s.pattern == Biweekly && ValidSchedule(s) && Valid(now) && Valid(today)
    ensures var r, ahead := ComputeNextSession(s, now, today), Ordinal(today.date) - Ordinal(now.date);
            && r.Some?
            && (IsNext(s, now, r.value) <==>
                  if StillToCome(s, now) then ahead == 0 || ahead == -14 else ahead == 7 || ahead == -7)
  {
    Candidate(s, now, today);
    ComesOut(s, now, today, WeekdayCandidate(s, now, today), 14);
    StillToComeIs(s, now);
  }

  lemma WeekdayAfter(target: int, now: int, today: int, r: int)
    requires 0 <= target < 7 && Weekday(r) == Weekday(today + Ahead(target, now))
    ensures Weekday(r) == target <==> Weekday(today) == Weekday(now)
  {
  }

  lemma MeetsIff(s: Schedule, r: Moment, c: int, now: int, today: int)
    requires (s.pattern == Weekly || s.pattern == Biweekly) && ValidSchedule(s) && Valid(r) && r.ms == TimeOf(s)
    requires Weekday(Ordinal(r.date)) == Weekday(c) && c == today + Ahead(OrElse(s.dayOfWeek, 0), now)
    ensures Meets(s, r) <==> Weekday(today) == Weekday(now)
  {
    WeekdayAfter(OrElse(s.dayOfWeek, 0), now, today, Ordinal(r.date));
  }

  lemma LaterMeetsIff(s: Schedule, now: Moment, today: Moment, c: Moment, step: int)
    requires (s.pattern == Weekly || s.pattern == Biweekly) && ValidSchedule(s)
    requires IsCandidate(s, now, today, c) && (step == 7 || step == 14)
    ensures Meets(s, Later(c, Ms(now), step)) <==> Weekday(Ordinal(today.date)) == Weekday(Ordinal(now.date))
  {
    LaterIs(c, Ms(now), step);
    MeetsIff(s, Later(c, Ms(now), step), Ordinal(c.date), Ordinal(now.date), Ordinal(today.date));
  }

  /** When the clock passes midnight between its two readings a weekly session can come out on the wrong
      weekday: it is on the right one exactly if the two readings fall on one weekday. */
  lemma WeekdayAcrossMidnight(s: Schedule, now: Moment, today: Moment)
    requires (s.pattern == Weekly || s.pattern == Biweekly) && ValidSchedule(s) && Valid(today)
    ensures Meets(s, ComputeNextSession(s, now, today).value)
            <==> Weekday(Ordinal(today.date)) == Weekday(Ordinal(now.date))
  {
    Candidate(s, now, today);
    LaterMeetsIff(s, now, today, WeekdayCandidate(s, now, today), if s.pattern == Weekly then 7 else 14);
  }

  /** A weekly net of the weekday `now` falls on, with the clock read in that day's last millisecond and in the
      first of the next day, comes out on another weekday. */
  lemma MissedByAMillisecond(s: Schedule, date: Date)
    requires s.pattern == Weekly && ValidSchedule(s) && ValidDate(date)
    requires Weekday(Ordinal(date)) == OrElse(s.dayOfWeek, 0)
    ensures var now, today := Moment(date, DAY_MS - 1), Moment(NextDay(date), 0);
            && Valid(now) && Valid(today) && Ms(today) == Ms(now) + 1
            && ComputeNextSession(s, now, today).Some? && !Meets(s, ComputeNextSession(s, now, today).value)
  {
    NextDayOrdinal(date);
    var now, today := Moment(date, DAY_MS - 1), Moment(NextDay(date), 0);
    MsIs(now);
    MsIs(today);
    WeekdayAcrossMidnight(s, now, today);
  }

  /** 5 January 2026 is a Monday. */
  lemma AMonday()
    ensures ValidDate(Date(2026, 1, 5)) && Weekday(Ordinal(Date(2026, 1, 5))) == 1
  {
  }

  /** It happens: a Monday's net, read at the end of Monday 5 January 2026 and again just after midnight. */
  lemma WeekdayMissed()
    ensures var s := Schedule(Weekly, 20, 0, Some(1), None);
            var now, today := Moment(Date(2026, 1, 5), DAY_MS - 1), Moment(Date(2026, 1, 6), 0);
            ComputeNextSession(s, now, today).Some? && !Meets(s, ComputeNextSession(s, now, today).value)
  {
    AMonday();
    MissedByAMillisecond(Schedule(Weekly, 20, 0, Some(1), None), Date(2026, 1, 5));
  }

  // ---------------------------------------------------------------- monthly nets

  /** The monthly day in the month of `first`, at the session's time. */
  function InMonth(first: Date, s: Schedule): Moment {
    Moment(Date(first.year, first.month, OrElse(s.dayOfMonth, 1)), TimeOf(s))
  }

  function FirstOf(d: Date): Date { Date(d.year, d.month, 1) }

  predicate HasDay(first: Date, s: Schedule) { OrElse(s.dayOfMonth, 1) <= DaysInMonth(first.year, first.month) }

  /** This month's session is still to come, or next month has the day. */
  predicate Lands(s: Schedule, now: Moment) {
    var first := FirstOf(now.date);
    (HasDay(first, s) && Ms(InMonth(first, s)) > Ms(now)) || HasDay(NextMonth(first), s)
  }

  /** A month's session: on its day, or if the month is too short on an earlier-numbered day of the month after. */
  predicate SessionOf(m: Moment, first: Date, s: Schedule) {
    && Valid(m)
    && if HasDay(first, s) then m == InMonth(first, s)
       else FirstOf(m.date) == NextMonth(first) && m.date.day < OrElse(s.dayOfMonth, 1)
  }

  lemma UtcDayIs(first: Date, s: Schedule)
    requires ValidSchedule(s) && ValidDate(first) && first.day == 1
    ensures SessionOf(AtUtcTime(DayAfter(first, OrElse(s.dayOfMonth, 1) - 1), s.hours, s.minutes), first, s)
  {
    var day := OrElse(s.dayOfMonth, 1);
    DayOfMonth(first.year, first.month, day);
    DayAfterOrdinal(first, day - 1);
    OnTheDay(DayAfter(first, day - 1), s);
  }

  lemma MonthSessionIs(s: Schedule, first: Date)
    requires ValidSchedule(s) && ValidDate(first) && first.day == 1
    ensures SessionOf(MonthSession(s, first.year, first.month), first, s)
    ensures SessionOf(MonthSession(s, first.year, first.month + 1), NextMonth(first), s)
  {
    UtcDayIs(first, s);
    UtcDayIs(NextMonth(first), s);
  }

  lemma LaterDay(a: Moment, b: Moment)
    requires Valid(a) && Valid(b)
    ensures Ordinal(a.date) < Ordinal(b.date) ==> Ms(a) < Ms(b)
    ensures Ms(a) < Ms(b) ==> Ordinal(a.date) <= Ordinal(b.date)
  {
    MsIs(a);
    MsIs(b);
    DaysApart(Ordinal(a.date), a.ms, Ordinal(b.date), b.ms);
  }

  lemma DaysApart(a: int, aMs: int, b: int, bMs: int)
    requires 0 <= aMs < DAY_MS && 0 <= bMs < DAY_MS
    ensures a < b ==> InstantMs(a, aMs) < InstantMs(b, bMs)
    ensures InstantMs(a, aMs) < InstantMs(b, bMs) ==> a <= b
  {
  }

  lemma LaterMonth(a: Moment, b: Moment)
    requires Valid(a) && Valid(b)
    ensures MonthBefore(a.date.year, a.date.month, b.date.year, b.date.month) ==> Ms(a) < Ms(b)
  {
    if MonthBefore(a.date.year, a.date.month, b.date.year, b.date.month) {
      MonthsTile(a.date.year, a.date.month, b.date.year, b.date.month);
      LaterDay(a, b);
    }
  }

  /** A monthly meeting after now that is not this month's is in a later month. */
  lemma MeetsLater(s: Schedule, now: Moment, x: Moment)
    requires s.pattern == Monthly && Valid(now) && Meets(s, x) && Ms(x) > Ms(now)
    ensures (x == InMonth(FirstOf(now.date), s) && HasDay(FirstOf(now.date), s))
            || MonthBefore(now.date.year, now.date.month, x.date.year, x.date.month)
  {
    LaterMonth(x, now);
  }

  /** In or after the next month, nothing comes before the next month's session. */
  lemma NextMonthFirst(s: Schedule, now: Moment, x: Moment)
    requires s.pattern == Monthly && ValidSchedule(s) && Valid(now) && Meets(s, x)
    requires MonthBefore(now.date.year, now.date.month, x.date.year, x.date.month)
    requires HasDay(NextMonth(now.date), s)
    ensures Valid(InMonth(NextMonth(now.date), s)) && Ms(InMonth(NextMonth(now.date), s)) <= Ms(x)
  {
    OnTheDay(now.date, s);
    var r := InMonth(NextMonth(now.date), s);
    LaterMonth(r, x);
  }

  lemma ThisMonthIsNext(s: Schedule, now: Moment, r: Moment)
    requires s.pattern == Monthly && ValidSchedule(s) && Valid(now) && SessionOf(r, FirstOf(now.date), s)
    requires HasDay(FirstOf(now.date), s) && Ms(r) > Ms(now)
    ensures IsNext(s, now, r)
  {
    OnTheDay(now.date, s);
    forall x | Meets(s, x) && Ms(x) > Ms(now)
      ensures Ms(r) <= Ms(x)
    {
      MeetsLater(s, now, x);
      LaterMonth(r, x);
    }
  }

  lemma NextMonthIsAhead(s: Schedule, now: Moment, r: Moment)
    requires s.pattern == Monthly && ValidSchedule(s) && Valid(now) && SessionOf(r, NextMonth(FirstOf(now.date)), s)
    ensures Ms(r) > Ms(now) && (Meets(s, r) <==> HasDay(NextMonth(FirstOf(now.date)), s))
  {
    var next := NextMonth(FirstOf(now.date));
    assert MonthBefore(now.date.year, now.date.month, next.year, next.month);
    LaterMonth(now, r);
  }

  lemma NextMonthIsFirst(s: Schedule, now: Moment, r: Moment)
    requires s.pattern == Monthly && ValidSchedule(s) && Valid(now) && r == InMonth(NextMonth(now.date), s)
    requires HasDay(NextMonth(now.date), s)
    requires HasDay(FirstOf(now.date), s) ==> Ms(InMonth(FirstOf(now.date), s)) <= Ms(now)
    ensures forall x | Meets(s, x) && Ms(x) > Ms(now) :: Ms(r) <= Ms(x)
  {
    forall x | Meets(s, x) && Ms(x) > Ms(now)
      ensures Ms(r) <= Ms(x)
    {
      MeetsLater(s, now, x);
      NextMonthFirst(s, now, x);
    }
  }

  lemma NextMonthIsNextIff(s: Schedule, now: Moment, r: Moment)
    requires s.pattern == Monthly && ValidSchedule(s) && Valid(now) && SessionOf(r, NextMonth(FirstOf(now.date)), s)
    requires HasDay(FirstOf(now.date), s) ==> Ms(InMonth(FirstOf(now.date), s)) <= Ms(now)
    ensures Ms(r) > Ms(now) && (Meets(s, r) <==> HasDay(NextMonth(FirstOf(now.date)), s))
    ensures IsNext(s, now, r) <==> Meets(s, r)
  {
    NextMonthIsAhead(s, now, r);
    if HasDay(NextMonth(now.date), s) { NextMonthIsFirst(s, now, r); }
  }

  /** For every day of the month, 29 to 31 included: a monthly net's next session is after now, and it is the
      net's first meeting after now if and only if this month's session is still to come or next month has the
      day; otherwise it is not on its day at all. */
  lemma MonthlyIsNextIff(s: Schedule, now: Moment, today: Moment)
    requires s.pattern == Monthly && ValidSchedule(s) && Valid(now)
    ensures var r := ComputeNextSession(s, now, today);
            && r.Some? && Ms(r.value) > Ms(now)
            && (IsNext(s, now, r.value) <==> Lands(s, now)) && (Meets(s, r.value) <==> Lands(s, now))
  {
    var first := FirstOf(now.date);
    MonthSessionIs(s, first);
    var m, next := MonthSession(s, now.date.year, now.date.month), MonthSession(s, now.date.year, now.date.month + 1);
    assert m.date.month == now.date.month <==> HasDay(first, s);
    if Ms(m) > Ms(now) && HasDay(first, s) {
      ThisMonthIsNext(s, now, m);
    } else {
      NextMonthIsNextIff(s, now, next);
    }
  }

  /** It happens: a net on the 31st, computed on 31 January 2026 after that day's session, comes out in March on a
      day that is not the 31st. */
  lemma MonthlyMissed(today: Moment)
    ensures var s := Schedule(Monthly, 20, 0, None, Some(31));
            var now := Moment(Date(2026, 1, 31), 21 * 3_600_000);
            && ValidSchedule(s) && Valid(now)
            && var r := ComputeNextSession(s, now, today);
               r.Some? && Ms(r.value) > Ms(now) && !Meets(s, r.value)
  {
    MonthlyIsNextIff(Schedule(Monthly, 20, 0, None, Some(31)), Moment(Date(2026, 1, 31), 21 * 3_600_000), today);
  }

  /** On days 1 to 28 a monthly net's next session is always its first one after now. */
  lemma MonthlyIsNext(s: Schedule, now: Moment, today: Moment)
    requires s.pattern == Monthly && ValidSchedule(s) && Valid(now) && OrElse(s.dayOfMonth, 1) <= 28
    ensures var r := ComputeNextSession(s, now, today);
            r.Some? && IsNext(s, now, r.value)
  {
    MonthlyIsNextIff(s, now, today);
  }

  // ---------------------------------------------------------------- the session and the rule

  lemma ByDayInjective(a: int, b: int)
    requires 0 <= a < 7 && 0 <= b < 7
    ensures BYDAY[a] == BYDAY[b] <==> a == b
  {
    assert BYDAY[a][0] == BYDAY[b][0] && BYDAY[a][1] == BYDAY[b][1] ==> a == b;
  }

  /** The rule recurs, from a DTSTART that meets it, exactly at the meetings from there on. */
  lemma RecursIffMeets(s: Schedule, start: Moment, x: Moment)
    requires ValidSchedule(s) && (s.pattern == Daily || s.pattern == Weekly || s.pattern == Monthly)
    requires Meets(s, start) && Valid(x)
    ensures Recurs(BuildRRule(s).value, start, x) <==> Meets(s, x) && Ms(start) <= Ms(x)
  {
    if s.pattern == Weekly { ByDayInjective(Weekday(Ordinal(x.date)), OrElse(s.dayOfWeek, 0)); }
  }

  /** The event put in the calendar recurs exactly at the net's meetings after now: for daily and weekly nets,
      and for monthly ones whenever the session lands on its day. */
  lemma EventIsTheNet(s: Schedule, now: Moment, today: Moment, x: Moment)
    requires ValidSchedule(s) && Valid(now) && Valid(today) && today.date == now.date && Valid(x)
    requires s.pattern == Daily || s.pattern == Weekly || (s.pattern == Monthly && Lands(s, now))
    ensures var start, rule := ComputeNextSession(s, now, today), BuildRRule(s);
            start.Some? && rule.Some? && (Recurs(rule.value, start.value, x) <==> Meets(s, x) && Ms(x) > Ms(now))
  {
    var start := ComputeNextSession(s, now, today).value;
    if s.pattern == Daily { DailyIsNext(s, now, today); }
    else if s.pattern == Weekly { WeeklyIsNext(s, now, today); }
    else { MonthlyIsNextIff(s, now, today); }
    RecursIffMeets(s, start, x);
  }

  lemma Fortnights(a: int, b: int)
    ensures (b - a) / 7 % 2 == 0 && b % 7 == a % 7 <==> (b - a) % 14 == 0
  {
    var d := b - a;
    if d % 14 == 0 {
      assert d == 7 * (2 * (d / 14));
      assert d / 7 == 2 * (d / 14);
    }
    if b % 7 == a % 7 {
      SameWeekday(a, b);
    }
  }

  lemma FortnightRule(target: int, a: int, b: int)
    requires 0 <= target < 7 && Weekday(a) == target
    ensures (b - a) / 7 % 2 == 0 && BYDAY[Weekday(b)] == BYDAY[target] <==> (b - a) % 14 == 0
  {
    ByDayInjective(Weekday(b), target);
    Fortnights(a, b);
  }

  lemma EveryFortnight(s: Schedule, start: Moment, x: Moment)
    requires s.pattern == Biweekly && ValidSchedule(s) && Meets(s, start) && Valid(x)
    ensures Recurs(BuildRRule(s).value, start, x)
            <==> Ms(start) <= Ms(x) && x.ms == start.ms && (Ordinal(x.date) - Ordinal(start.date)) % 14 == 0
  {
    FortnightRule(OrElse(s.dayOfWeek, 0), Ordinal(start.date), Ordinal(x.date));
  }

  /** A biweekly event starts on a day of its rule and recurs every fourteen days from there. */
  lemma BiweeklyEvent(s: Schedule, now: Moment, today: Moment, x: Moment)
    requires s.pattern == Biweekly && ValidSchedule(s) && Valid(now) && Valid(today) && today.date == now.date
    requires Valid(x)
    ensures var start, rule := ComputeNextSession(s, now, today).value, BuildRRule(s).value;
            && Recurs(rule, start, start)
            && (Recurs(rule, start, x) <==>
                  && Ms(start) <= Ms(x) && x.ms == start.ms
                  && (Ordinal(x.date) - Ordinal(start.date)) % 14 == 0)
  {
    BiweeklyIsAhead(s, now, today);
    var start := ComputeNextSession(s, now, today).value;
    EveryFortnight(s, start, start);
    EveryFortnight(s, start, x);
  }
}
