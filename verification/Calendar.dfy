/**
 The proleptic Gregorian calendar in UTC, as Python's datetime and JavaScript's Date both
 use it: real month lengths and leap years, an ordinal number for every day, and an
 instant in microseconds for every date and time of day. Months and years tile the days:
 the number of a day is one more than that of the day before it.
 */
module Calendar {

  datatype Date = Date(year: int, month: int, day: int)

  predicate Leap(year: int) {
    year % 4 == 0 && (year % 100 != 0 || year % 400 == 0)
  }

  function DaysInMonth(year: int, month: int): int {
    if month == 2 then (if Leap(year) then 29 else 28)
    else if month == 4 || month == 6 || month == 9 || month == 11 then 30
    else 31
  }

  predicate ValidDate(d: Date) {
    1 <= d.month <= 12 && 1 <= d.day <= DaysInMonth(d.year, d.month)
  }

  /** Days before 1 January of the year, counted so that 0001-01-01 is day 1. */
  function DaysBeforeYear(year: int): int {
    var y := year - 1;
    365 * y + y / 4 - y / 100 + y / 400
  }

  /** Days of the year before the first of the month. */
  function DaysBeforeMonth(year: int, month: int): int {
    if month <= 1 then 0 else DaysBeforeMonth(year, month - 1) + DaysInMonth(year, month - 1)
  }

  function MonthStart(year: int, month: int): int {
    DaysBeforeYear(year) + DaysBeforeMonth(year, month)
  }

  /** The day's number; 0001-01-01, a Monday, is 1. */
  function Ordinal(d: Date): int {
    MonthStart(d.year, d.month) + d.day
  }

  /** 0 for Sunday to 6 for Saturday. */
  function Weekday(ordinal: int): int { ordinal % 7 }

  function NextDay(d: Date): Date {
    if d.day < DaysInMonth(d.year, d.month) then Date(d.year, d.month, d.day + 1)
    else if d.month < 12 then Date(d.year, d.month + 1, 1)
    else Date(d.year + 1, 1, 1)
  }

  function PreviousDay(d: Date): Date {
    if d.day > 1 then Date(d.year, d.month, d.day - 1)
    else if d.month > 1 then Date(d.year, d.month - 1, DaysInMonth(d.year, d.month - 1))
    else Date(d.year - 1, 12, 31)
  }

  /** The first of the following month. */
  function NextMonth(d: Date): Date {
    if d.month == 12 then Date(d.year + 1, 1, 1) else Date(d.year, d.month + 1, 1)
  }

  lemma QuotientSteps(y: int)
    ensures y / 4 == (y - 1) / 4 + if y % 4 == 0 then 1 else 0
    ensures y / 100 == (y - 1) / 100 + if y % 100 == 0 then 1 else 0
    ensures y / 400 == (y - 1) / 400 + if y % 400 == 0 then 1 else 0
  {
  }

  lemma CenturiesAreFourths(y: int)
    ensures y % 100 == 0 ==> y % 4 == 0
    ensures y % 400 == 0 ==> y % 100 == 0
  {
    if y % 100 == 0 { assert y == 4 * (25 * (y / 100)); }
    if y % 400 == 0 { assert y == 100 * (4 * (y / 400)); }
  }

  lemma YearLength(year: int)
    ensures DaysBeforeYear(year + 1) == DaysBeforeYear(year) + if Leap(year) then 366 else 365
  {
    QuotientSteps(year);
    CenturiesAreFourths(year);
  }

  lemma LastMonth(year: int)
    ensures DaysBeforeMonth(year, 12) + 31 == if Leap(year) then 366 else 365
  {
    assert DaysBeforeMonth(year, 2) == 31;
    assert DaysBeforeMonth(year, 4) == 62 + DaysInMonth(year, 2);
    assert DaysBeforeMonth(year, 6) == 123 + DaysInMonth(year, 2);
    assert DaysBeforeMonth(year, 8) == 184 + DaysInMonth(year, 2);
    assert DaysBeforeMonth(year, 10) == 245 + DaysInMonth(year, 2);
  }

  lemma MonthLength(year: int, month: int)
    requires 1 <= month <= 12
    ensures var n := NextMonth(Date(year, month, 1));
            MonthStart(n.year, n.month) == MonthStart(year, month) + DaysInMonth(year, month)
  {
    if month == 12 {
      YearLength(year);
      LastMonth(year);
    }
  }

  // ---------------------------------------------------------------- the calendar as it hangs on the wall

  /** The months' lengths, and the days before each month, in a common year. */
  const LENGTHS: seq<int> := [31, 28, 31, 30, 31, 30, 31, 31, 30, 31, 30, 31]
  const BEFORE: seq<int> := [0, 31, 59, 90, 120, 151, 181, 212, 243, 273, 304, 334]

  /** The twelve lengths; February has one day more in leap years. */
  lemma MonthLengths(year: int, month: int)
    requires 1 <= month <= 12
    ensures DaysInMonth(year, month) == LENGTHS[month - 1] + if month == 2 && Leap(year) then 1 else 0
    ensures LENGTHS == [31, 28, 31, 30, 31, 30, 31, 31, 30, 31, 30, 31]
  {
  }

  lemma {:induction false} DaysBefore(year: int, month: int)
    requires 1 <= month <= 12
    ensures DaysBeforeMonth(year, month) == BEFORE[month - 1] + if month > 2 && Leap(year) then 1 else 0
  {
    if month > 1 {
      DaysBefore(year, month - 1);
      MonthLengths(year, month - 1);
    }
  }

  /** A day's number, in figures: the years before it, the days of the year before its month, and its day. */
  lemma OrdinalIs(d: Date)
    requires 1 <= d.month <= 12
    ensures var y, leap := d.year - 1, d.year % 4 == 0 && (d.year % 100 != 0 || d.year % 400 == 0);
            Ordinal(d) == 365 * y + y / 4 - y / 100 + y / 400
                          + [0, 31, 59, 90, 120, 151, 181, 212, 243, 273, 304, 334][d.month - 1]
                          + (if d.month > 2 && leap then 1 else 0) + d.day
  {
    DaysBefore(d.year, d.month);
  }

  /** Leap days: every four years, in 2000, but not in 1900. */
  lemma LeapDays()
    ensures ValidDate(Date(2024, 2, 29)) && ValidDate(Date(2000, 2, 29))
    ensures !ValidDate(Date(2023, 2, 29)) && !ValidDate(Date(1900, 2, 29))
    ensures NextDay(Date(2024, 2, 28)) == Date(2024, 2, 29) && NextDay(Date(2024, 2, 29)) == Date(2024, 3, 1)
    ensures NextDay(Date(1900, 2, 28)) == Date(1900, 3, 1) && NextDay(Date(2000, 2, 28)) == Date(2000, 2, 29)
  {
  }

  /** 1 January 1970 is day 719163, a Thursday. */
  lemma TheEpoch()
    ensures Ordinal(Date(1970, 1, 1)) == 719_163 && Weekday(Ordinal(Date(1970, 1, 1))) == 4
  {
    OrdinalIs(Date(1970, 1, 1));
  }

  /** The next day, on the wall: the month's next day until its last one, then the first of the next month. */
  lemma NextDayIs(d: Date)
    requires ValidDate(d)
    ensures var leap := d.year % 4 == 0 && (d.year % 100 != 0 || d.year % 400 == 0);
            var last := [31, if leap then 29 else 28, 31, 30, 31, 30, 31, 31, 30, 31, 30, 31][d.month - 1];
            && 1 <= d.day <= last
            && NextDay(d) == if d.day < last then Date(d.year, d.month, d.day + 1)
                             else if d.month < 12 then Date(d.year, d.month + 1, 1) else Date(d.year + 1, 1, 1)
  {
    MonthLengths(d.year, d.month);
  }

  /** Going to the next day advances the ordinal by exactly one. */
  lemma NextDayOrdinal(d: Date)
    requires ValidDate(d)
    ensures ValidDate(NextDay(d)) && Ordinal(NextDay(d)) == Ordinal(d) + 1
  {
    MonthLength(d.year, d.month);
  }

  lemma PreviousDayOrdinal(d: Date)
    requires ValidDate(d)
    ensures ValidDate(PreviousDay(d)) && Ordinal(PreviousDay(d)) == Ordinal(d) - 1
  {
    if d.day == 1 {
      var p := PreviousDay(d);
      MonthLength(p.year, p.month);
    }
  }

  predicate MonthBefore(y: int, m: int, y': int, m': int) {
    y < y' || (y == y' && m < m')
  }

  lemma {:induction false} YearsGrow(y: int, y': int)
    requires y < y'
    ensures DaysBeforeYear(y + 1) <= DaysBeforeYear(y')
    decreases y' - y
  {
    if y + 1 < y' {
      YearsGrow(y + 1, y');
      YearLength(y + 1);
    }
  }

  lemma {:induction false} MonthsGrow(year: int, m: int, m': int)
    requires 1 <= m < m' <= 12
    ensures DaysBeforeMonth(year, m) + DaysInMonth(year, m) <= DaysBeforeMonth(year, m')
  {
    if m + 1 < m' { MonthsGrow(year, m, m' - 1); }
  }

  lemma {:induction false} MonthInsideYear(year: int, m: int)
    requires 1 <= m <= 12
    ensures 0 <= DaysBeforeMonth(year, m)
    ensures DaysBeforeMonth(year, m) + DaysInMonth(year, m) <= if Leap(year) then 366 else 365
  {
    LastMonth(year);
    if m < 12 { MonthsGrow(year, m, 12); }
    if m > 1 { MonthsGrow(year, 1, m); }
  }

  /** A month ends before every later month begins. */
  lemma MonthsTile(y: int, m: int, y': int, m': int)
    requires 1 <= m <= 12 && 1 <= m' <= 12 && MonthBefore(y, m, y', m')
    ensures MonthStart(y, m) + DaysInMonth(y, m) <= MonthStart(y', m')
  {
    if y == y' {
      MonthsGrow(y, m, m');
    } else {
      YearsGrow(y, y');
      YearLength(y);
      MonthInsideYear(y, m);
      MonthInsideYear(y', m');
    }
  }

  /** Days are numbered in calendar order, so no two dates share a number. */
  lemma OrdinalInjective(a: Date, b: Date)
    requires ValidDate(a) && ValidDate(b) && Ordinal(a) == Ordinal(b)
    ensures a == b
  {
    if MonthBefore(a.year, a.month, b.year, b.month) { MonthsTile(a.year, a.month, b.year, b.month); }
    if MonthBefore(b.year, b.month, a.year, a.month) { MonthsTile(b.year, b.month, a.year, a.month); }
  }

  // ---------------------------------------------------------------- times

  datatype Time = Time(date: Date, hour: int, minute: int, second: int, micro: int)

  predicate ValidTime(t: Time) {
    ValidDate(t.date) && 0 <= t.hour < 24 && 0 <= t.minute < 60 && 0 <= t.second < 60 && 0 <= t.micro < 1_000_000
  }

  const MINUTE := 60_000_000
  const HOUR := 3_600_000_000
  const DAY := 86_400_000_000

  function TimeOfDay(t: Time): int {
    t.hour * HOUR + t.minute * MINUTE + t.second * 1_000_000 + t.micro
  }

  /** Microseconds on one time line; comparing datetimes compares their instants. */
  function Instant(t: Time): int {
    Ordinal(t.date) * DAY + TimeOfDay(t)
  }

  lemma TimeOfDayRange(t: Time)
    requires ValidTime(t)
    ensures 0 <= TimeOfDay(t) < DAY
  {
  }

  /** No two datetimes are the same instant. */
  lemma InstantInjective(a: Time, b: Time)
    requires ValidTime(a) && ValidTime(b) && Instant(a) == Instant(b)
    ensures a == b
  {
    TimeOfDayRange(a);
    TimeOfDayRange(b);
    OrdinalInjective(a.date, b.date);
  }
}
