/**
 The archive's calendar partitions: hours, days and months of UTC time, the boundary up to
 which they are closed, and the choice of the first partition that is due.
 */
module Partitions {
  import opened Calendar
  import opened Common

  datatype Granularity = Hourly | Daily | Monthly

  function FloorPartition(t: Time, g: Granularity): Time {
    match g
    case Hourly => t.(minute := 0, second := 0, micro := 0)
    case Daily => Time(t.date, 0, 0, 0, 0)
    case Monthly => Time(t.date.(day := 1), 0, 0, 0, 0)
  }

  function PlusHour(t: Time): Time {
    if t.hour < 23 then t.(hour := t.hour + 1) else t.(date := NextDay(t.date), hour := 0)
  }

  function MinusHour(t: Time): Time {
    if t.hour > 0 then t.(hour := t.hour - 1) else t.(date := PreviousDay(t.date), hour := 23)
  }

  function NextPartition(t: Time, g: Granularity): Time {
    match g
    case Hourly => PlusHour(t)
    case Daily => t.(date := NextDay(t.date))
    case Monthly => t.(date := NextMonth(t.date))
  }

  function ClosedBoundary(now: Time, g: Granularity, settleMinutes: int): Time {
    var boundary := FloorPartition(now, g);
    if g.Hourly? && Instant(now) < Instant(boundary) + settleMinutes * MINUTE then MinusHour(boundary) else boundary
  }

  /** The start of a partition. */
  predicate Aligned(s: Time, g: Granularity) {
    ValidTime(s) && FloorPartition(s, g) == s
  }

  /** The instants of the partition that starts at `s`. */
  predicate Inside(t: Time, s: Time, g: Granularity) {
    Instant(s) <= Instant(t) < Instant(NextPartition(s, g))
  }

  // ---------------------------------------------------------------- partitions tile time

  lemma HourSteps(t: Time)
    requires ValidTime(t)
    ensures ValidTime(PlusHour(t)) && Instant(PlusHour(t)) == Instant(t) + HOUR
    ensures ValidTime(MinusHour(t)) && Instant(MinusHour(t)) == Instant(t) - HOUR
  {
    NextDayOrdinal(t.date);
    PreviousDayOrdinal(t.date);
  }

  /** The next partition starts where this one ends. */
  lemma NextStarts(s: Time, g: Granularity)
    requires Aligned(s, g)
    ensures Aligned(NextPartition(s, g), g)
    ensures Instant(NextPartition(s, g)) - Instant(s) ==
            match g
            case Hourly => HOUR
            case Daily => DAY
            case Monthly => DaysInMonth(s.date.year, s.date.month) * DAY
  {
    match g
    case Hourly => HourSteps(s);
    case Daily => NextDayOrdinal(s.date);
    case Monthly => MonthLength(s.date.year, s.date.month);
  }

  /** What a partition's start and end are on the time line, in figures. */
  lemma PartitionSpan(s: Time, g: Granularity)
    requires Aligned(s, g)
    ensures Aligned(NextPartition(s, g), g)
    ensures Instant(NextPartition(s, g)) - Instant(s) ==
            match g
            case Hourly => 3_600_000_000
            case Daily => 86_400_000_000
            case Monthly =>
              var y := s.date.year;
              var leap := y % 4 == 0 && (y % 100 != 0 || y % 400 == 0);
              [31, if leap then 29 else 28, 31, 30, 31, 30, 31, 31, 30, 31, 30, 31][s.date.month - 1] * 86_400_000_000
  {
    NextStarts(s, g);
    MonthLengths(s.date.year, s.date.month);
  }

  /** Every datetime is in the partition of its floor. */
  lemma FloorContains(t: Time, g: Granularity)
    requires ValidTime(t)
    ensures Aligned(FloorPartition(t, g), g) && Inside(t, FloorPartition(t, g), g)
  {
    var s := FloorPartition(t, g);
    NextStarts(s, g);
    TimeOfDayRange(t);
    if g.Monthly? {
      assert Ordinal(t.date) - Ordinal(s.date) == t.date.day - 1;
      assert (Ordinal(t.date) - Ordinal(s.date)) * DAY + TimeOfDay(t) == Instant(t) - Instant(s);
    }
  }

  /** A partition ends before every later one starts. */
  lemma PartitionsApart(a: Time, b: Time, g: Granularity)
    requires Aligned(a, g) && Aligned(b, g) && Instant(a) < Instant(b)
    ensures Instant(NextPartition(a, g)) <= Instant(b)
  {
    NextStarts(a, g);
    match g
    case Hourly =>
      assert Instant(a) == (Ordinal(a.date) * 24 + a.hour) * HOUR;
      assert Instant(b) == (Ordinal(b.date) * 24 + b.hour) * HOUR;
    case Daily =>
    case Monthly =>
      if MonthBefore(b.date.year, b.date.month, a.date.year, a.date.month) {
        MonthsTile(b.date.year, b.date.month, a.date.year, a.date.month);
      } else if MonthBefore(a.date.year, a.date.month, b.date.year, b.date.month) {
        MonthsTile(a.date.year, a.date.month, b.date.year, b.date.month);
        assert (Ordinal(b.date) - Ordinal(a.date)) * DAY == Instant(b) - Instant(a);
      }
  }

  /** The floor of `t` is `s` exactly when `t` is inside the partition of `s`: partitions tile time
      with no gap and no overlap. */
  lemma FloorIffInside(t: Time, s: Time, g: Granularity)
    requires ValidTime(t) && Aligned(s, g)
    ensures FloorPartition(t, g) == s <==> Inside(t, s, g)
  {
    var f := FloorPartition(t, g);
    FloorContains(t, g);
    if Inside(t, s, g) {
      if Instant(s) < Instant(f) { PartitionsApart(s, f, g); }
      else if Instant(f) < Instant(s) { PartitionsApart(f, s, g); }
      else { InstantInjective(s, f); }
    }
  }

  // ---------------------------------------------------------------- the closed boundary

  /** The boundary is aligned and never in the future. */
  lemma BoundaryIsPast(now: Time, g: Granularity, settleMinutes: int)
    requires ValidTime(now)
    ensures Aligned(ClosedBoundary(now, g, settleMinutes), g)
    ensures Instant(ClosedBoundary(now, g, settleMinutes)) <= Instant(now)
  {
    FloorContains(now, g);
    HourSteps(FloorPartition(now, g));
  }

  /** Microseconds since the last full hour. */
  function PastTheHour(t: Time): int { t.minute * 60_000_000 + t.second * 1_000_000 + t.micro }

  /** Which boundary it is: of days and months, the start of the one now is in; of hours, the last full hour, or
      the one before until the settling time has passed. */
  lemma BoundaryIs(now: Time, g: Granularity, settleMinutes: int)
    requires ValidTime(now)
    ensures !g.Hourly? ==> Inside(now, ClosedBoundary(now, g, settleMinutes), g)
    ensures g.Hourly? ==>
              Instant(now) - Instant(ClosedBoundary(now, g, settleMinutes))
              == PastTheHour(now) + if PastTheHour(now) < settleMinutes * 60_000_000 then 3_600_000_000 else 0
  {
    FloorContains(now, g);
    HourSteps(FloorPartition(now, Hourly));
  }

  /** As time passes the boundary only moves forward. */
  lemma BoundaryMonotone(a: Time, b: Time, g: Granularity, settleMinutes: int)
    requires ValidTime(a) && ValidTime(b) && Instant(a) <= Instant(b)
    ensures Instant(ClosedBoundary(a, g, settleMinutes)) <= Instant(ClosedBoundary(b, g, settleMinutes))
  {
    var x, y := FloorPartition(a, g), FloorPartition(b, g);
    FloorContains(a, g);
    FloorContains(b, g);
    HourSteps(x);
    HourSteps(y);
    if Instant(y) < Instant(x) { PartitionsApart(y, x, g); }
    if Instant(x) < Instant(y) { PartitionsApart(x, y, g); NextStarts(x, g); }
  }

  /** Hourly partitions have settled for the whole settling time, for every clock reading, exactly when
      that time is at most an hour. */
  lemma BoundarySettled(settleMinutes: int)
    ensures (forall now | ValidTime(now) ::
               Instant(now) - Instant(ClosedBoundary(now, Hourly, settleMinutes)) >= settleMinutes * 60_000_000)
            <==> settleMinutes <= 60
  {
    forall now | ValidTime(now) && settleMinutes <= 60
      ensures Instant(now) - Instant(ClosedBoundary(now, Hourly, settleMinutes)) >= settleMinutes * 60_000_000
    {
      FloorContains(now, Hourly);
      HourSteps(FloorPartition(now, Hourly));
    }
    if settleMinutes > 60 {
      var now := Time(Date(2026, 1, 1), 0, 0, 0, 0);
      HourSteps(now);
      assert Instant(now) - Instant(ClosedBoundary(now, Hourly, settleMinutes)) == HOUR;
    }
  }

  // ---------------------------------------------------------------- scheduling

  datatype PartitionError = StartNotAligned | NotOnePartition

  function ValidatePartition(start: Time, end: Time, g: Granularity): (r: Result<(Time, Time), PartitionError>)
    requires ValidTime(start) && ValidTime(end)
    ensures r.Ok? <==> Aligned(start, g) && end == NextPartition(start, g)
    ensures r.Ok? ==> r.value == (start, end)
  {
    if start != FloorPartition(start, g) then Err(StartNotAligned)
    else if end != NextPartition(start, g) then Err(NotOnePartition)
    else Ok((start, end))
  }

  /** A closed partition, not older than the oldest row's, without a live manifest. */
  predicate Due(s: Time, oldest: Option<Time>, g: Granularity, now: Time, settleMinutes: int, live: set<(Time, Time)>) {
    && oldest.Some? && Aligned(s, g)
    && Instant(FloorPartition(oldest.value, g)) <= Instant(s)
    && Instant(NextPartition(s, g)) <= Instant(ClosedBoundary(now, g, settleMinutes))
    && (s, NextPartition(s, g)) !in live
  }

  /** first_due_partition: the earliest due partition, or none. It always passes the checks with which
      archive_partition begins, for the same `now`. */
  method FirstDuePartition(oldest: Option<Time>, g: Granularity, now: Time, settleMinutes: int, live: set<(Time, Time)>)
    returns (r: Option<(Time, Time)>)
    requires ValidTime(now) && (oldest.Some? ==> ValidTime(oldest.value))
    ensures r.None? ==> forall s :: !Due(s, oldest, g, now, settleMinutes, live)
    ensures r.Some? ==>
              && Due(r.value.0, oldest, g, now, settleMinutes, live)
              && (forall s | Due(s, oldest, g, now, settleMinutes, live) :: Instant(r.value.0) <= Instant(s))
              && ValidTime(r.value.1) && ValidatePartition(r.value.0, r.value.1, g) == Ok(r.value)
              && Instant(r.value.1) <= Instant(ClosedBoundary(now, g, settleMinutes))
  {
    if oldest.None? { return None; }
    var cursor := FloorPartition(oldest.value, g);
    var boundary := ClosedBoundary(now, g, settleMinutes);
    FloorContains(oldest.value, g);
    NextStarts(cursor, g);
    while Instant(NextPartition(cursor, g)) <= Instant(boundary)
      invariant Aligned(cursor, g) && Instant(FloorPartition(oldest.value, g)) <= Instant(cursor)
      invariant forall s | Due(s, oldest, g, now, settleMinutes, live) :: Instant(cursor) <= Instant(s)
      decreases Instant(boundary) - Instant(cursor)
    {
      var end := NextPartition(cursor, g);
      NextStarts(cursor, g);
      if (cursor, end) !in live { return Some((cursor, end)); }
      forall s | Due(s, oldest, g, now, settleMinutes, live)
        ensures Instant(end) <= Instant(s)
      {
        if Instant(s) == Instant(cursor) { InstantInjective(s, cursor); } else { PartitionsApart(cursor, s, g); }
      }
      cursor := end;
    }
    forall s | Due(s, oldest, g, now, settleMinutes, live)
      ensures false
    {
      if Instant(s) == Instant(cursor) { InstantInjective(s, cursor); }
      else { PartitionsApart(cursor, s, g); NextStarts(s, g); }
    }
    return None;
  }
}
