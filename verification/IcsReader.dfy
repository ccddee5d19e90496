/**
 A reader of the calendars, by itself: dates as section 3.3.5 of RFC 5545 writes them, recurrence rules as
 section 3.3.10 does, and events property by property; and what it reads from the generator's text.
 */
module IcsReader {
  import opened Calendar
  import opened Common
  import opened IcsText
  import opened IcsCalendar
  import opened NextSession

  /** The characters with a meaning in a calendar are those of sections 3.1 and 3.3. */
  lemma CharactersAre()
    ensures COLON as int == ':' as int && SEMICOLON as int == ';' as int && COMMA as int == ',' as int
    ensures EQUALS as int == '=' as int && BACKSLASH as int == '\\' as int && LOWER_N as int == 'n' as int
    ensures SPACE as int == ' ' as int && CRLF == [0x0D, 0x0A]
  {
  }

  // ---------------------------------------------------------------- numbers

  predicate IsDigit(u: Unit) { 0x30 <= u <= 0x39 }

  predicate AllDigits(t: Text) {
    forall i | 0 <= i < |t| :: IsDigit(t[i])
  }

  function Number(t: Text): int {
    if t == [] then 0 else 10 * Number(t[..|t| - 1]) + (t[|t| - 1] as int - 0x30)
  }

  lemma {:induction false} DigitsRead(n: nat)
    ensures AllDigits(Digits(n)) && Number(Digits(n)) == n && Digits(n) != []
  {
    var last := [ZERO + (n % 10) as Unit];
    if n >= 10 {
      DigitsRead(n / 10);
      assert (Digits(n / 10) + last)[..|Digits(n / 10)|] == Digits(n / 10);
    } else {
      assert Digits(n) == last && last[..0] == [];
      assert Number(last) == 10 * Number([]) + n;
    }
  }

  /** How many digits a number has, up to four. */
  lemma DigitsLength(n: nat)
    ensures |Digits(n)| == 1 <==> n < 10
    ensures |Digits(n)| == 2 <==> 10 <= n < 100
    ensures |Digits(n)| == 4 <==> 1000 <= n < 10_000
  {
    assert |Digits(n)| == if n < 10 then 1 else |Digits(n / 10)| + 1;
    assert n >= 10 ==> |Digits(n / 10)| == if n / 10 < 10 then 1 else |Digits(n / 10 / 10)| + 1;
    assert n >= 100 ==> |Digits(n / 10 / 10)| == if n / 100 < 10 then 1 else |Digits(n / 10 / 10 / 10)| + 1;
    assert n >= 1000 ==> |Digits(n / 10 / 10 / 10)| == if n / 1000 < 10 then 1 else |Digits(n / 10 / 10 / 10 / 10)| + 1;
    if n >= 10_000 { DigitsRead(n / 10 / 10 / 10 / 10); }
  }

  lemma TwoDigitsRead(n: int)
    requires 0 <= n < 100
    ensures |TwoDigits(n)| == 2 && AllDigits(TwoDigits(n)) && Number(TwoDigits(n)) == n
  {
    DigitsRead(n);
    DigitsLength(n);
    if n < 10 {
      assert ([ZERO] + Digits(n))[..1] == [ZERO] && Digits(n)[..0] == [] && [ZERO][..0] == [];
      assert Number([ZERO]) == 0;
      assert TwoDigits(n)[1] == Digits(n)[0];
    }
  }

  lemma YearRead(n: int)
    requires 1000 <= n <= 9999
    ensures |Decimal(n)| == 4 && AllDigits(Decimal(n)) && Number(Decimal(n)) == n
  {
    DigitsRead(n);
    DigitsLength(n);
  }

  // ---------------------------------------------------------------- dates

  /** YYYYMMDD, T, HHMMSS, Z: a moment of UTC, to the second. */
  function ReadDate(t: Text): Option<Moment> {
    if |t| == 16 && AllDigits(t[..8]) && t[8] == 0x54 && AllDigits(t[9..15]) && t[15] == 0x5A then
      var h, m, s := Number(t[9..11]), Number(t[11..13]), Number(t[13..15]);
      Some(Moment(Date(Number(t[..4]), Number(t[4..6]), Number(t[6..8])), h * 3_600_000 + m * 60_000 + s * 1000))
    else None
  }

  lemma Sixteen(y: Text, mo: Text, d: Text, t: Text, h: Text, mi: Text, s: Text, z: Text)
    requires |y| == 4 && |mo| == |d| == |h| == |mi| == |s| == 2 && |t| == |z| == 1
    ensures var all := y + mo + d + t + h + mi + s + z;
            && |all| == 16 && all[..4] == y && all[4..6] == mo && all[6..8] == d && all[8] == t[0]
            && all[9..11] == h && all[11..13] == mi && all[13..15] == s && all[15] == z[0]
            && all[..8] == y + mo + d && all[9..15] == h + mi + s
  {
  }

  lemma LettersAre()
    ensures Literal("T")[0] == 0x54 && Literal("Z")[0] == 0x5A
  {
  }

  /** A written moment of a year with four digits is read back, to the second. */
  lemma DateReads(m: Moment)
    requires Valid(m) && 1000 <= m.date.year <= 9999
    ensures ReadDate(FormatIcsDate(m)) == Some(Moment(m.date, m.ms / 1000 * 1000))
  {
    var y, mo, d := Decimal(m.date.year), TwoDigits(m.date.month), TwoDigits(m.date.day);
    var h, mi, s := TwoDigits(m.ms / 3_600_000), TwoDigits(m.ms / 60_000 % 60), TwoDigits(m.ms / 1000 % 60);
    YearRead(m.date.year);
    TwoDigitsRead(m.date.month);
    TwoDigitsRead(m.date.day);
    TwoDigitsRead(m.ms / 3_600_000);
    TwoDigitsRead(m.ms / 60_000 % 60);
    TwoDigitsRead(m.ms / 1000 % 60);
    LettersAre();
    Sixteen(y, mo, d, Literal("T"), h, mi, s, Literal("Z"));
    assert FormatIcsDate(m) == y + mo + d + Literal("T") + h + mi + s + Literal("Z");
    SecondsOf(m.ms);
  }

  lemma SecondsOf(ms: int)
    requires 0 <= ms
    ensures ms / 3_600_000 * 3_600_000 + ms / 60_000 % 60 * 60_000 + ms / 1000 % 60 * 1000 == ms / 1000 * 1000
  {
    var s := ms / 1000;
    assert ms / 60_000 == s / 60 && ms / 3_600_000 == s / 3600;
    assert s == s / 3600 * 3600 + s / 60 % 60 * 60 + s % 60;
  }

  // ---------------------------------------------------------------- recurrence rules

  /** The text's parts between semicolons. */
  function Parts(t: Text): (parts: seq<Text>)
    ensures parts != []
  {
    if t == [] then [[]]
    else if t[0] == SEMICOLON then [[]] + Parts(t[1..])
    else
      var parts := Parts(t[1..]);
      [[t[0]] + parts[0]] + parts[1..]
  }

  /** The value of the first part that gives one for the name. */
  function ParamOf(parts: seq<Text>, name: string): Option<Text> {
    if parts == [] then None
    else if Literal(name) + [EQUALS] <= parts[0] then Some(parts[0][|name| + 1..])
    else ParamOf(parts[1..], name)
  }

  datatype Rule = Rule(freq: Option<Text>, interval: int, byDay: Option<Text>, byMonthDay: Option<int>)

  /** A rule's parts: how often, every how many of these, on which weekday, on which day of the month. */
  function ReadRule(t: Text): Rule {
    var parts := Parts(t);
    var interval, monthDay := ParamOf(parts, "INTERVAL"), ParamOf(parts, "BYMONTHDAY");
    Rule(ParamOf(parts, "FREQ"), if interval.Some? then Number(interval.value) else 1, ParamOf(parts, "BYDAY"),
         if monthDay.Some? then Some(Number(monthDay.value)) else None)
  }

  lemma {:induction false} OnePart(p: Text)
    requires SEMICOLON !in p
    ensures Parts(p) == [p]
  {
    if p != [] {
      OnePart(p[1..]);
      assert p == [p[0]] + p[1..];
    }
  }

  lemma {:induction false} FirstPart(p: Text, rest: Text)
    requires SEMICOLON !in p
    ensures Parts(p + [SEMICOLON] + rest) == [p] + Parts(rest)
  {
    var t := p + [SEMICOLON] + rest;
    if p == [] {
      assert t[1..] == rest;
    } else {
      assert t[1..] == p[1..] + [SEMICOLON] + rest;
      FirstPart(p[1..], rest);
      assert p == [p[0]] + p[1..];
    }
  }

  lemma {:induction false} JoinedParts(parts: seq<Text>)
    requires parts != [] && forall i | 0 <= i < |parts| :: SEMICOLON !in parts[i]
    ensures Parts(Joined(parts, [SEMICOLON])) == parts
  {
    if |parts| == 1 {
      OnePart(parts[0]);
    } else {
      JoinedParts(parts[1..]);
      FirstPart(parts[0], Joined(parts[1..], [SEMICOLON]));
    }
  }

  lemma RuleParts(r: RRule)
    ensures Parts(RuleText(r)) == RuleParams(r)
  {
    if r.EveryMonth? { DecimalIsPlain(r.byMonthDay); }
    JoinedParts(RuleParams(r));
  }

  /** A parameter gives a value for its own name, and for another only if that name starts it. */
  lemma ParamReads(name: string, value: Text, wanted: string)
    ensures Literal(name) + [EQUALS] <= Param(name, value) && Param(name, value)[|name| + 1..] == value
    ensures wanted != "" && name != "" && UnitOf(wanted[0]) != UnitOf(name[0]) ==>
              !(Literal(wanted) + [EQUALS] <= Param(name, value))
  {
    if wanted != "" && name != "" && Literal(wanted) + [EQUALS] <= Param(name, value) {
      assert (Literal(wanted) + [EQUALS])[0] == Literal(wanted)[0] == UnitOf(wanted[0]);
      assert Param(name, value)[0] == Literal(name)[0] == UnitOf(name[0]);
    }
  }

  lemma MonthDayIsNotDay(value: Text)
    ensures !(Literal("BYDAY") + [EQUALS] <= Param("BYMONTHDAY", value))
    ensures !(Literal("BYMONTHDAY") + [EQUALS] <= Param("BYDAY", value))
  {
    var d, m := Literal("BYDAY"), Literal("BYMONTHDAY");
    assert d[2] == UnitOf('D') == 0x44 && m[2] == UnitOf('M') == 0x4D;
    assert (d + [EQUALS])[2] == 0x44 && Param("BYDAY", value)[2] == 0x44;
    assert (m + [EQUALS])[2] == 0x4D && Param("BYMONTHDAY", value)[2] == 0x4D;
  }

  lemma OneParam(a: Text, name: string)
    ensures ParamOf([a], name) == if Literal(name) + [EQUALS] <= a then Some(a[|name| + 1..]) else None
  {
  }

  lemma MoreParams(a: Text, b: seq<Text>, name: string)
    ensures ParamOf([a] + b, name)
            == if Literal(name) + [EQUALS] <= a then Some(a[|name| + 1..]) else ParamOf(b, name)
  {
    assert ([a] + b)[1..] == b;
  }

  lemma InitialsDiffer()
    ensures UnitOf('F') == 0x46 && UnitOf('I') == 0x49 && UnitOf('B') == 0x42
  {
  }

  /** What is read of one parameter and those after it. */
  lemma ReadDaily()
    ensures ReadRule(RuleText(EveryDay)) == Rule(Some(Literal("DAILY")), 1, None, None)
  {
    var p := Param("FREQ", Literal("DAILY"));
    RuleParts(EveryDay);
    InitialsDiffer();
    ParamReads("FREQ", Literal("DAILY"), "INTERVAL");
    ParamReads("FREQ", Literal("DAILY"), "BYDAY");
    ParamReads("FREQ", Literal("DAILY"), "BYMONTHDAY");
    OneParam(p, "FREQ");
    OneParam(p, "INTERVAL");
    OneParam(p, "BYDAY");
    OneParam(p, "BYMONTHDAY");
  }

  /** Of a rule that starts with FREQ, the other parameters are read from what follows. */
  lemma AfterFreq(freq: string, b: seq<Text>)
    ensures var parts := [Param("FREQ", Literal(freq))] + b;
            && ParamOf(parts, "FREQ") == Some(Literal(freq)) && ParamOf(parts, "INTERVAL") == ParamOf(b, "INTERVAL")
            && ParamOf(parts, "BYDAY") == ParamOf(b, "BYDAY")
            && ParamOf(parts, "BYMONTHDAY") == ParamOf(b, "BYMONTHDAY")
  {
    var p := Param("FREQ", Literal(freq));
    InitialsDiffer();
    ParamReads("FREQ", Literal(freq), "INTERVAL");
    ParamReads("FREQ", Literal(freq), "BYDAY");
    ParamReads("FREQ", Literal(freq), "BYMONTHDAY");
    MoreParams(p, b, "FREQ");
    MoreParams(p, b, "INTERVAL");
    MoreParams(p, b, "BYDAY");
    MoreParams(p, b, "BYMONTHDAY");
  }

  lemma ByDayReads(day: Text)
    ensures var b := [Param("BYDAY", day)];
            && ParamOf(b, "INTERVAL") == None && ParamOf(b, "BYDAY") == Some(day) && ParamOf(b, "BYMONTHDAY") == None
  {
    InitialsDiffer();
    ParamReads("BYDAY", day, "INTERVAL");
    MonthDayIsNotDay(day);
    OneParam(Param("BYDAY", day), "INTERVAL");
    OneParam(Param("BYDAY", day), "BYDAY");
    OneParam(Param("BYDAY", day), "BYMONTHDAY");
  }

  lemma IntervalReads(b: seq<Text>)
    ensures var parts := [Param("INTERVAL", Literal("2"))] + b;
            && ParamOf(parts, "INTERVAL") == Some(Literal("2"))
            && ParamOf(parts, "BYDAY") == ParamOf(b, "BYDAY")
            && ParamOf(parts, "BYMONTHDAY") == ParamOf(b, "BYMONTHDAY")
  {
    var p := Param("INTERVAL", Literal("2"));
    InitialsDiffer();
    ParamReads("INTERVAL", Literal("2"), "BYDAY");
    ParamReads("INTERVAL", Literal("2"), "BYMONTHDAY");
    MoreParams(p, b, "INTERVAL");
    MoreParams(p, b, "BYDAY");
    MoreParams(p, b, "BYMONTHDAY");
  }

  lemma TwoReads()
    ensures Number(Literal("2")) == 2
  {
    assert Literal("2")[0] == 0x32 && Literal("2")[..0] == [] && Number([]) == 0;
  }

  lemma ReadWeekly(interval: int, byDay: string)
    requires interval == 1 || interval == 2
    ensures ReadRule(RuleText(EveryWeek(interval, byDay)))
            == Rule(Some(Literal("WEEKLY")), interval, Some(Literal(byDay)), None)
  {
    RuleParts(EveryWeek(interval, byDay));
    var day := [Param("BYDAY", Literal(byDay))];
    ByDayReads(Literal(byDay));
    if interval == 1 {
      assert RuleParams(EveryWeek(interval, byDay)) == [Param("FREQ", Literal("WEEKLY"))] + day;
      AfterFreq("WEEKLY", day);
    } else {
      var b := [Param("INTERVAL", Literal("2"))] + day;
      assert RuleParams(EveryWeek(interval, byDay)) == [Param("FREQ", Literal("WEEKLY"))] + b;
      IntervalReads(day);
      AfterFreq("WEEKLY", b);
      TwoReads();
    }
  }

  lemma ByMonthDayReads(day: Text)
    ensures var b := [Param("BYMONTHDAY", day)];
            && ParamOf(b, "INTERVAL") == None && ParamOf(b, "BYDAY") == None && ParamOf(b, "BYMONTHDAY") == Some(day)
  {
    InitialsDiffer();
    ParamReads("BYMONTHDAY", day, "INTERVAL");
    MonthDayIsNotDay(day);
    OneParam(Param("BYMONTHDAY", day), "INTERVAL");
    OneParam(Param("BYMONTHDAY", day), "BYDAY");
    OneParam(Param("BYMONTHDAY", day), "BYMONTHDAY");
  }

  lemma ReadMonthly(day: int)
    requires day >= 0
    ensures ReadRule(RuleText(EveryMonth(day))) == Rule(Some(Literal("MONTHLY")), 1, None, Some(day))
  {
    RuleParts(EveryMonth(day));
    var b := [Param("BYMONTHDAY", Decimal(day))];
    assert RuleParams(EveryMonth(day)) == [Param("FREQ", Literal("MONTHLY"))] + b;
    ByMonthDayReads(Decimal(day));
    AfterFreq("MONTHLY", b);
    DigitsRead(day);
  }

  // ---------------------------------------------------------------- what recurs, by the text alone

  /** The weekday's two letters, 0 for Sunday. */
  function DayName(weekday: int): string
    requires 0 <= weekday < 7
  {
    ["SU", "MO", "TU", "WE", "TH", "FR", "SA"][weekday]
  }

  /** The recurrence set of a rule's text from the DTSTART's text on, section 3.8.5.3, for rules of one weekday or one
      day of the month: weeks are told apart by whole weeks from DTSTART. */
  predicate TextRecurs(rule: Text, start: Text, x: Moment) {
    var s := ReadDate(start);
    s.Some? && RuleRecurs(ReadRule(rule), s.value, x)
  }

  predicate RuleRecurs(r: Rule, start: Moment, x: Moment) {
    && r.freq.Some? && Ms(start) <= Ms(x) && x.ms == start.ms && r.interval > 0
    && var days := Ordinal(x.date) - Ordinal(start.date);
       if r.freq.value == Literal("DAILY") then days % r.interval == 0
       else if r.freq.value == Literal("WEEKLY") then
         days / 7 % r.interval == 0 && r.byDay == Some(Literal(DayName(Weekday(Ordinal(x.date)))))
       else r.freq.value == Literal("MONTHLY") && r.interval == 1 && r.byMonthDay == Some(x.date.day)
  }

  lemma FreqsDiffer()
    ensures Literal("DAILY") != Literal("WEEKLY") && Literal("MONTHLY") != Literal("DAILY")
    ensures Literal("MONTHLY") != Literal("WEEKLY")
  {
    assert |Literal("DAILY")| == 5 && |Literal("WEEKLY")| == 6 && |Literal("MONTHLY")| == 7;
  }

  lemma LiteralTwo(a: string, b: string)
    requires |a| == 2 && |b| == 2 && Literal(a) == Literal(b)
    requires forall i | 0 <= i < 2 :: 'A' <= a[i] <= 'Z' && 'A' <= b[i] <= 'Z'
    ensures a == b
  {
    assert UnitOf(a[0]) == Literal(a)[0] == Literal(b)[0] == UnitOf(b[0]);
    assert UnitOf(a[1]) == Literal(a)[1] == Literal(b)[1] == UnitOf(b[1]);
  }

  lemma DayNames(a: int, b: int)
    requires 0 <= a < 7 && 0 <= b < 7
    ensures BYDAY[a] == DayName(a)
    ensures Literal(DayName(a)) == Literal(DayName(b)) <==> a == b
  {
    if Literal(DayName(a)) == Literal(DayName(b)) {
      LiteralTwo(DayName(a), DayName(b));
      ByDayInjective(a, b);
    }
  }

  lemma WeeksRecur(interval: int, day: int, start: Moment, x: Moment)
    requires 0 <= day < 7 && interval > 0
    ensures RuleRecurs(Rule(Some(Literal("WEEKLY")), interval, Some(Literal(DayName(day))), None), start, x)
            <==> Recurs(EveryWeek(interval, DayName(day)), start, x)
  {
    FreqsDiffer();
    var weekday := Weekday(Ordinal(x.date));
    DayNames(day, weekday);
    DayNames(weekday, day);
    ByDayInjective(day, weekday);
  }

  lemma MonthsRecur(day: int, start: Moment, x: Moment)
    ensures RuleRecurs(Rule(Some(Literal("MONTHLY")), 1, None, Some(day)), start, x)
            <==> Recurs(EveryMonth(day), start, x)
  {
    FreqsDiffer();
  }

  /** The text of a schedule's rule and of a start says the recurrence that the rule means. */
  lemma TextRecursIs(s: Schedule, start: Moment, x: Moment)
    requires ValidSchedule(s) && !s.pattern.Adhoc? && !s.pattern.Unknown? && Valid(x) && Valid(start)
    requires 1000 <= start.date.year <= 9999 && start.ms % 1000 == 0
    ensures TextRecurs(RuleText(BuildRRule(s).value), FormatIcsDate(start), x)
            <==> Recurs(BuildRRule(s).value, start, x)
  {
    DateReads(start);
    assert start.ms / 1000 * 1000 == start.ms;
    RuleMeans(s, start, x);
  }

  lemma RuleMeans(s: Schedule, start: Moment, x: Moment)
    requires ValidSchedule(s) && !s.pattern.Adhoc? && !s.pattern.Unknown?
    ensures RuleRecurs(ReadRule(RuleText(BuildRRule(s).value)), start, x) <==> Recurs(BuildRRule(s).value, start, x)
  {
    var day := OrElse(s.dayOfWeek, 0);
    DayNames(day, day);
    match s.pattern
    case Daily => ReadDaily();
    case Weekly =>
      ReadWeekly(1, DayName(day));
      WeeksRecur(1, day, start, x);
    case Biweekly =>
      ReadWeekly(2, DayName(day));
      WeeksRecur(2, day, start, x);
    case Monthly =>
      ReadMonthly(OrElse(s.dayOfMonth, 1));
      MonthsRecur(OrElse(s.dayOfMonth, 1), start, x);
  }

  lemma WholeSeconds(s: Schedule)
    ensures TimeOf(s) % 1000 == 0
  {
    assert TimeOf(s) == 1000 * (s.hours * 3600 + s.minutes * 60);
  }

  /** The calendar's text recurs exactly at the net's meetings after now: for daily and weekly nets, and for monthly
      ones whenever the session lands on its day. */
  lemma TextIsTheNet(s: Schedule, now: Moment, today: Moment, x: Moment)
    requires ValidSchedule(s) && Valid(now) && Valid(today) && today.date == now.date && Valid(x)
    requires s.pattern == Daily || s.pattern == Weekly || (s.pattern == Monthly && Lands(s, now))
    requires 1000 <= ComputeNextSession(s, now, today).value.date.year <= 9999
    ensures TextRecurs(RuleText(BuildRRule(s).value), FormatIcsDate(ComputeNextSession(s, now, today).value), x)
            <==> Meets(s, x) && Ms(x) > Ms(now)
  {
    if s.pattern == Daily { DailyIsNext(s, now, today); }
    else if s.pattern == Weekly { WeeklyIsNext(s, now, today); }
    else { MonthlyIsNextIff(s, now, today); }
    WholeSeconds(s);
    EventIsTheNet(s, now, today, x);
    TextRecursIs(s, ComputeNextSession(s, now, today).value, x);
  }

  /** A biweekly net's text recurs every fourteen days from its session. */
  lemma TextIsBiweekly(s: Schedule, now: Moment, today: Moment, x: Moment)
    requires s.pattern == Biweekly && ValidSchedule(s) && Valid(now) && Valid(today)
    requires today.date == now.date && Valid(x)
    requires 1000 <= ComputeNextSession(s, now, today).value.date.year <= 9999
    ensures var start := ComputeNextSession(s, now, today).value;
            && Meets(s, start)
            && (TextRecurs(RuleText(BuildRRule(s).value), FormatIcsDate(start), x) <==>
                  Ms(start) <= Ms(x) && x.ms == start.ms && (Ordinal(x.date) - Ordinal(start.date)) % 14 == 0)
  {
    BiweeklyIsAhead(s, now, today);
    WholeSeconds(s);
    BiweeklyEvent(s, now, today, x);
    TextRecursIs(s, ComputeNextSession(s, now, today).value, x);
  }
}
