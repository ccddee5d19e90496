/** The calendars read property by property: which lines a bundle's calendar has, in which order, and what a
    reader makes of the values of each net's event. */
module IcsEvents {
  import opened Calendar
  import opened Common
  import opened IcsText
  import opened IcsCalendar
  import opened IcsReader
  import opened NextSession

  // ---------------------------------------------------------------- what lines say

  predicate Says(line: Text, name: string, value: Text) { line == Literal(name) + [COLON] + value }

  /** The value of a line of this name. */
  function After(line: Text, name: string): Text { if |line| > |name| then line[|name| + 1..] else [] }

  predicate Named(line: Text, name: string) { Says(line, name, After(line, name)) }

  lemma Named1(name: string, value: Text)
    ensures var line := LineOf(Field(name, value)); Says(line, name, value) && After(line, name) == value
  {
  }

  /** A date's text is read as the moment, to the second, if its year has four digits. */
  predicate DateSays(t: Text, m: Moment) {
    Valid(m) && 1000 <= m.date.year <= 9999 ==> ReadDate(t) == Some(Moment(m.date, m.ms / 1000 * 1000))
  }

  /** The text is of a moment that many minutes after the session. */
  predicate EndsAt(t: Text, end: Moment, session: Moment, minutes: int) {
    Valid(session) ==> Valid(end) && Ms(end) == Ms(session) + minutes * 60_000 && DateSays(t, end)
  }

  ghost predicate EndSays(t: Text, session: Moment, minutes: int) {
    exists end :: EndsAt(t, end, session, minutes)
  }

  /** A rule's text says how often, every how many weeks, and on which day. */
  predicate RuleSays(t: Text, s: Schedule) {
    ValidSchedule(s) ==>
      match s.pattern
      case Daily => ReadRule(t) == Rule(Some(Literal("DAILY")), 1, None, None)
      case Weekly =>
        ReadRule(t) == Rule(Some(Literal("WEEKLY")), 1, Some(Literal(DayName(OrElse(s.dayOfWeek, 0)))), None)
      case Biweekly =>
        ReadRule(t) == Rule(Some(Literal("WEEKLY")), 2, Some(Literal(DayName(OrElse(s.dayOfWeek, 0)))), None)
      case Monthly => ReadRule(t) == Rule(Some(Literal("MONTHLY")), 1, None, Some(OrElse(s.dayOfMonth, 1)))
      case _ => false
  }

  /** The first lines of an event: what it is, and when. */
  ghost predicate TimesSay(lines: seq<Text>, net: Net, session: Moment, stamp: Moment)
    requires |lines| == 12 && net.schedule.Some?
  {
    && Says(lines[0], "BEGIN", Literal("VEVENT"))
    && Says(lines[1], "UID", Literal("net-") + net.id + Literal("@propulse.app"))
    && Named(lines[2], "DTSTAMP") && DateSays(After(lines[2], "DTSTAMP"), stamp)
    && Named(lines[3], "DTSTART") && DateSays(After(lines[3], "DTSTART"), session)
    && Named(lines[4], "DTEND")
    && EndSays(After(lines[4], "DTEND"), session, if net.durationMinutes.Some? then net.durationMinutes.value else 60)
    && Named(lines[5], "RRULE") && RuleSays(After(lines[5], "RRULE"), net.schedule.value)
  }

  /** The other lines: the net in words. Names and places are unescaped as they were given. */
  predicate TextsSay(lines: seq<Text>, net: Net)
    requires |lines| == 12
  {
    && Named(lines[6], "SUMMARY") && Unescape(After(lines[6], "SUMMARY")) == UnixLines(net.name)
    && Says(lines[7], "DESCRIPTION", BuildDescription(net))
    && Named(lines[8], "LOCATION")
    && Unescape(After(lines[8], "LOCATION")) == UnixLines(net.frequency + [SPACE] + net.mode)
    && Says(lines[9], "URL", Literal("https://propulse.vercel.app/nets/") + net.id)
    && Says(lines[10], "STATUS", Literal("CONFIRMED")) && Says(lines[11], "END", Literal("VEVENT"))
  }

  // ---------------------------------------------------------------- one event

  /** The net's next session at these readings of the clock. */
  function NextIn(net: Net, clock: Clock): Option<Moment>
    requires net.schedule.Some?
  {
    ComputeNextSession(net.schedule.value, clock.now, clock.today)
  }

  lemma EndIs(session: Moment, minutes: int)
    requires Valid(session)
    ensures var end := EndTime(session, minutes); Valid(end) && Ms(end) == Ms(session) + minutes * 60_000
  {
    var ms := session.ms + minutes * 60_000;
    DayAfterOrdinal(session.date, ms / DAY_MS);
    var end := EndTime(session, minutes);
    MsIs(session);
    MsIs(end);
    DaysAndRest(Ordinal(session.date), ms);
  }

  lemma DaysAndRest(day: int, ms: int)
    ensures InstantMs(day + ms / DAY_MS, ms % DAY_MS) == day * DAY_MS + ms
  {
  }

  lemma RuleIsSaid(s: Schedule)
    requires !s.pattern.Adhoc? && !s.pattern.Unknown?
    ensures RuleSays(RuleText(BuildRRule(s).value), s)
  {
    if ValidSchedule(s) {
      var day := OrElse(s.dayOfWeek, 0);
      DayNames(day, day);
      match s.pattern
      case Daily => ReadDaily();
      case Weekly => ReadWeekly(1, DayName(day));
      case Biweekly => ReadWeekly(2, DayName(day));
      case Monthly => ReadMonthly(OrElse(s.dayOfMonth, 1));
    }
  }

  lemma DateIsSaid(m: Moment)
    ensures DateSays(FormatIcsDate(m), m)
  {
    if Valid(m) && 1000 <= m.date.year <= 9999 { DateReads(m); }
  }

  lemma Unescaped(t: Text)
    ensures Unescape(EscapeIcsText(t)) == UnixLines(t)
  {
    PassesAreOneEscape(t);
    EscapeRoundTrip(t);
  }

  lemma Twelve(a: seq<Field>, b: seq<Field>, c: seq<Field>, e: seq<Field>, f: seq<Field>)
    requires |a| == 2 && |b| == 3 && |c| == 1 && |e| == 4 && |f| == 2
    ensures var all := a + (b + (c + (e + f)));
            && |all| == 12 && all[0] == a[0] && all[1] == a[1] && all[2] == b[0] && all[3] == b[1] && all[4] == b[2]
            && all[5] == c[0] && all[6] == e[0] && all[7] == e[1] && all[8] == e[2] && all[9] == e[3]
            && all[10] == f[0] && all[11] == f[1]
  {
  }

  lemma RuleFieldIs(s: Schedule)
    requires !s.pattern.Adhoc? && !s.pattern.Unknown?
    ensures RuleFields(s) == [Field("RRULE", RuleText(BuildRRule(s).value))]
  {
  }

  lemma FieldsAre(net: Net, clock: Clock)
    requires HasEvent(net)
    ensures var fs := EventFields(net, clock);
            && |fs| == 12 && fs[0] == Opening(net)[0] && fs[1] == Opening(net)[1]
            && NextOf(net, clock).Some?
            && (var times := TimeFields(net, NextOf(net, clock).value, clock.stamp);
                fs[2] == times[0] && fs[3] == times[1] && fs[4] == times[2])
            && fs[5] == Field("RRULE", RuleText(BuildRRule(net.schedule.value).value))
            && fs[6] == TextFields(net)[0] && fs[7] == TextFields(net)[1] && fs[8] == TextFields(net)[2]
            && fs[9] == TextFields(net)[3] && fs[10] == Closing()[0] && fs[11] == Closing()[1]
  {
    HasSession(net, clock);
    RuleFieldIs(net.schedule.value);
    Twelve(Opening(net), TimeFields(net, NextOf(net, clock).value, clock.stamp), RuleFields(net.schedule.value),
           TextFields(net), Closing());
  }

  lemma TimesAreSaid(lines: seq<Text>, net: Net, session: Moment, stamp: Moment)
    requires |lines| == 12 && HasEvent(net)
    requires lines[0] == LineOf(Opening(net)[0]) && lines[1] == LineOf(Opening(net)[1])
    requires lines[2] == LineOf(Field("DTSTAMP", FormatIcsDate(stamp)))
    requires lines[3] == LineOf(Field("DTSTART", FormatIcsDate(session)))
    requires lines[4] == LineOf(Field("DTEND", FormatIcsDate(EndTime(session, OrElse(net.durationMinutes, 60)))))
    requires lines[5] == LineOf(Field("RRULE", RuleText(BuildRRule(net.schedule.value).value)))
    ensures TimesSay(lines, net, session, stamp)
  {
    var minutes := OrElse(net.durationMinutes, 60);
    var end := EndTime(session, minutes);
    Named1("BEGIN", Literal("VEVENT"));
    Named1("UID", UidText(net.id));
    assert UidText(net.id) == Literal("net-") + net.id + Literal("@propulse.app");
    Named1("DTSTAMP", FormatIcsDate(stamp));
    Named1("DTSTART", FormatIcsDate(session));
    Named1("DTEND", FormatIcsDate(end));
    Named1("RRULE", RuleText(BuildRRule(net.schedule.value).value));
    DateIsSaid(stamp);
    DateIsSaid(session);
    DateIsSaid(end);
    if Valid(session) { EndIs(session, minutes); }
    assert EndsAt(After(lines[4], "DTEND"), end, session, minutes);
    RuleIsSaid(net.schedule.value);
  }

  lemma TextsAreSaid(lines: seq<Text>, net: Net)
    requires |lines| == 12
    requires lines[6] == LineOf(Field("SUMMARY", EscapeIcsText(net.name)))
    requires lines[7] == LineOf(Field("DESCRIPTION", BuildDescription(net)))
    requires lines[8] == LineOf(Field("LOCATION", EscapeIcsText(net.frequency + [SPACE] + net.mode)))
    requires lines[9] == LineOf(Field("URL", Literal("https://propulse.vercel.app/nets/") + net.id))
    requires lines[10] == LineOf(Closing()[0]) && lines[11] == LineOf(Closing()[1])
    ensures TextsSay(lines, net)
  {
    Named1("SUMMARY", EscapeIcsText(net.name));
    Unescaped(net.name);
    Named1("DESCRIPTION", BuildDescription(net));
    Named1("LOCATION", EscapeIcsText(net.frequency + [SPACE] + net.mode));
    Unescaped(net.frequency + [SPACE] + net.mode);
    Named1("URL", Literal("https://propulse.vercel.app/nets/") + net.id);
    Named1("STATUS", Literal("CONFIRMED"));
    Named1("END", Literal("VEVENT"));
  }

  /** Twelve lines say the net and its next session at these readings of the clock. */
  ghost predicate NetSays(lines: seq<Text>, net: Net, clock: Clock) {
    && |lines| == 12 && net.schedule.Some? && NextIn(net, clock).Some?
    && TimesSay(lines, net, NextIn(net, clock).value, clock.stamp) && TextsSay(lines, net)
  }

  /** A net's event has twelve lines, and a reader finds in them the net: its identity, its next session's start to
      the second, an end that is its minutes later, 60 when none are given, its rule, its name, description, place and
      address. */
  lemma EventSays(net: Net, clock: Clock)
    requires HasEvent(net)
    ensures NetSays(Lines(EventFields(net, clock)), net, clock)
  {
    FieldsAre(net, clock);
    var lines := Lines(EventFields(net, clock));
    TimesAreSaid(lines, net, NextOf(net, clock).value, clock.stamp);
    TextsAreSaid(lines, net);
  }

  /** By its text alone, an event recurs exactly at the net's meetings after now: for daily and weekly nets, and for
      monthly ones whenever the session lands on its day. */
  lemma EventRecurs(net: Net, clock: Clock, x: Moment)
    requires HasEvent(net) && ValidSchedule(net.schedule.value) && Valid(x)
    requires Valid(clock.now) && Valid(clock.today) && clock.today.date == clock.now.date
    requires var s := net.schedule.value;
             s.pattern == Daily || s.pattern == Weekly || (s.pattern == Monthly && Lands(s, clock.now))
    requires NextIn(net, clock).Some? && 1000 <= NextIn(net, clock).value.date.year <= 9999
    ensures var lines := Lines(EventFields(net, clock));
            && |lines| == 12
            && (TextRecurs(After(lines[5], "RRULE"), After(lines[3], "DTSTART"), x)
                <==> Meets(net.schedule.value, x) && Ms(x) > Ms(clock.now))
  {
    FieldsAre(net, clock);
    var rule, session := RuleText(BuildRRule(net.schedule.value).value), NextIn(net, clock).value;
    Named1("RRULE", rule);
    Named1("DTSTART", FormatIcsDate(session));
    TextIsTheNet(net.schedule.value, clock.now, clock.today, x);
  }

  /** The description's lines, in order: frequency and mode, the alternative frequency if one is given, band, minutes
      if any, repeater if any, a blank line and the description if one is given, a blank line and the application's
      name. */
  lemma DescriptionLists(net: Net)
    ensures DescriptionParts(net)
            == [Literal("Frequency: ") + net.frequency + [SPACE] + net.mode]
               + (if net.altFrequency.Some? && net.altFrequency.value != []
                  then [Literal("Alt Frequency: ") + net.altFrequency.value] else [])
               + [Literal("Band: ") + net.band]
               + (if net.durationMinutes.Some? && net.durationMinutes.value != 0
                  then [Literal("Duration: ") + Decimal(net.durationMinutes.value) + Literal(" minutes")] else [])
               + (if net.repeater.Some? then [RepeaterLine(net.repeater.value)] else [])
               + (if net.description.Some? && net.description.value != [] then [[], net.description.value] else [])
               + [[], Literal("Powered by Propulse \U{2014} https://propulse.vercel.app")]
  {
    assert FrequencyPart(net) == Literal("Frequency: ") + net.frequency + [SPACE] + net.mode;
    if net.durationMinutes.Some? {
      var n := Decimal(net.durationMinutes.value);
      assert Literal("Duration: ") + (n + Literal(" minutes")) == Literal("Duration: ") + n + Literal(" minutes");
    }
    if net.repeater.Some? { RepeaterIs(net.repeater.value); }
  }

  function RepeaterLine(r: Repeater): Text {
    Literal("Repeater: ") + r.callsign + Literal(" (") + r.offset + Literal(", ") + r.tone + Literal(")")
  }

  lemma RepeaterIs(r: Repeater)
    ensures RepeaterText(r) == RepeaterLine(r)
  {
  }

  /** Minutes are written in decimal. */
  lemma MinutesRead(n: int)
    requires n >= 0
    ensures AllDigits(Decimal(n)) && Number(Decimal(n)) == n
  {
    DigitsRead(n);
  }

  /** Visible ASCII characters other than backslash and semicolon are written as themselves. */
  lemma AsciiIs(c: char)
    requires 0x20 <= c as int < 0x7F && c != '\\' && c != ';'
    ensures UnitOf(c) as int == c as int
  {
  }

  // ---------------------------------------------------------------- a whole calendar

  /** How many nets have sessions. */
  function EventCount(nets: seq<Net>): nat {
    if nets == [] then 0 else EventCount(nets[..|nets| - 1]) + if HasEvent(nets[|nets| - 1]) then 1 else 0
  }

  lemma EventLength(net: Net, clock: Clock)
    ensures |EventFields(net, clock)| == if HasEvent(net) then 12 else 0
  {
    HasSession(net, clock);
    if HasEvent(net) { FieldsAre(net, clock); }
  }

  lemma {:induction false} ConcatLength(nets: seq<Net>, events: seq<seq<Field>>)
    requires |events| == |nets| && forall i | 0 <= i < |nets| :: |events[i]| == if HasEvent(nets[i]) then 12 else 0
    ensures |Concat(events)| == 12 * EventCount(nets)
  {
    if nets != [] { ConcatLength(nets[..|nets| - 1], events[..|nets| - 1]); }
  }

  /** An event's place among all. */
  lemma {:induction false} ConcatAt(events: seq<seq<Field>>, i: nat)
    requires i < |events|
    ensures var at := |Concat(events[..i])|;
            at + |events[i]| <= |Concat(events)| && Concat(events)[at..at + |events[i]|] == events[i]
    decreases |events|
  {
    var n := |events| - 1;
    if i < n {
      ConcatAt(events[..n], i);
      assert events[..n][..i] == events[..i];
    }
  }

  lemma PartOfLines(a: seq<Field>, b: seq<Field>, c: seq<Field>, at: nat, n: nat)
    requires at + n <= |b|
    ensures |a| + at + n <= |Lines(a + b + c)|
    ensures (Lines(a + b + c) + [[]])[|a| + at..|a| + at + n] == Lines(b[at..at + n])
  {
  }

  /** The lines of a calendar's head and foot. */
  predicate FrameSays(lines: seq<Text>, name: Text)
    requires |lines| >= 7
  {
    && Says(lines[0], "BEGIN", Literal("VCALENDAR")) && Says(lines[1], "VERSION", Literal("2.0"))
    && Says(lines[2], "PRODID", Literal("-//Propulse//Ham Radio Net Calendar//EN"))
    && Says(lines[3], "CALSCALE", Literal("GREGORIAN")) && Says(lines[4], "METHOD", Literal("PUBLISH"))
    && Named(lines[5], "X-WR-CALNAME") && Unescape(After(lines[5], "X-WR-CALNAME")) == UnixLines(name)
    && Says(lines[|lines| - 1], "END", Literal("VCALENDAR"))
  }

  lemma FrameIsSaid(name: Text, events: seq<Field>)
    ensures FrameSays(Lines(HeaderFields(name) + events + FOOTER), name)
  {
    var lines, header := Lines(HeaderFields(name) + events + FOOTER), HeaderFields(name);
    assert forall i | 0 <= i < 6 :: lines[i] == LineOf(header[i]);
    assert lines[|lines| - 1] == LineOf(FOOTER[0]);
    Named1("X-WR-CALNAME", EscapeIcsText(name));
    Unescaped(name);
  }

  /** Where the i-th net's event begins among a calendar's lines. */
  function Offset(nets: seq<Net>, i: nat): nat
    requires i <= |nets|
  {
    6 + 12 * EventCount(nets[..i])
  }

  lemma EventsLengths(nets: seq<Net>, clocks: seq<Clock>, i: nat)
    requires |clocks| == |nets| && i <= |nets|
    ensures |Concat(Events(nets, clocks)[..i])| == 12 * EventCount(nets[..i])
  {
    var events := Events(nets, clocks);
    forall j | 0 <= j < |nets|
      ensures |events[j]| == if HasEvent(nets[j]) then 12 else 0
    {
      EventLength(nets[j], clocks[j]);
    }
    ConcatLength(nets[..i], events[..i]);
  }

  lemma PlaceAmong(header: seq<Field>, events: seq<seq<Field>>, i: nat, k: nat)
    requires i < |events| && |Concat(events[..i])| == k && |events[i]| == 12
    ensures var lines, at := Lines(header + Concat(events) + FOOTER), |header| + k;
            at + 12 < |lines| && (lines + [[]])[at..at + 12] == Lines(events[i])
  {
    ConcatAt(events, i);
    PartOfLines(header, Concat(events), FOOTER, k, 12);
  }

  lemma EventPlace(name: Text, nets: seq<Net>, clocks: seq<Clock>, i: nat)
    requires |clocks| == |nets| && i < |nets| && HasEvent(nets[i])
    ensures var lines, at := BundleLines(name, nets, clocks), Offset(nets, i);
            at + 12 < |lines| && (lines + [[]])[at..at + 12] == Lines(EventFields(nets[i], clocks[i]))
  {
    var events := Events(nets, clocks);
    EventsLengths(nets, clocks, i);
    EventLength(nets[i], clocks[i]);
    PlaceAmong(HeaderFields(name), events, i, 12 * EventCount(nets[..i]));
  }

  lemma BundleLength(name: Text, nets: seq<Net>, clocks: seq<Clock>)
    requires |clocks| == |nets|
    ensures |BundleLines(name, nets, clocks)| == 7 + 12 * EventCount(nets)
  {
    EventsLengths(nets, clocks, |nets|);
    assert Events(nets, clocks)[..|nets|] == Events(nets, clocks) && nets[..|nets|] == nets;
  }

  /** A bundle's calendar, read from its text: a head and a foot, and between them twelve lines for each net with
      sessions, and nothing else. */
  lemma CalendarSays(name: Text, nets: seq<Net>, clocks: seq<Clock>, text: Text)
    requires |clocks| == |nets| && text == Document(BundleLines(name, nets, clocks)) && AllClean(nets)
    ensures var read := SplitAtCrlf(Unfold(text));
            |read| == 8 + 12 * EventCount(nets) && read[|read| - 1] == [] && FrameSays(read[..|read| - 1], name)
  {
    CalendarReadBack(name, nets, clocks);
    var lines, read := BundleLines(name, nets, clocks), SplitAtCrlf(Unfold(text));
    BundleLength(name, nets, clocks);
    FrameIsSaid(name, Concat(Events(nets, clocks)));
    assert read[..|read| - 1] == lines;
  }

  /** Of each net with sessions, in the order of the nets, the calendar's text has twelve lines that say it. */
  lemma CalendarSaysNet(name: Text, nets: seq<Net>, clocks: seq<Clock>, text: Text, i: nat) returns (event: seq<Text>)
    requires |clocks| == |nets| && text == Document(BundleLines(name, nets, clocks)) && AllClean(nets)
    requires i < |nets| && HasEvent(nets[i])
    ensures NetSays(event, nets[i], clocks[i])
    ensures var read, at := SplitAtCrlf(Unfold(text)), Offset(nets, i); at + 12 < |read| && read[at..at + 12] == event
  {
    CalendarReadBack(name, nets, clocks);
    EventPlace(name, nets, clocks, i);
    event := Lines(EventFields(nets[i], clocks[i]));
    EventSays(nets[i], clocks[i]);
  }
}
