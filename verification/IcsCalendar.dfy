/**
 The calendars that the generator writes, for one net or for a bundle of them: their content lines, and
 for which nets a reader gets those lines back.
 */
module IcsCalendar {
  import opened Common
  import opened IcsText
  import NextSession

  // ---------------------------------------------------------------- text

  /** A printable character of one code unit, other than a backslash and a semicolon. */
  function UnitOf(c: char): (u: Unit)
    ensures u >= SPACE && u != BACKSLASH && u != SEMICOLON
  {
    if ' ' <= c && c != '\\' && c != ';' && c as int < 0x1_0000 then c as int as Unit else 0xFFFD
  }

  /** A string literal, of such characters. */
  function Literal(s: string): (t: Text)
    ensures |t| == |s| && Plain(t) && BACKSLASH !in t && SEMICOLON !in t
    ensures s != "" && ' ' < s[0] ==> t[0] > SPACE
  {
    seq(|s|, i requires 0 <= i < |s| => UnitOf(s[i]))
  }

  /** No carriage return and no line feed. */
  predicate Plain(t: Text) { CR !in t && LF !in t }

  const ZERO: Unit := 0x30
  const MINUS: Unit := 0x2D

  function Digits(n: nat): Text {
    (if n < 10 then [] else Digits(n / 10)) + [ZERO + (n % 10) as Unit]
  }

  /** A whole number as JavaScript writes it. */
  function Decimal(n: int): Text { if n < 0 then [MINUS] + Digits(-n) else Digits(n) }

  /** padStart(2, "0"). */
  function TwoDigits(n: int): Text { if |Decimal(n)| < 2 then [ZERO] + Decimal(n) else Decimal(n) }

  /** formatIcsDate. */
  function FormatIcsDate(m: NextSession.Moment): Text {
    Decimal(m.date.year) + TwoDigits(m.date.month) + TwoDigits(m.date.day) + Literal("T")
    + TwoDigits(m.ms / 3_600_000) + TwoDigits(m.ms / 60_000 % 60) + TwoDigits(m.ms / 1000 % 60) + Literal("Z")
  }

  // ---------------------------------------------------------------- a net

  datatype Repeater = Repeater(callsign: Text, offset: Text, tone: Text)

  datatype Net = Net(id: Text, name: Text, description: Option<Text>, frequency: Text, altFrequency: Option<Text>,
                     mode: Text, band: Text, schedule: Option<NextSession.Schedule>, durationMinutes: Option<int>,
                     repeater: Option<Repeater>)

  /** The three readings of the clock that a net's event takes: the two of its next session, and its stamp. */
  datatype Clock = Clock(now: NextSession.Moment, today: NextSession.Moment, stamp: NextSession.Moment)

  /** Truthy: neither null nor empty. */
  predicate Given(t: Option<Text>) { t.Some? && t.value != [] }

  function FrequencyPart(net: Net): Text { Literal("Frequency: ") + (net.frequency + ([SPACE] + net.mode)) }

  function AltPart(net: Net): seq<Text> {
    if Given(net.altFrequency) then [Literal("Alt Frequency: ") + net.altFrequency.value] else []
  }

  function DurationPart(net: Net): seq<Text> {
    if net.durationMinutes.Some? && net.durationMinutes.value != 0
    then [Literal("Duration: ") + (Decimal(net.durationMinutes.value) + Literal(" minutes"))] else []
  }

  function RepeaterText(r: Repeater): Text {
    Literal("Repeater: ") + (r.callsign + (Literal(" (") + (r.offset + (Literal(", ") + (r.tone + Literal(")"))))))
  }

  function RepeaterPart(net: Net): seq<Text> {
    if net.repeater.Some? then [RepeaterText(net.repeater.value)] else []
  }

  function DescriptionPart(net: Net): seq<Text> {
    if Given(net.description) then [[], net.description.value] else []
  }

  function DescriptionParts(net: Net): seq<Text> {
    [FrequencyPart(net)] + AltPart(net) + [Literal("Band: ") + net.band] + DurationPart(net) + RepeaterPart(net)
    + DescriptionPart(net) + [[], Literal("Powered by Propulse \U{2014} https://propulse.vercel.app")]
  }

  const BREAK: Text := [BACKSLASH, LOWER_N]

  /** buildDescription: none of the parts is escaped. */
  function BuildDescription(net: Net): Text { Joined(DescriptionParts(net), BREAK) }

  // ---------------------------------------------------------------- content lines

  /** A property's name and its value. */
  datatype Field = Field(name: string, value: Text)

  function LineOf(f: Field): Text { ContentLine(Literal(f.name), f.value) }

  function Lines(fields: seq<Field>): (lines: seq<Text>)
    ensures |lines| == |fields|
  {
    seq(|fields|, i requires 0 <= i < |fields| => LineOf(fields[i]))
  }

  const EQUALS: Unit := 0x3D

  function Param(name: string, value: Text): Text { Literal(name) + [EQUALS] + value }

  function RuleParams(r: NextSession.RRule): seq<Text> {
    match r
    case EveryDay => [Param("FREQ", Literal("DAILY"))]
    case EveryWeek(interval, byDay) =>
      [Param("FREQ", Literal("WEEKLY"))] + (if interval == 1 then [] else [Param("INTERVAL", Literal("2"))])
      + [Param("BYDAY", Literal(byDay))]
    case EveryMonth(byMonthDay) => [Param("FREQ", Literal("MONTHLY")), Param("BYMONTHDAY", Decimal(byMonthDay))]
  }

  /** What buildRRule writes after the property's name. */
  function RuleText(r: NextSession.RRule): Text { Joined(RuleParams(r), [SEMICOLON]) }

  function RuleFields(s: NextSession.Schedule): seq<Field> {
    var rule := NextSession.BuildRRule(s);
    if rule.Some? then [Field("RRULE", RuleText(rule.value))] else []
  }

  /** The session's end: so many minutes later. */
  function EndTime(session: NextSession.Moment, minutes: int): NextSession.Moment {
    var ms := session.ms + minutes * 60_000;
    NextSession.Moment(NextSession.DayAfter(session.date, ms / NextSession.DAY_MS), ms % NextSession.DAY_MS)
  }

  function UidText(id: Text): Text { Literal("net-") + (id + Literal("@propulse.app")) }

  function TimeFields(net: Net, session: NextSession.Moment, stamp: NextSession.Moment): seq<Field> {
    [Field("DTSTAMP", FormatIcsDate(stamp)), Field("DTSTART", FormatIcsDate(session)),
     Field("DTEND", FormatIcsDate(EndTime(session, NextSession.OrElse(net.durationMinutes, 60))))]
  }

  function TextFields(net: Net): seq<Field> {
    [Field("SUMMARY", EscapeIcsText(net.name)), Field("DESCRIPTION", BuildDescription(net)),
     Field("LOCATION", EscapeIcsText(net.frequency + [SPACE] + net.mode)),
     Field("URL", Literal("https://propulse.vercel.app/nets/") + net.id)]
  }

  function Opening(net: Net): seq<Field> { [Field("BEGIN", Literal("VEVENT")), Field("UID", UidText(net.id))] }

  function Closing(): seq<Field> { [Field("STATUS", Literal("CONFIRMED")), Field("END", Literal("VEVENT"))] }

  function NextOf(net: Net, clock: Clock): Option<NextSession.Moment> {
    if net.schedule.None? then None
    else NextSession.ComputeNextSession(net.schedule.value, clock.now, clock.today)
  }

  /** buildVEvent's properties; none without a next session. */
  function EventFields(net: Net, clock: Clock): seq<Field> {
    var session := NextOf(net, clock);
    if session.None? || net.schedule.None? then []
    else
      Opening(net)
      + (TimeFields(net, session.value, clock.stamp) + (RuleFields(net.schedule.value) + (TextFields(net) + Closing())))
  }

  function HeaderFields(name: Text): seq<Field> {
    [Field("BEGIN", Literal("VCALENDAR")), Field("VERSION", Literal("2.0")),
     Field("PRODID", Literal("-//Propulse//Ham Radio Net Calendar//EN")), Field("CALSCALE", Literal("GREGORIAN")),
     Field("METHOD", Literal("PUBLISH")), Field("X-WR-CALNAME", EscapeIcsText(name))]
  }

  const FOOTER: seq<Field> := [Field("END", Literal("VCALENDAR"))]

  /** Each net's event. */
  function Events(nets: seq<Net>, clocks: seq<Clock>): (events: seq<seq<Field>>)
    requires |clocks| == |nets|
    ensures |events| == |nets| && forall i | 0 <= i < |events| :: events[i] == EventFields(nets[i], clocks[i])
  {
    seq(|nets|, i requires 0 <= i < |nets| => EventFields(nets[i], clocks[i]))
  }

  function Concat(events: seq<seq<Field>>): seq<Field> {
    if events == [] then [] else Concat(events[..|events| - 1]) + events[|events| - 1]
  }

  /** The content lines of a bundle's calendar. */
  function BundleLines(name: Text, nets: seq<Net>, clocks: seq<Clock>): seq<Text>
    requires |clocks| == |nets|
  {
    Lines(HeaderFields(name) + Concat(Events(nets, clocks)) + FOOTER)
  }

  // ---------------------------------------------------------------- the generators

  /** The fields' content lines, folded and joined. */
  function Written(fields: seq<Field>): Text { Joined(FoldedLines(Lines(fields)), CRLF) }

  lemma {:induction false} JoinedTwo(a: seq<Text>, b: seq<Text>, separator: Text)
    requires a != [] && b != []
    ensures Joined(a + b, separator) == Joined(a, separator) + separator + Joined(b, separator)
  {
    if |a| == 1 {
      assert (a + b)[1..] == b;
    } else {
      assert (a + b)[1..] == a[1..] + b;
      JoinedTwo(a[1..], b, separator);
    }
  }

  lemma WrittenTwo(a: seq<Field>, b: seq<Field>)
    requires a != [] && b != []
    ensures Written(a + b) == Written(a) + CRLF + Written(b)
  {
    assert FoldedLines(Lines(a + b)) == FoldedLines(Lines(a)) + FoldedLines(Lines(b));
    JoinedTwo(FoldedLines(Lines(a)), FoldedLines(Lines(b)), CRLF);
  }

  /** A line that is short enough is written as it is, with or without folding. */
  lemma ShortLine(line: Text)
    requires |line| <= MAX_LINE_OCTETS
    ensures Joined(Folded(line), CRLF) == line
  {
  }

  /** Adds an event, if there is one, to the lines so far. */
  method AddEvent(lines: seq<Text>, event: seq<Field>, ghost fields: seq<Field>) returns (r: seq<Text>)
    requires lines != [] && fields != [] && Joined(lines, CRLF) == Written(fields)
    ensures r != [] && Joined(r, CRLF) == Written(fields + event)
  {
    if event == [] {
      assert fields + event == fields;
      return lines;
    }
    var vevent := Written(event);
    JoinedAppend(lines, vevent, CRLF);
    WrittenTwo(fields, event);
    return lines + [vevent];
  }

  lemma NextEvent(fields: seq<Field>, events: seq<seq<Field>>, i: nat)
    requires i < |events|
    ensures fields + Concat(events[..i + 1]) == fields + Concat(events[..i]) + events[i]
  {
    assert events[..i + 1][..i] == events[..i];
  }

  /** The loop over the nets' events. */
  method AddEvents(header: seq<Text>, events: seq<seq<Field>>, ghost fields: seq<Field>) returns (lines: seq<Text>)
    requires header != [] && fields != [] && Joined(header, CRLF) == Written(fields)
    ensures lines != [] && Joined(lines, CRLF) == Written(fields + Concat(events))
  {
    lines := header;
    assert fields + [] == fields;
    for i := 0 to |events|
      invariant lines != [] && Joined(lines, CRLF) == Written(fields + Concat(events[..i]))
    {
      lines := AddEvent(lines, events[i], fields + Concat(events[..i]));
      NextEvent(fields, events, i);
    }
    assert events[..|events|] == events;
  }

  /** generateBundleIcs: the calendar is its content lines, each folded and ended. */
  method GenerateBundleIcs(nets: seq<Net>, calendarName: Text, clocks: seq<Clock>) returns (text: Text)
    requires |clocks| == |nets|
    ensures text == Document(BundleLines(calendarName, nets, clocks))
  {
    var header, events := HeaderFields(calendarName), Events(nets, clocks);
    text := WriteCalendar(header, events);
  }

  method WriteCalendar(header: seq<Field>, events: seq<seq<Field>>) returns (text: Text)
    requires header != []
    ensures text == Document(Lines(header + Concat(events) + FOOTER))
  {
    var lines := AddEvents(FoldedLines(Lines(header)), events, header);
    lines := Finish(lines, header + Concat(events));
    return Joined(lines, CRLF) + CRLF;
  }

  method Finish(lines: seq<Text>, ghost fields: seq<Field>) returns (r: seq<Text>)
    requires lines != [] && fields != [] && Joined(lines, CRLF) == Written(fields)
    ensures Joined(r, CRLF) == Written(fields + FOOTER)
  {
    var end := LineOf(FOOTER[0]);
    JoinedAppend(lines, end, CRLF);
    WrittenTwo(fields, FOOTER);
    ShortLine(end);
    return lines + [end];
  }

  /** generateNetIcs. */
  method GenerateNetIcs(net: Net, clock: Clock) returns (text: Text)
    ensures text == Document(BundleLines(net.name, [net], [clock]))
  {
    text := GenerateBundleIcs([net], net.name, [clock]);
  }

  // ---------------------------------------------------------------- which values hold a CRLF

  lemma PlainBefore(p: Text, v: Text)
    requires Plain(p)
    ensures NoCrlf(p + v) <==> NoCrlf(v)
  {
    NoLfNoCrlf(p);
    if NoCrlf(p + v) { NoCrlfParts(p, v); }
    if NoCrlf(v) { NoCrlfWhole(p, v); }
  }

  /** Plain text between two others keeps a CRLF from lying across them. */
  lemma PlainBetween(a: Text, p: Text, b: Text)
    requires Plain(p) && p != []
    ensures NoCrlf(a + (p + b)) <==> NoCrlf(a) && NoCrlf(b)
  {
    PlainBefore(p, b);
    if NoCrlf(a + (p + b)) { NoCrlfParts(a, p + b); }
    if NoCrlf(a) && NoCrlf(b) { NoCrlfWhole(a, p + b); }
  }

  lemma PlainAfter(v: Text, q: Text)
    requires Plain(q) && q != []
    ensures NoCrlf(v + q) <==> NoCrlf(v)
  {
    assert q + [] == q;
    PlainBetween(v, q, []);
  }

  lemma {:induction false} DigitsArePlain(n: nat)
    ensures Plain(Digits(n)) && BACKSLASH !in Digits(n) && SEMICOLON !in Digits(n)
  {
    if n >= 10 { DigitsArePlain(n / 10); }
  }

  lemma DecimalIsPlain(n: int)
    ensures Plain(Decimal(n)) && Plain(TwoDigits(n)) && BACKSLASH !in Decimal(n) && SEMICOLON !in Decimal(n)
  {
    DigitsArePlain(if n < 0 then -n else n);
  }

  lemma DateIsPlain(m: NextSession.Moment)
    ensures Plain(FormatIcsDate(m))
  {
    DecimalIsPlain(m.date.year);
    DecimalIsPlain(m.date.month);
    DecimalIsPlain(m.date.day);
    DecimalIsPlain(m.ms / 3_600_000);
    DecimalIsPlain(m.ms / 60_000 % 60);
    DecimalIsPlain(m.ms / 1000 % 60);
  }

  predicate NoneCrlf(parts: seq<Text>) {
    forall i | 0 <= i < |parts| :: NoCrlf(parts[i])
  }

  lemma NoneInTwo(a: seq<Text>, b: seq<Text>)
    ensures NoneCrlf(a + b) <==> NoneCrlf(a) && NoneCrlf(b)
  {
    if NoneCrlf(a + b) {
      assert forall i | 0 <= i < |a| :: a[i] == (a + b)[i];
      assert forall i | 0 <= i < |b| :: b[i] == (a + b)[|a| + i];
    }
  }

  lemma NoneInOne(t: Text)
    ensures NoneCrlf([t]) <==> NoCrlf(t)
  {
    assert [t][0] == t;
  }

  /** Joined by plain text, parts hold a CRLF if and only if one of them does. */
  lemma {:induction false} JoinedCrlf(parts: seq<Text>, separator: Text)
    requires Plain(separator) && separator != []
    ensures NoCrlf(Joined(parts, separator)) <==> NoneCrlf(parts)
  {
    if |parts| > 1 {
      JoinedCrlf(parts[1..], separator);
      Associates(parts[0], separator, Joined(parts[1..], separator));
      PlainBetween(parts[0], separator, Joined(parts[1..], separator));
      assert parts == [parts[0]] + parts[1..];
      NoneInTwo([parts[0]], parts[1..]);
      NoneInOne(parts[0]);
    }
  }

  // ---------------------------------------------------------------- which nets hold a CRLF

  predicate CleanRepeater(r: Repeater) { NoCrlf(r.callsign) && NoCrlf(r.offset) && NoCrlf(r.tone) }

  predicate CleanText(t: Option<Text>) { t.Some? ==> NoCrlf(t.value) }

  predicate CleanDescription(net: Net) {
    && NoCrlf(net.frequency) && NoCrlf(net.mode) && CleanText(net.altFrequency) && NoCrlf(net.band)
    && (net.repeater.Some? ==> CleanRepeater(net.repeater.value)) && CleanText(net.description)
  }

  /** None of the net's fields that are written as they are holds a CRLF. */
  predicate Clean(net: Net) { NoCrlf(net.id) && CleanDescription(net) }

  lemma FrequencyCrlf(net: Net)
    ensures NoCrlf(FrequencyPart(net)) <==> NoCrlf(net.frequency) && NoCrlf(net.mode)
  {
    PlainBefore(Literal("Frequency: "), net.frequency + ([SPACE] + net.mode));
    PlainBetween(net.frequency, [SPACE], net.mode);
  }

  lemma RepeaterCrlf(r: Repeater)
    ensures NoCrlf(RepeaterText(r)) <==> CleanRepeater(r)
  {
    var tone := r.tone + Literal(")");
    var offset := r.offset + (Literal(", ") + tone);
    PlainBefore(Literal("Repeater: "), r.callsign + (Literal(" (") + offset));
    PlainBetween(r.callsign, Literal(" ("), offset);
    PlainBetween(r.offset, Literal(", "), tone);
    PlainAfter(r.tone, Literal(")"));
  }

  lemma AltCrlf(net: Net)
    ensures NoneCrlf(AltPart(net)) <==> CleanText(net.altFrequency)
  {
    if net.altFrequency.Some? {
      PlainBefore(Literal("Alt Frequency: "), net.altFrequency.value);
      NoneInOne(Literal("Alt Frequency: ") + net.altFrequency.value);
    }
  }

  lemma DurationCrlf(net: Net)
    ensures NoneCrlf(DurationPart(net))
  {
    if net.durationMinutes.Some? {
      DecimalIsPlain(net.durationMinutes.value);
      NoLfNoCrlf(Literal("Duration: ") + (Decimal(net.durationMinutes.value) + Literal(" minutes")));
    }
  }

  lemma BandCrlf(net: Net)
    ensures NoneCrlf([Literal("Band: ") + net.band]) <==> NoCrlf(net.band)
  {
    PlainBefore(Literal("Band: "), net.band);
    NoneInOne(Literal("Band: ") + net.band);
  }

  lemma TextCrlf(net: Net)
    ensures NoneCrlf(DescriptionPart(net)) <==> CleanText(net.description)
  {
    if Given(net.description) {
      NoneInTwo([[]], [net.description.value]);
      NoneInOne([]);
      NoneInOne(net.description.value);
      assert [[]] + [net.description.value] == DescriptionPart(net);
    }
  }

  lemma LastCrlf()
    ensures NoneCrlf([[], Literal("Powered by Propulse \U{2014} https://propulse.vercel.app")])
  {
    NoLfNoCrlf(Literal("Powered by Propulse \U{2014} https://propulse.vercel.app"));
  }

  lemma PartsCrlf(net: Net)
    ensures NoneCrlf(DescriptionParts(net)) <==> CleanDescription(net)
  {
    var last := [[], Literal("Powered by Propulse \U{2014} https://propulse.vercel.app")];
    var a := [FrequencyPart(net)];
    var b := a + AltPart(net);
    var c := b + [Literal("Band: ") + net.band];
    var e := c + DurationPart(net);
    var f := e + RepeaterPart(net);
    NoneInOne(FrequencyPart(net));
    FrequencyCrlf(net);
    NoneInTwo(a, AltPart(net));
    AltCrlf(net);
    NoneInTwo(b, [Literal("Band: ") + net.band]);
    BandCrlf(net);
    NoneInTwo(c, DurationPart(net));
    DurationCrlf(net);
    NoneInTwo(e, RepeaterPart(net));
    if net.repeater.Some? {
      NoneInOne(RepeaterText(net.repeater.value));
      RepeaterCrlf(net.repeater.value);
    }
    NoneInTwo(f, DescriptionPart(net));
    TextCrlf(net);
    NoneInTwo(f + DescriptionPart(net), last);
    LastCrlf();
  }

  /** The description holds a CRLF if and only if one of the net's fields in it does. */
  lemma DescriptionCrlf(net: Net)
    ensures NoCrlf(BuildDescription(net)) <==> CleanDescription(net)
  {
    PartsCrlf(net);
    JoinedCrlf(DescriptionParts(net), BREAK);
  }

  // ---------------------------------------------------------------- which events hold a CRLF

  predicate IsName(p: string) { p != "" && ' ' < p[0] }

  predicate Named(fields: seq<Field>) {
    forall i | 0 <= i < |fields| :: IsName(fields[i].name)
  }

  predicate NoneIn(fields: seq<Field>) {
    forall i | 0 <= i < |fields| :: NoCrlf(fields[i].value)
  }

  lemma LineCrlf(f: Field)
    requires IsName(f.name)
    ensures IsContentLine(LineOf(f)) && (NoCrlf(LineOf(f)) <==> NoCrlf(f.value))
  {
    PlainBefore(Literal(f.name) + [COLON], f.value);
  }

  lemma FieldsTwo(a: seq<Field>, b: seq<Field>)
    ensures NoneIn(a + b) <==> NoneIn(a) && NoneIn(b)
    ensures Named(a + b) <==> Named(a) && Named(b)
  {
    assert forall i | 0 <= i < |a| :: a[i] == (a + b)[i];
    assert forall i | 0 <= i < |b| :: b[i] == (a + b)[|a| + i];
  }

  lemma FieldOne(f: Field)
    ensures NoneIn([f]) <==> NoCrlf(f.value)
    ensures Named([f]) <==> IsName(f.name)
  {
    assert [f][0] == f;
  }

  lemma PlainField(name: string, value: Text)
    requires IsName(name) && LF !in value
    ensures NoneIn([Field(name, value)]) && Named([Field(name, value)])
  {
    NoLfNoCrlf(value);
    FieldOne(Field(name, value));
  }

  lemma IdCrlf(id: Text)
    ensures NoCrlf(UidText(id)) <==> NoCrlf(id)
    ensures NoCrlf(Literal("https://propulse.vercel.app/nets/") + id) <==> NoCrlf(id)
  {
    PlainBefore(Literal("net-"), id + Literal("@propulse.app"));
    PlainAfter(id, Literal("@propulse.app"));
    PlainBefore(Literal("https://propulse.vercel.app/nets/"), id);
  }

  lemma DateField(name: string, m: NextSession.Moment)
    requires IsName(name)
    ensures NoneIn([Field(name, FormatIcsDate(m))]) && Named([Field(name, FormatIcsDate(m))])
  {
    DateIsPlain(m);
    PlainField(name, FormatIcsDate(m));
  }

  lemma TimesCrlf(net: Net, session: NextSession.Moment, stamp: NextSession.Moment)
    ensures NoneIn(TimeFields(net, session, stamp)) && Named(TimeFields(net, session, stamp))
  {
    var end := EndTime(session, NextSession.OrElse(net.durationMinutes, 60));
    DateField("DTSTAMP", stamp);
    DateField("DTSTART", session);
    DateField("DTEND", end);
    ThreeFields(Field("DTSTAMP", FormatIcsDate(stamp)), Field("DTSTART", FormatIcsDate(session)),
                Field("DTEND", FormatIcsDate(end)));
  }

  lemma ThreeFields(a: Field, b: Field, c: Field)
    ensures NoneIn([a, b, c]) <==> NoneIn([a]) && NoneIn([b]) && NoneIn([c])
    ensures Named([a, b, c]) <==> Named([a]) && Named([b]) && Named([c])
  {
    FieldsTwo([a], [b]);
    FieldsTwo([a] + [b], [c]);
    assert [a] + [b] + [c] == [a, b, c];
  }

  lemma {:induction false} JoinedIsPlain(parts: seq<Text>, separator: Text)
    requires Plain(separator) && forall i | 0 <= i < |parts| :: Plain(parts[i])
    ensures Plain(Joined(parts, separator))
  {
    if |parts| > 1 { JoinedIsPlain(parts[1..], separator); }
  }

  lemma RuleIsPlain(r: NextSession.RRule)
    ensures Plain(RuleText(r))
  {
    if r.EveryMonth? { DecimalIsPlain(r.byMonthDay); }
    JoinedIsPlain(RuleParams(r), [SEMICOLON]);
  }

  lemma RuleCrlf(s: NextSession.Schedule)
    ensures NoneIn(RuleFields(s)) && Named(RuleFields(s))
  {
    var rule := NextSession.BuildRRule(s);
    if rule.Some? { RuleField(rule.value); }
  }

  lemma RuleField(r: NextSession.RRule)
    ensures NoneIn([Field("RRULE", RuleText(r))]) && Named([Field("RRULE", RuleText(r))])
  {
    RuleIsPlain(r);
    PlainField("RRULE", RuleText(r));
  }

  lemma EscapedField(name: string, t: Text)
    requires IsName(name)
    ensures NoneIn([Field(name, EscapeIcsText(t))]) && Named([Field(name, EscapeIcsText(t))])
  {
    PassesAreOneEscape(t);
    EscapedHasNoLf(t);
    PlainField(name, EscapeIcsText(t));
  }

  lemma FourFields(a: Field, b: Field, c: Field, e: Field)
    ensures NoneIn([a, b, c, e]) <==> NoneIn([a]) && NoneIn([b]) && NoneIn([c]) && NoneIn([e])
    ensures Named([a, b, c, e]) <==> Named([a]) && Named([b]) && Named([c]) && Named([e])
  {
    ThreeFields(a, b, c);
    FieldsTwo([a, b, c], [e]);
    assert [a, b, c] + [e] == [a, b, c, e];
  }

  lemma TextsCrlf(net: Net)
    ensures Named(TextFields(net))
    ensures NoneIn(TextFields(net)) <==> NoCrlf(BuildDescription(net)) && NoCrlf(net.id)
  {
    var place := net.frequency + [SPACE] + net.mode;
    var description := Field("DESCRIPTION", BuildDescription(net));
    var url := Field("URL", Literal("https://propulse.vercel.app/nets/") + net.id);
    EscapedField("SUMMARY", net.name);
    FieldOne(description);
    EscapedField("LOCATION", place);
    FieldOne(url);
    IdCrlf(net.id);
    FourFields(Field("SUMMARY", EscapeIcsText(net.name)), description, Field("LOCATION", EscapeIcsText(place)), url);
  }

  lemma LiteralField(name: string, s: string)
    requires IsName(name)
    ensures NoneIn([Field(name, Literal(s))]) && Named([Field(name, Literal(s))])
  {
    PlainField(name, Literal(s));
  }

  /** The net has a schedule with sessions. */
  predicate HasEvent(net: Net) {
    net.schedule.Some? && !net.schedule.value.pattern.Adhoc? && !net.schedule.value.pattern.Unknown?
  }

  lemma OpeningCrlf(net: Net)
    ensures Named(Opening(net)) && (NoneIn(Opening(net)) <==> NoCrlf(net.id))
  {
    LiteralField("BEGIN", "VEVENT");
    FieldOne(Field("UID", UidText(net.id)));
    IdCrlf(net.id);
    FieldsTwo([Field("BEGIN", Literal("VEVENT"))], [Field("UID", UidText(net.id))]);
    assert Opening(net) == [Field("BEGIN", Literal("VEVENT"))] + [Field("UID", UidText(net.id))];
  }

  lemma ClosingCrlf()
    ensures Named(Closing()) && NoneIn(Closing())
  {
    LiteralField("STATUS", "CONFIRMED");
    LiteralField("END", "VEVENT");
    FieldsTwo([Field("STATUS", Literal("CONFIRMED"))], [Field("END", Literal("VEVENT"))]);
    assert Closing() == [Field("STATUS", Literal("CONFIRMED"))] + [Field("END", Literal("VEVENT"))];
  }

  lemma FieldsFive(a: seq<Field>, b: seq<Field>, c: seq<Field>, e: seq<Field>, f: seq<Field>)
    requires Named(a) && Named(b) && Named(c) && Named(e) && Named(f)
    ensures Named(a + (b + (c + (e + f))))
    ensures NoneIn(a + (b + (c + (e + f)))) <==> NoneIn(a) && NoneIn(b) && NoneIn(c) && NoneIn(e) && NoneIn(f)
  {
    FieldsTwo(e, f);
    FieldsTwo(c, e + f);
    FieldsTwo(b, c + (e + f));
    FieldsTwo(a, b + (c + (e + f)));
  }

  lemma HasSession(net: Net, clock: Clock)
    ensures HasEvent(net) <==> NextOf(net, clock).Some?
  {
  }

  lemma EventCrlf(net: Net, clock: Clock)
    ensures Named(EventFields(net, clock))
    ensures NoneIn(EventFields(net, clock)) <==> (HasEvent(net) ==> Clean(net))
  {
    HasSession(net, clock);
    if HasEvent(net) {
      var session, schedule := NextOf(net, clock).value, net.schedule.value;
      OpeningCrlf(net);
      TimesCrlf(net, session, clock.stamp);
      RuleCrlf(schedule);
      TextsCrlf(net);
      DescriptionCrlf(net);
      ClosingCrlf();
      FieldsFive(Opening(net), TimeFields(net, session, clock.stamp), RuleFields(schedule), TextFields(net), Closing());
    }
  }

  predicate AllClean(nets: seq<Net>) {
    forall i | 0 <= i < |nets| :: HasEvent(nets[i]) ==> Clean(nets[i])
  }

  lemma {:induction false} ConcatCrlf(events: seq<seq<Field>>)
    requires forall i | 0 <= i < |events| :: Named(events[i])
    ensures Named(Concat(events)) && (NoneIn(Concat(events)) <==> forall i | 0 <= i < |events| :: NoneIn(events[i]))
  {
    if events != [] {
      var n := |events| - 1;
      ConcatCrlf(events[..n]);
      FieldsTwo(Concat(events[..n]), events[n]);
      assert forall i | 0 <= i < n :: events[..n][i] == events[i];
    }
  }

  lemma EventsCrlf(nets: seq<Net>, events: seq<seq<Field>>)
    requires |events| == |nets|
    requires forall i | 0 <= i < |nets| ::
               Named(events[i]) && (NoneIn(events[i]) <==> (HasEvent(nets[i]) ==> Clean(nets[i])))
    ensures Named(Concat(events)) && (NoneIn(Concat(events)) <==> AllClean(nets))
  {
    ConcatCrlf(events);
  }

  lemma HeaderCrlf(name: Text)
    ensures NoneIn(HeaderFields(name)) && Named(HeaderFields(name))
  {
    var a, b := [Field("BEGIN", Literal("VCALENDAR"))], [Field("VERSION", Literal("2.0"))];
    var c := [Field("PRODID", Literal("-//Propulse//Ham Radio Net Calendar//EN"))];
    var e, f := [Field("CALSCALE", Literal("GREGORIAN"))], [Field("METHOD", Literal("PUBLISH"))];
    var g := [Field("X-WR-CALNAME", EscapeIcsText(name))];
    LiteralField("BEGIN", "VCALENDAR");
    LiteralField("VERSION", "2.0");
    LiteralField("PRODID", "-//Propulse//Ham Radio Net Calendar//EN");
    LiteralField("CALSCALE", "GREGORIAN");
    LiteralField("METHOD", "PUBLISH");
    EscapedField("X-WR-CALNAME", name);
    FieldsTwo(a, b);
    FieldsTwo(a + b, c);
    FieldsTwo(e, f);
    FieldsTwo(a + b + c, e + f);
    FieldsTwo(a + b + c + (e + f), g);
    assert HeaderFields(name) == a + b + c + (e + f) + g;
  }

  // ---------------------------------------------------------------- read back

  predicate ReadBack(lines: seq<Text>) { SplitAtCrlf(Unfold(Document(lines))) == lines + [[]] }

  lemma FieldsReadBack(fields: seq<Field>)
    requires fields != [] && Named(fields)
    ensures ReadBack(Lines(fields)) <==> NoneIn(fields)
  {
    var lines := Lines(fields);
    forall i | 0 <= i < |fields|
      ensures IsContentLine(lines[i]) && (NoCrlf(lines[i]) <==> NoCrlf(fields[i].value))
    {
      LineCrlf(fields[i]);
    }
    DocumentRoundTrip(lines);
  }

  /** A bundle's calendar is read back as its content lines if and only if no net with sessions in it has a CRLF in
      its id, frequency, alternative frequency, mode, band, repeater or description. Names are escaped and may hold
      anything. */
  lemma CalendarReadBack(name: Text, nets: seq<Net>, clocks: seq<Clock>)
    requires |clocks| == |nets|
    ensures ReadBack(BundleLines(name, nets, clocks)) <==> AllClean(nets)
  {
    var events := Events(nets, clocks);
    forall i | 0 <= i < |nets|
      ensures Named(events[i]) && (NoneIn(events[i]) <==> (HasEvent(nets[i]) ==> Clean(nets[i])))
    {
      EventCrlf(nets[i], clocks[i]);
    }
    EventsCrlf(nets, events);
    HeaderCrlf(name);
    WholeReadBack(HeaderFields(name), Concat(events));
  }

  lemma WholeReadBack(header: seq<Field>, events: seq<Field>)
    requires Named(header) && NoneIn(header) && Named(events)
    ensures ReadBack(Lines(header + events + FOOTER)) <==> NoneIn(events)
  {
    LiteralField("END", "VCALENDAR");
    FieldsTwo(header, events);
    FieldsTwo(header + events, FOOTER);
    FieldsReadBack(header + events + FOOTER);
  }

  /** It happens to every net with sessions whose description is these two lines ended as Windows ends them. */
  lemma DescriptionMissed(net: Net, clock: Clock)
    requires HasEvent(net)
    ensures var n := net.(description := Some(Literal("Check in early.") + (CRLF + Literal("Bring coffee."))));
            !ReadBack(BundleLines(n.name, [n], [clock]))
  {
    var text := Literal("Check in early.") + (CRLF + Literal("Bring coffee."));
    var n := net.(description := Some(text));
    if NoCrlf(text) {
      NoCrlfParts(Literal("Check in early."), CRLF + Literal("Bring coffee."));
      assert StartsCrlf(CRLF + Literal("Bring coffee."));
    }
    CalendarReadBack(n.name, [n], [clock]);
    assert HasEvent([n][0]) && !Clean([n][0]);
  }

  // ---------------------------------------------------------------- what a description reads as

  lemma {:induction false} UnescapePlain(p: Text, y: Text)
    requires BACKSLASH !in p
    ensures Unescape(p + y) == p + Unescape(y)
  {
    if p == [] {
      assert p + y == y;
    } else {
      assert (p + y)[1..] == p[1..] + y;
      UnescapePlain(p[1..], y);
      assert p == [p[0]] + p[1..];
    }
  }

  lemma UnescapePair(c: Unit, y: Text)
    ensures Unescape([BACKSLASH, c] + y) == [if c == LOWER_N || c == UPPER_N then LF else c] + Unescape(y)
  {
    assert ([BACKSLASH, c] + y)[2..] == y;
  }

  function Lfs(t: Text): nat { if t == [] then 0 else (if t[0] == LF then 1 else 0) + Lfs(t[1..]) }

  lemma {:induction false} LfsTwo(a: Text, b: Text)
    ensures Lfs(a + b) == Lfs(a) + Lfs(b)
  {
    if a == [] {
      assert a + b == b;
    } else {
      assert (a + b)[1..] == a[1..] + b;
      LfsTwo(a[1..], b);
    }
  }

  /** Each escape makes a text shorter by one and adds one line feed at most. */
  lemma {:induction false} EscapesAddLfs(t: Text)
    ensures Lfs(Unescape(t)) + |Unescape(t)| <= Lfs(t) + |t|
  {
    if t != [] {
      if t[0] == BACKSLASH && |t| >= 2 {
        EscapesAddLfs(t[2..]);
        assert t[1..][0] == t[1] && t[1..][1..] == t[2..];
        assert Unescape(t)[1..] == Unescape(t[2..]);
      } else {
        EscapesAddLfs(t[1..]);
        assert Unescape(t)[1..] == Unescape(t[1..]);
      }
    }
  }

  /** An escaped backslash adds none. */
  lemma PairAddsNone(a: Text, y: Text)
    requires BACKSLASH !in a
    ensures var t := a + ([BACKSLASH, BACKSLASH] + y); Lfs(Unescape(t)) + |Unescape(t)| < Lfs(t) + |t|
  {
    UnescapePlain(a, [BACKSLASH, BACKSLASH] + y);
    UnescapePair(BACKSLASH, y);
    EscapesAddLfs(y);
    LfsTwo(a, [BACKSLASH, BACKSLASH] + y);
    LfsTwo(a, [BACKSLASH] + Unescape(y));
    LfsTwo([BACKSLASH, BACKSLASH], y);
    LfsTwo([BACKSLASH], Unescape(y));
    assert [BACKSLASH, BACKSLASH][1..] == [BACKSLASH];
  }

  /** With each break read as one line feed, a joined text is shorter by as much as it has more line feeds. */
  lemma {:induction false} BreaksBalance(parts: seq<Text>)
    ensures Lfs(Joined(parts, [LF])) + |Joined(parts, [LF])| == Lfs(Joined(parts, BREAK)) + |Joined(parts, BREAK)|
  {
    if |parts| > 1 {
      var a, b := Joined(parts[1..], [LF]), Joined(parts[1..], BREAK);
      BreaksBalance(parts[1..]);
      assert Joined(parts, [LF]) == parts[0] + [LF] + a && Joined(parts, BREAK) == parts[0] + BREAK + b;
      LfsTwo(parts[0] + [LF], a);
      LfsTwo(parts[0], [LF]);
      LfsTwo(parts[0] + BREAK, b);
      LfsTwo(parts[0], BREAK);
      assert BREAK[1..] == [LOWER_N] && [LOWER_N][1..] == [] && [LF][1..] == [];
      assert Lfs([]) == 0;
      assert Lfs([LOWER_N]) == 0 && Lfs(BREAK) == 0 && Lfs([LF]) == 1;
    }
  }

  /** A text up to its first backslash. */
  lemma {:induction false} FirstBackslash(t: Text) returns (i: nat)
    requires BACKSLASH in t
    ensures i < |t| && t[i] == BACKSLASH && BACKSLASH !in t[..i]
  {
    if t[0] == BACKSLASH {
      i := 0;
    } else {
      assert t == [t[0]] + t[1..];
      var j := FirstBackslash(t[1..]);
      i := j + 1;
      assert t[..i] == [t[0]] + t[1..][..j];
    }
  }

  /** A text with a backslash in it, and something after that, does not read as a text that has the backslash in
      its place and balances its line feeds. */
  lemma BackslashMisread(t: Text, want: Text, i: nat)
    requires i + 1 < |t| && i < |want| && t[i] == BACKSLASH && BACKSLASH !in t[..i] && want[..i] == t[..i]
    requires want[i] == BACKSLASH && Lfs(want) + |want| == Lfs(t) + |t|
    ensures Unescape(t) != want
  {
    var a, c, y := t[..i], t[i + 1], t[i + 2..];
    assert t == a + ([BACKSLASH, c] + y);
    UnescapePlain(a, [BACKSLASH, c] + y);
    UnescapePair(c, y);
    if Unescape(t) == want {
      assert want[i] == (if c == LOWER_N || c == UPPER_N then LF else c);
      PairAddsNone(a, y);
    }
  }

  predicate NoBackslash(parts: seq<Text>) {
    forall i | 0 <= i < |parts| :: BACKSLASH !in parts[i]
  }

  lemma NoBackslashFirst(parts: seq<Text>)
    requires parts != []
    ensures NoBackslash(parts) <==> BACKSLASH !in parts[0] && NoBackslash(parts[1..])
  {
    assert parts == [parts[0]] + parts[1..];
    assert forall i | 1 <= i < |parts| :: parts[i] == parts[1..][i - 1];
  }

  /** Parts joined by breaks read as the lines they are if and only if none holds a backslash. */
  lemma {:induction false} BreaksRead(parts: seq<Text>)
    requires parts != [] && BACKSLASH !in parts[|parts| - 1]
    ensures Unescape(Joined(parts, BREAK)) == Joined(parts, [LF]) <==> NoBackslash(parts)
  {
    NoBackslashFirst(parts);
    var p := parts[0];
    if |parts| == 1 {
      UnescapePlain(p, []);
      assert p + [] == p;
    } else {
      var rest := Joined(parts[1..], BREAK);
      Associates(p, BREAK, rest);
      Associates(p, [LF], Joined(parts[1..], [LF]));
      if BACKSLASH in p {
        var i := FirstBackslash(p);
        BreaksBalance(parts);
        var t, want := Joined(parts, BREAK), Joined(parts, [LF]);
        assert t[..i] == p[..i] && want[..i] == p[..i];
        BackslashMisread(t, want, i);
      } else {
        BreaksRead(parts[1..]);
        UnescapePlain(p, BREAK + rest);
        UnescapePair(LOWER_N, rest);
        SameTail(p, Unescape(rest), Joined(parts[1..], [LF]));
      }
    }
  }

  lemma SameTail(p: Text, a: Text, b: Text)
    ensures p + ([LF] + a) == p + ([LF] + b) <==> a == b
  {
    assert (p + ([LF] + a))[|p| + 1..] == a && (p + ([LF] + b))[|p| + 1..] == b;
  }

  predicate WithoutBackslash(t: Option<Text>) { t.Some? ==> BACKSLASH !in t.value }

  /** None of the fields in the net's description holds a backslash. */
  predicate Unslashed(net: Net) {
    && BACKSLASH !in net.frequency && BACKSLASH !in net.mode && WithoutBackslash(net.altFrequency)
    && BACKSLASH !in net.band && WithoutBackslash(net.description)
    && (net.repeater.Some? ==>
          var r := net.repeater.value;
          BACKSLASH !in r.callsign && BACKSLASH !in r.offset && BACKSLASH !in r.tone)
  }

  lemma NoBackslashTwo(a: seq<Text>, b: seq<Text>)
    ensures NoBackslash(a + b) <==> NoBackslash(a) && NoBackslash(b)
  {
    assert forall i | 0 <= i < |a| :: a[i] == (a + b)[i];
    assert forall i | 0 <= i < |b| :: b[i] == (a + b)[|a| + i];
  }

  lemma NoBackslashOne(t: Text)
    ensures NoBackslash([t]) <==> BACKSLASH !in t
  {
    assert [t][0] == t;
  }

  lemma OptionalSlashes(net: Net)
    ensures NoBackslash(AltPart(net)) <==> WithoutBackslash(net.altFrequency)
    ensures NoBackslash(DurationPart(net))
    ensures NoBackslash(DescriptionPart(net)) <==> WithoutBackslash(net.description)
  {
    if net.durationMinutes.Some? { DecimalIsPlain(net.durationMinutes.value); }
    if Given(net.altFrequency) { NoBackslashOne(Literal("Alt Frequency: ") + net.altFrequency.value); }
    if Given(net.description) {
      NoBackslashTwo([[]], [net.description.value]);
      NoBackslashOne(net.description.value);
      assert [[]] + [net.description.value] == DescriptionPart(net);
    }
  }

  lemma FixedSlashes(net: Net)
    ensures BACKSLASH !in FrequencyPart(net) <==> BACKSLASH !in net.frequency && BACKSLASH !in net.mode
    ensures BACKSLASH !in Literal("Band: ") + net.band <==> BACKSLASH !in net.band
    ensures NoBackslash(RepeaterPart(net))
            <==> net.repeater.Some? ==>
                   var r := net.repeater.value;
                   BACKSLASH !in r.callsign && BACKSLASH !in r.offset && BACKSLASH !in r.tone
  {
    if net.repeater.Some? { NoBackslashOne(RepeaterText(net.repeater.value)); }
  }

  lemma PartsSlashes(net: Net)
    ensures NoBackslash(DescriptionParts(net)) <==> Unslashed(net)
  {
    var last := [[], Literal("Powered by Propulse \U{2014} https://propulse.vercel.app")];
    var a := [FrequencyPart(net)];
    var b := a + AltPart(net);
    var c := b + [Literal("Band: ") + net.band];
    var e := c + DurationPart(net);
    var f := e + RepeaterPart(net);
    OptionalSlashes(net);
    FixedSlashes(net);
    NoBackslashOne(FrequencyPart(net));
    NoBackslashOne(Literal("Band: ") + net.band);
    NoBackslashTwo(a, AltPart(net));
    NoBackslashTwo(b, [Literal("Band: ") + net.band]);
    NoBackslashTwo(c, DurationPart(net));
    NoBackslashTwo(e, RepeaterPart(net));
    NoBackslashTwo(f, DescriptionPart(net));
    NoBackslashTwo(f + DescriptionPart(net), last);
    assert NoBackslash(last);
  }

  /** The description's value reads as its lines if and only if none of the net's fields in it holds a backslash,
      since only the breaks between the lines are written as escapes. */
  lemma DescriptionReadsIff(net: Net)
    ensures Unescape(BuildDescription(net)) == Joined(DescriptionParts(net), [LF]) <==> Unslashed(net)
  {
    PartsSlashes(net);
    BreaksRead(DescriptionParts(net));
  }

  /** It happens to every net whose description is A, a backslash and B. */
  lemma BackslashMissed(net: Net)
    ensures var n := net.(description := Some(Literal("A") + ([BACKSLASH] + Literal("B"))));
            Unescape(BuildDescription(n)) != Joined(DescriptionParts(n), [LF])
  {
    var text := Literal("A") + ([BACKSLASH] + Literal("B"));
    assert text[1] == BACKSLASH;
    DescriptionReadsIff(net.(description := Some(text)));
  }
}
