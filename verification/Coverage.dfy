/**
 The archive's coverage evidence: the check that a JSON value is canonical evidence for a
 partition's range, what its accepted gaps mean in time, and its canonical text. The checks
 compare strings, which `Timestamps` shows to be comparing instants; `Lexicographic` has
 the order they use.
 */
module Coverage {
  import opened Common
  import opened Lexicographic
  import opened Calendar
  import opened Timestamps

  datatype Json =
    | JNull
    | JBool(b: bool)
    | JInt(n: int)
    | JReal(r: real)
    | JString(s: string)
    | JList(items: seq<Json>)
    | JObject(fields: map<string, Json>)

  datatype Gap = Gap(startHour: string, endHour: string, recordedAt: string, reason: string)

  datatype Evidence = Evidence(rangeStart: string, rangeEnd: string, gaps: seq<Gap>)

  /** A datetime: its wall clock, and its offset from UTC in seconds if it has one. */
  datatype Moment = Moment(time: Time, offset: Option<int>)

  datatype Error =
    | UnsupportedContract
    | NotAnObject
    | InvalidRange
    | InvalidShape
    | RangeMismatch
    | InvalidGapList
    | InvalidGapShape
    | GapNotCanonical
    | NotUtc
    | NotAligned
    | NoOverlap

  const GAP_ERRORS: set<Error> := {InvalidGapShape, GapNotCanonical, NotUtc, NotAligned, NoOverlap}

  const KNOWN_GAPS_CONTRACT := "spot-known-gaps-v1"
  const SCOPE := "known-gaps-only"
  const REASON := "raw_expired"
  const KEYS: set<string> := {"version", "scope", "range_start", "range_end", "gaps"}
  const GAP_KEYS: set<string> := {"start_hour", "end_hour", "recorded_at", "reason"}

  function GapJson(g: Gap): Json {
    JObject(map["start_hour" := JString(g.startHour), "end_hour" := JString(g.endHour),
                "recorded_at" := JString(g.recordedAt), "reason" := JString(g.reason)])
  }

  function GapsJson(gs: seq<Gap>): (items: seq<Json>)
    ensures |items| == |gs| && forall i | 0 <= i < |gs| :: items[i] == GapJson(gs[i])
  {
    seq(|gs|, i requires 0 <= i < |gs| => GapJson(gs[i]))
  }

  /** The dictionary that stands for the evidence. */
  function ToJson(e: Evidence): Json {
    JObject(map["version" := JInt(1), "scope" := JString("known-gaps-only"), "range_start" := JString(e.rangeStart),
                "range_end" := JString(e.rangeEnd), "gaps" := JList(GapsJson(e.gaps))])
  }

  predicate OnTheHour(t: Time) { t.minute == 0 && t.second == 0 && t.micro == 0 }

  predicate ValidRange(start: Moment, end: Moment) {
    && start.offset == Some(0) && end.offset == Some(0)
    && OnTheHour(start.time) && OnTheHour(end.time)
    && Instant(start.time) < Instant(end.time) <= Instant(start.time) + 32 * DAY
  }

  const HOUR_END := ":00:00.000000Z"

  predicate EndsWith(s: string, end: string) { |end| <= |s| && s[|s| - |end|..] == end }

  /** The conditions canonical_coverage sets on one gap; `previous` is the start of the gap before it. */
  predicate GapFits(g: Gap, previous: Option<string>, start: string, end: string) {
    && g.reason == "raw_expired" && (previous.Some? ==> Less(previous.value, g.startHour))
    && Parse(g.startHour).Some? && Parse(g.endHour).Some? && Parse(g.recordedAt).Some?
    && EndsWith(g.startHour, ":00:00.000000Z") && EndsWith(g.endHour, ":00:00.000000Z")
    && !Less(g.endHour, g.startHour) && Less(g.startHour, end) && !Less(g.endHour, start)
  }

  function Previous(gs: seq<Gap>, i: nat): Option<string>
    requires i <= |gs|
  {
    if i == 0 then None else Some(gs[i - 1].startHour)
  }

  predicate GapsFit(gs: seq<Gap>, start: string, end: string) {
    gs == [] || (GapsFit(gs[..|gs| - 1], start, end) && GapFits(gs[|gs| - 1], Previous(gs, |gs| - 1), start, end))
  }

  lemma {:induction false} FitsAt(gs: seq<Gap>, i: nat, start: string, end: string)
    requires GapsFit(gs, start, end) && i < |gs|
    ensures GapFits(gs[i], Previous(gs, i), start, end)
  {
    if i < |gs| - 1 {
      FitsAt(gs[..|gs| - 1], i, start, end);
      assert Previous(gs[..|gs| - 1], i) == Previous(gs, i);
    }
  }

  /** The value is canonical evidence for the range, and the evidence is e. */
  predicate Accepts(value: Json, contract: string, start: Moment, end: Moment, e: Evidence)
    requires IsStamp(start.time) && IsStamp(end.time)
  {
    && contract == "spot-known-gaps-v1" && ValidRange(start, end) && value == ToJson(e)
    && e.rangeStart == Format(start.time) && e.rangeEnd == Format(end.time)
    && |e.gaps| <= 1000 && GapsFit(e.gaps, e.rangeStart, e.rangeEnd)
  }

  // ---------------------------------------------------------------- shapes

  /** The gap a JSON value stands for. */
  function GapOf(item: Json): Option<Gap> {
    if item.JObject? && item.fields.Keys == GAP_KEYS && forall k | k in GAP_KEYS :: item.fields[k].JString? then
      Some(Gap(item.fields["start_hour"].s, item.fields["end_hour"].s, item.fields["recorded_at"].s,
               item.fields["reason"].s))
    else None
  }

  lemma GapOfIs(item: Json, g: Gap)
    ensures GapOf(item) == Some(g) <==> item == GapJson(g)
  {
    if GapOf(item) == Some(g) {
      assert item.fields == GapJson(g).fields;
    }
  }

  /** The outer shape: the keys, the version, the scope. */
  predicate Shaped(fields: map<string, Json>) {
    fields.Keys == KEYS && fields["version"] == JInt(1) && fields["scope"] == JString(SCOPE)
  }

  lemma JsonShape(fields: map<string, Json>, e: Evidence)
    ensures JObject(fields) == ToJson(e)
            <==> && Shaped(fields) && fields["range_start"] == JString(e.rangeStart)
                 && fields["range_end"] == JString(e.rangeEnd) && fields["gaps"] == JList(GapsJson(e.gaps))
  {
    if Shaped(fields) && fields["range_start"] == JString(e.rangeStart)
       && fields["range_end"] == JString(e.rangeEnd) && fields["gaps"] == JList(GapsJson(e.gaps))
    {
      assert fields == ToJson(e).fields;
    }
  }

  lemma {:induction false} GapsJsonInjective(a: seq<Gap>, b: seq<Gap>)
    requires GapsJson(a) == GapsJson(b)
    ensures a == b
  {
    assert |a| == |b|;
    forall i | 0 <= i < |a|
      ensures a[i] == b[i]
    {
      assert GapJson(a[i]) == GapsJson(a)[i] == GapsJson(b)[i] == GapJson(b[i]);
      GapOfIs(GapJson(a[i]), a[i]);
      GapOfIs(GapJson(a[i]), b[i]);
    }
  }

  /** A value stands for at most one evidence, so canonical evidence canonicalised again stays what it is. */
  lemma Idempotent(value: Json, contract: string, start: Moment, end: Moment, e: Evidence, again: Evidence)
    requires IsStamp(start.time) && IsStamp(end.time)
    requires Accepts(value, contract, start, end, e)
    ensures Accepts(ToJson(e), contract, start, end, again) <==> again == e
  {
    if Accepts(ToJson(e), contract, start, end, again) {
      JsonShape(ToJson(e).fields, e);
      JsonShape(ToJson(e).fields, again);
      GapsJsonInjective(e.gaps, again.gaps);
    }
  }

  // ---------------------------------------------------------------- the check

  /** One gap of the list. */
  method CanonicalGap(item: Json, previous: Option<string>, start: string, end: string) returns (r: Result<Gap, Error>)
    ensures r.Ok? ==> item == GapJson(r.value) && GapFits(r.value, previous, start, end)
    ensures r.Err? ==> forall g :: item == GapJson(g) ==> !GapFits(g, previous, start, end)
    ensures r == Err(InvalidGapShape) <==> GapOf(item).None?
    ensures r.Err? ==> r.error in GAP_ERRORS
  {
    var of := GapOf(item);
    forall g
      ensures GapOf(item) == Some(g) <==> item == GapJson(g)
    {
      GapOfIs(item, g);
    }
    if of.None? { return Err(InvalidGapShape); }
    var g := of.value;
    if g.reason != REASON || (previous.Some? && LessEq(g.startHour, previous.value)) {
      if previous.Some? { Total(g.startHour, previous.value); }
      return Err(GapNotCanonical);
    }
    if previous.Some? { Total(g.startHour, previous.value); }
    if Parse(g.startHour).None? || Parse(g.endHour).None? || Parse(g.recordedAt).None? { return Err(NotUtc); }
    if !EndsWith(g.startHour, HOUR_END) || !EndsWith(g.endHour, HOUR_END) { return Err(NotAligned); }
    if Less(g.endHour, g.startHour) || LessEq(end, g.startHour) || Less(g.endHour, start) {
      Total(end, g.startHour);
      return Err(NoOverlap);
    }
    Total(end, g.startHour);
    return Ok(g);
  }

  /** The gaps of the list, in order. */
  method CanonicalGaps(items: seq<Json>, start: string, end: string) returns (r: Result<seq<Gap>, Error>)
    ensures r.Ok? ==> items == GapsJson(r.value) && GapsFit(r.value, start, end)
    ensures r.Err? ==> forall gs :: items == GapsJson(gs) ==> !GapsFit(gs, start, end)
    ensures r.Err? ==> r.error in GAP_ERRORS
  {
    var gaps: seq<Gap> := [];
    var previous: Option<string> := None;
    var i := 0;
    while i < |items|
      invariant 0 <= i <= |items| && TakenUpTo(items, gaps, i, start, end) && previous == Previous(gaps, |gaps|)
    {
      var gap := CanonicalGap(items[i], previous, start, end);
      if gap.Err? {
        AllSpoiled(items, gaps, i, start, end);
        return Err(gap.error);
      }
      TakeOne(items, gaps, gap.value, i, start, end);
      previous := Some(gap.value.startHour);
      gaps := gaps + [gap.value];
      i := i + 1;
    }
    assert items[..i] == items;
    return Ok(gaps);
  }

  lemma FitsAppend(gs: seq<Gap>, g: Gap, start: string, end: string)
    requires GapsFit(gs, start, end) && GapFits(g, Previous(gs, |gs|), start, end)
    ensures GapsFit(gs + [g], start, end)
  {
    assert (gs + [g])[..|gs|] == gs;
    assert Previous(gs + [g], |gs|) == Previous(gs, |gs|);
  }

  lemma GapsJsonAppend(items: seq<Json>, gs: seq<Gap>, g: Gap, i: nat)
    requires i < |items| && GapsJson(gs) == items[..i] && items[i] == GapJson(g)
    ensures GapsJson(gs + [g]) == items[..i + 1] && Previous(gs + [g], i + 1) == Some(g.startHour)
  {
    assert |gs| == i;
  }

  predicate TakenUpTo(items: seq<Json>, gaps: seq<Gap>, i: nat, start: string, end: string)
    requires i <= |items|
  {
    GapsJson(gaps) == items[..i] && GapsFit(gaps, start, end)
  }

  lemma TakeOne(items: seq<Json>, gaps: seq<Gap>, g: Gap, i: nat, start: string, end: string)
    requires i < |items| && TakenUpTo(items, gaps, i, start, end)
    requires items[i] == GapJson(g) && GapFits(g, Previous(gaps, |gaps|), start, end)
    ensures TakenUpTo(items, gaps + [g], i + 1, start, end) && Previous(gaps + [g], |gaps + [g]|) == Some(g.startHour)
  {
    FitsAppend(gaps, g, start, end);
    GapsJsonAppend(items, gaps, g, i);
  }

  lemma AllSpoiled(items: seq<Json>, gaps: seq<Gap>, i: nat, start: string, end: string)
    requires i < |items| && TakenUpTo(items, gaps, i, start, end)
    requires forall g :: items[i] == GapJson(g) ==> !GapFits(g, Previous(gaps, |gaps|), start, end)
    ensures forall gs :: items == GapsJson(gs) ==> !GapsFit(gs, start, end)
  {
    forall gs | items == GapsJson(gs)
      ensures !GapsFit(gs, start, end)
    {
      Spoiled(items, gs, gaps, i, start, end);
    }
  }

  /** After gaps that were read, an item that stands for no fitting gap spoils the list. */
  lemma Spoiled(items: seq<Json>, gs: seq<Gap>, gaps: seq<Gap>, i: nat, start: string, end: string)
    requires items == GapsJson(gs) && i < |items| && GapsJson(gaps) == items[..i]
    requires forall g :: items[i] == GapJson(g) ==> !GapFits(g, Previous(gaps, |gaps|), start, end)
    ensures !GapsFit(gs, start, end)
  {
    SameFront(items, gs, gaps, i);
    if GapsFit(gs, start, end) {
      FitsAt(gs, i, start, end);
      assert false;
    }
  }

  /** Gaps with the items' JSON agree with those already read. */
  lemma SameFront(items: seq<Json>, gs: seq<Gap>, gaps: seq<Gap>, i: nat)
    requires items == GapsJson(gs) && i < |items| && GapsJson(gaps) == items[..i]
    ensures |gs| == |items| && Previous(gs, i) == Previous(gaps, i) && items[i] == GapJson(gs[i])
  {
    assert GapsJson(gs[..i]) == GapsJson(gaps);
    GapsJsonInjective(gs[..i], gaps);
    if i > 0 { assert gs[i - 1] == gs[..i][i - 1]; }
  }

  /** Accepts exactly the canonical evidence for the partition's range, and returns it. */
  method CanonicalCoverage(value: Json, contract: string, start: Moment, end: Moment)
    returns (r: Result<Evidence, Error>)
    requires IsStamp(start.time) && IsStamp(end.time)
    ensures r.Ok? ==> Accepts(value, contract, start, end, r.value)
    ensures r.Err? ==> forall e :: !Accepts(value, contract, start, end, e)
    ensures r == Err(UnsupportedContract) <==> contract != "spot-known-gaps-v1"
  {
    if contract != KNOWN_GAPS_CONTRACT { return Err(UnsupportedContract); }
    if !value.JObject? { return Err(NotAnObject); }
    if start.offset != Some(0) || end.offset != Some(0) || !OnTheHour(start.time) || !OnTheHour(end.time)
       || Instant(end.time) <= Instant(start.time) || Instant(end.time) - Instant(start.time) > 32 * DAY
    {
      return Err(InvalidRange);
    }
    var fields := value.fields;
    forall e
      ensures value == ToJson(e) <==>
              && Shaped(fields) && fields["range_start"] == JString(e.rangeStart)
              && fields["range_end"] == JString(e.rangeEnd) && fields["gaps"] == JList(GapsJson(e.gaps))
    {
      JsonShape(fields, e);
    }
    if fields.Keys != KEYS || fields["version"] != JInt(1) || fields["scope"] != JString(SCOPE) {
      return Err(InvalidShape);
    }
    var from, to := Format(start.time), Format(end.time);
    if fields["range_start"] != JString(from) || fields["range_end"] != JString(to) { return Err(RangeMismatch); }
    if !fields["gaps"].JList? || |fields["gaps"].items| > 1000 { return Err(InvalidGapList); }
    var gaps := CanonicalGaps(fields["gaps"].items, from, to);
    if gaps.Err? {
      return Err(gaps.error);
    }
    return Ok(Evidence(from, to, gaps.value));
  }

  // ---------------------------------------------------------------- what accepted gaps mean in time

  predicate Reads(s: string) { Parse(s).Some? }

  /** The instant a timestamp stands for; 0 if it is none. */
  function At(s: string): int { if Reads(s) then Instant(Parse(s).value) else 0 }

  lemma ReadsIs(s: string)
    requires Reads(s)
    ensures IsStamp(Parse(s).value) && Format(Parse(s).value) == s
  {
    ParseInverts(s, Parse(s).value);
  }

  lemma FormatReads(t: Time)
    requires IsStamp(t)
    ensures Reads(Format(t)) && At(Format(t)) == Instant(t)
  {
    ParseInverts(Format(t), t);
  }

  lemma OrderInTime(x: string, y: string)
    requires Reads(x) && Reads(y)
    ensures Less(x, y) <==> At(x) < At(y)
  {
    ReadsIs(x);
    ReadsIs(y);
    StringOrderIsTimeOrder(Parse(x).value, Parse(y).value);
  }

  lemma {:induction false} RenderSplit(parts: seq<Part>, values: seq<int>, k: nat)
    requires Fit(parts, values) && k <= |parts|
    ensures Fit(parts[..k], values[..k]) && Fit(parts[k..], values[k..])
    ensures Render(parts, values) == Render(parts[..k], values[..k]) + Render(parts[k..], values[k..])
  {
    if k > 0 {
      RenderSplit(parts[1..], values[1..], k - 1);
      assert parts[..k][1..] == parts[1..][..k - 1] && values[..k][1..] == values[1..][..k - 1];
      assert parts[k..] == parts[1..][k - 1..] && values[k..] == values[1..][k - 1..];
    }
  }

  const HOUR_PARTS: seq<Part> := [Part(4, '-'), Part(2, '-'), Part(2, 'T'), Part(2, ':')]
  const REST_PARTS: seq<Part> := [Part(2, ':'), Part(2, '.'), Part(6, 'Z')]

  lemma {:induction false} RenderLength(parts: seq<Part>, v: seq<int>)
    requires Fit(parts, v)
    ensures |Render(parts, v)| == TotalWidth(parts)
    ensures parts != [] ==>
              Render(parts, v) != [] && Render(parts, v)[TotalWidth(parts) - 1] == parts[|parts| - 1].after
  {
    if parts != [] { RenderLength(parts[1..], v[1..]); }
  }

  function TotalWidth(parts: seq<Part>): nat {
    if parts == [] then 0 else parts[0].width + 1 + TotalWidth(parts[1..])
  }

  lemma Widths()
    ensures TotalWidth(HOUR_PARTS) == 14 && TotalWidth(STAMP) == 27
  {
    assert HOUR_PARTS[1..][1..] == [Part(2, 'T'), Part(2, ':')];
    assert STAMP[1..][1..] == [Part(2, 'T'), Part(2, ':'), Part(2, ':'), Part(2, '.'), Part(6, 'Z')];
    assert STAMP[1..][1..][1..][1..] == REST_PARTS;
    assert REST_PARTS[1..][1..] == [Part(6, 'Z')];
  }

  lemma ZeroRest()
    ensures Fit(REST_PARTS, [0, 0, 0]) && Render(REST_PARTS, [0, 0, 0]) == "00:00.000000Z"
  {
    assert Power10(2) == 100;
    assert Power10(6) == 10000 * Power10(2);
    assert Digits(0, 2) == "00";
    assert Digits(0, 4) == "0000";
    assert Digits(0, 6) == "000000";
    assert REST_PARTS[1..] == [Part(2, '.'), Part(6, 'Z')] && [0, 0, 0][1..] == [0, 0];
    assert [Part(2, '.'), Part(6, 'Z')][1..] == [Part(6, 'Z')] && [0, 0][1..] == [0];
    assert Render([Part(6, 'Z')], [0]) == "000000Z";
    assert Fit([Part(2, '.'), Part(6, 'Z')], [0, 0]);
    assert Render([Part(2, '.'), Part(6, 'Z')], [0, 0]) == "00.000000Z";
  }

  lemma EndsAfterColon(head: string, tail: string, z: string)
    requires |tail| == |z| && head != "" && head[|head| - 1] == ':'
    ensures EndsWith(head + tail, ":" + z) <==> tail == z
  {
    var s := head + tail;
    assert s[|s| - |z| - 1..] == ":" + tail;
    assert (":" + tail)[1..] == tail && (":" + z)[1..] == z;
  }

  lemma RestIsZero(rest: seq<int>)
    requires Fit(REST_PARTS, rest)
    ensures Render(REST_PARTS, rest) == "00:00.000000Z" <==> rest == [0, 0, 0]
  {
    ZeroRest();
    ReadRender(REST_PARTS, rest);
    ReadRender(REST_PARTS, [0, 0, 0]);
  }

  /** A timestamp is its hour's part and the rest. */
  lemma FormatSplit(t: Time)
    requires IsStamp(t)
    ensures Fit(HOUR_PARTS, Values(t)[..4]) && Fit(REST_PARTS, [t.minute, t.second, t.micro])
    ensures Format(t) == Render(HOUR_PARTS, Values(t)[..4]) + Render(REST_PARTS, [t.minute, t.second, t.micro])
    ensures |Format(t)| == 27
  {
    StampFits(t);
    Widths();
    RenderSplit(STAMP, Values(t), 4);
    RenderLength(STAMP, Values(t));
    assert STAMP[..4] == HOUR_PARTS && STAMP[4..] == REST_PARTS && Values(t)[4..] == [t.minute, t.second, t.micro];
  }

  /** A timestamp ends in zero minutes, seconds and microseconds exactly if it is on the hour. */
  lemma OnTheHourIff(t: Time)
    requires IsStamp(t)
    ensures EndsWith(Format(t), ":00:00.000000Z") <==> OnTheHour(t)
    ensures |Format(t)| == 27
  {
    FormatSplit(t);
    Widths();
    var rest := [t.minute, t.second, t.micro];
    var head, tail := Render(HOUR_PARTS, Values(t)[..4]), Render(REST_PARTS, rest);
    RenderLength(HOUR_PARTS, Values(t)[..4]);
    RestIsZero(rest);
    EndsAfterColon(head, tail, "00:00.000000Z");
  }

  lemma HourIff(s: string)
    requires Reads(s)
    ensures EndsWith(s, HOUR_END) <==> OnTheHour(Parse(s).value)
    ensures |s| == 27
  {
    ReadsIs(s);
    OnTheHourIff(Parse(s).value);
  }

  /** In time: the gap is a span of whole hours, not empty backwards, that reaches into the range. */
  predicate GapInTime(g: Gap, start: Time, end: Time) {
    && g.reason == REASON && Reads(g.startHour) && Reads(g.endHour) && Reads(g.recordedAt)
    && OnTheHour(Parse(g.startHour).value) && OnTheHour(Parse(g.endHour).value)
    && At(g.startHour) <= At(g.endHour)
    && At(g.startHour) < Instant(end) && Instant(start) <= At(g.endHour)
  }

  lemma GapFitsInTime(g: Gap, previous: Option<string>, start: Time, end: Time)
    requires IsStamp(start) && IsStamp(end) && (previous.Some? ==> Reads(previous.value))
    ensures GapFits(g, previous, Format(start), Format(end))
            <==> GapInTime(g, start, end) && (previous.Some? ==> At(previous.value) < At(g.startHour))
  {
    if Reads(g.startHour) && Reads(g.endHour) {
      HourIff(g.startHour);
      HourIff(g.endHour);
      FormatReads(start);
      FormatReads(end);
      OrderInTime(g.endHour, g.startHour);
      OrderInTime(g.startHour, Format(end));
      OrderInTime(g.endHour, Format(start));
      if previous.Some? { OrderInTime(previous.value, g.startHour); }
    }
  }

  /** All are well, and each comes strictly after those before it. */
  predicate Ordered<T>(ok: T -> bool, at: T -> int, xs: seq<T>) {
    && (forall i | 0 <= i < |xs| :: ok(xs[i]))
    && (forall i, j | 0 <= i < j < |xs| :: at(xs[i]) < at(xs[j]))
  }

  lemma OrderedAppend<T>(ok: T -> bool, at: T -> int, xs: seq<T>, x: T)
    ensures Ordered(ok, at, xs + [x]) <==> Ordered(ok, at, xs) && ok(x) && (xs != [] ==> at(xs[|xs| - 1]) < at(x))
  {
    var all := xs + [x];
    assert all[|xs|] == x && forall i | 0 <= i < |xs| :: all[i] == xs[i];
  }

  function InTime(start: Time, end: Time): Gap -> bool { (g: Gap) => GapInTime(g, start, end) }

  function StartOf(): Gap -> int { (g: Gap) => At(g.startHour) }

  /** Each gap reaches into the range, and they start one strictly after the other. */
  predicate GapsInTime(gs: seq<Gap>, start: Time, end: Time) { Ordered(InTime(start, end), StartOf(), gs) }

  /** The check on strings accepts exactly the gap lists that are right in time. */
  lemma {:induction false} GapsFitInTime(gs: seq<Gap>, start: Time, end: Time)
    requires IsStamp(start) && IsStamp(end)
    ensures GapsFit(gs, Format(start), Format(end)) <==> GapsInTime(gs, start, end)
  {
    if gs != [] {
      var init, n := gs[..|gs| - 1], |gs| - 1;
      GapsFitInTime(init, start, end);
      OrderedAppend(InTime(start, end), StartOf(), init, gs[n]);
      assert gs == init + [gs[n]];
      if GapsInTime(init, start, end) {
        if n > 0 { LastReads(init, start, end); }
        GapFitsInTime(gs[n], Previous(gs, n), start, end);
      }
    }
  }

  lemma LastReads(gs: seq<Gap>, start: Time, end: Time)
    requires GapsInTime(gs, start, end) && gs != []
    ensures Reads(gs[|gs| - 1].startHour)
  {
    assert InTime(start, end)(gs[|gs| - 1]);
  }

  /** Accepted evidence in time: for the gaps i before j, gap i is a span of whole hours that reaches into the
      partition, and it starts before gap j. */
  lemma AcceptedInTime(value: Json, contract: string, start: Moment, end: Moment, e: Evidence)
    requires IsStamp(start.time) && IsStamp(end.time) && Accepts(value, contract, start, end, e)
    ensures forall i | 0 <= i < |e.gaps| :: GapInTime(e.gaps[i], start.time, end.time)
    ensures forall i, j | 0 <= i < j < |e.gaps| :: At(e.gaps[i].startHour) < At(e.gaps[j].startHour)
  {
    GapsFitInTime(e.gaps, start.time, end.time);
    forall i | 0 <= i < |e.gaps|
      ensures GapInTime(e.gaps[i], start.time, end.time)
    {
      assert InTime(start.time, end.time)(e.gaps[i]);
    }
    forall i, j | 0 <= i < j < |e.gaps|
      ensures At(e.gaps[i].startHour) < At(e.gaps[j].startHour)
    {
      assert StartOf()(e.gaps[i]) < StartOf()(e.gaps[j]);
    }
  }

  // ---------------------------------------------------------------- the canonical text

  /** One gap as compact JSON with sorted keys. */
  function GapText(g: Gap): string {
    "{\"end_hour\":\"" + (g.endHour + ("\",\"reason\":\"" + (g.reason + ("\",\"recorded_at\":\"" + (g.recordedAt
    + ("\",\"start_hour\":\"" + (g.startHour + "\"}")))))))
  }

  function GapTexts(gs: seq<Gap>): string {
    if gs == [] then "" else if |gs| == 1 then GapText(gs[0]) else GapText(gs[0]) + ("," + GapTexts(gs[1..]))
  }

  /** json.dumps with sorted keys and no spaces. Accepted strings have no character that JSON escapes. */
  function CoverageText(e: Evidence): string {
    "{\"gaps\":[" + (GapTexts(e.gaps) + ("],\"range_end\":\"" + (e.rangeEnd + ("\",\"range_start\":\"" + (e.rangeStart
    + "\",\"scope\":\"known-gaps-only\",\"version\":1}")))))
  }

  predicate PlainGap(g: Gap) {
    |g.startHour| == 27 && |g.endHour| == 27 && |g.recordedAt| == 27 && g.reason == REASON
  }

  predicate PlainGaps(gs: seq<Gap>) { forall i | 0 <= i < |gs| :: PlainGap(gs[i]) }

  /** Timestamps of their one length, and the one reason. */
  predicate Plain(e: Evidence) { |e.rangeStart| == 27 && |e.rangeEnd| == 27 && PlainGaps(e.gaps) }

  lemma Cut(a: string, x: string, b: string, y: string)
    requires |a| == |b| && a + x == b + y
    ensures a == b && x == y
  {
    assert (a + x)[..|a|] == a && (b + y)[..|b|] == b;
    assert (a + x)[|a|..] == x && (b + y)[|b|..] == y;
  }

  /** After an equal beginning and a field of one length. */
  lemma CutField(k: string, a: string, x: string, b: string, y: string)
    requires |a| == |b| && k + (a + x) == k + (b + y)
    ensures a == b && x == y
  {
    Cut(k, a + x, k, b + y);
    Cut(a, x, b, y);
  }

  lemma GapTextInjective(g: Gap, h: Gap)
    requires PlainGap(g) && PlainGap(h) && GapText(g) == GapText(h)
    ensures g == h
  {
    var k1, k2, k3, k4 := "{\"end_hour\":\"", "\",\"reason\":\"", "\",\"recorded_at\":\"", "\",\"start_hour\":\"";
    var g4, h4 := k4 + (g.startHour + "\"}"), k4 + (h.startHour + "\"}");
    var g3, h3 := k3 + (g.recordedAt + g4), k3 + (h.recordedAt + h4);
    var g2, h2 := k2 + (g.reason + g3), k2 + (h.reason + h3);
    CutField(k1, g.endHour, g2, h.endHour, h2);
    CutField(k2, g.reason, g3, h.reason, h3);
    CutField(k3, g.recordedAt, g4, h.recordedAt, h4);
    CutField(k4, g.startHour, "\"}", h.startHour, "\"}");
  }

  lemma {:induction false} GapTextsLength(gs: seq<Gap>)
    requires PlainGaps(gs) && gs != []
    ensures |GapTexts(gs)| + 1 == 153 * |gs|
  {
    if |gs| > 1 { GapTextsLength(gs[1..]); }
  }

  lemma {:induction false} GapTextsInjective(a: seq<Gap>, b: seq<Gap>)
    requires PlainGaps(a) && PlainGaps(b) && |a| == |b| && GapTexts(a) == GapTexts(b)
    ensures a == b
  {
    if |a| == 1 {
      GapTextInjective(a[0], b[0]);
    } else if |a| > 1 {
      Cut(GapText(a[0]), "," + GapTexts(a[1..]), GapText(b[0]), "," + GapTexts(b[1..]));
      Cut(",", GapTexts(a[1..]), ",", GapTexts(b[1..]));
      GapTextInjective(a[0], b[0]);
      GapTextsInjective(a[1..], b[1..]);
      assert a == [a[0]] + a[1..] && b == [b[0]] + b[1..];
    }
  }

  lemma SameCount(a: Evidence, b: Evidence)
    requires Plain(a) && Plain(b) && |CoverageText(a)| == |CoverageText(b)|
    ensures |a.gaps| == |b.gaps| && |GapTexts(a.gaps)| == |GapTexts(b.gaps)|
  {
    if a.gaps != [] { GapTextsLength(a.gaps); }
    if b.gaps != [] { GapTextsLength(b.gaps); }
  }

  lemma PlainTextInjective(a: Evidence, b: Evidence)
    requires Plain(a) && Plain(b) && CoverageText(a) == CoverageText(b)
    ensures a == b
  {
    SameCount(a, b);
    var k1, k2, k3, z :=
      "{\"gaps\":[", "],\"range_end\":\"", "\",\"range_start\":\"", "\",\"scope\":\"known-gaps-only\",\"version\":1}";
    var a3, b3 := k3 + (a.rangeStart + z), k3 + (b.rangeStart + z);
    var a2, b2 := k2 + (a.rangeEnd + a3), k2 + (b.rangeEnd + b3);
    CutField(k1, GapTexts(a.gaps), a2, GapTexts(b.gaps), b2);
    CutField(k2, a.rangeEnd, a3, b.rangeEnd, b3);
    CutField(k3, a.rangeStart, z, b.rangeStart, z);
    GapTextsInjective(a.gaps, b.gaps);
  }

  lemma AcceptedIsPlain(value: Json, contract: string, start: Moment, end: Moment, e: Evidence)
    requires IsStamp(start.time) && IsStamp(end.time) && Accepts(value, contract, start, end, e)
    ensures Plain(e)
  {
    AcceptedInTime(value, contract, start, end, e);
    OnTheHourIff(start.time);
    OnTheHourIff(end.time);
    forall i | 0 <= i < |e.gaps|
      ensures PlainGap(e.gaps[i])
    {
      var g := e.gaps[i];
      assert GapInTime(g, start.time, end.time);
      HourIff(g.startHour);
      HourIff(g.endHour);
      HourIff(g.recordedAt);
    }
  }

  /** Two accepted evidences, of whatever partitions, are equal if and only if their texts are. */
  lemma TextDecides(v: Json, c: string, s: Moment, t: Moment, e: Evidence,
                    v': Json, c': string, s': Moment, t': Moment, e': Evidence)
    requires IsStamp(s.time) && IsStamp(t.time) && Accepts(v, c, s, t, e)
    requires IsStamp(s'.time) && IsStamp(t'.time) && Accepts(v', c', s', t', e')
    ensures CoverageText(e) == CoverageText(e') <==> e == e'
  {
    AcceptedIsPlain(v, c, s, t, e);
    AcceptedIsPlain(v', c', s', t', e');
    if CoverageText(e) == CoverageText(e') { PlainTextInjective(e, e'); }
  }
}
