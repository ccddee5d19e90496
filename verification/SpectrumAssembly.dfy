/**
 The CI-V spectrum client's line assembler: a header frame opens a line, numbered fragments
 extend it, the last one completes it, and a stale timer discards it. Frames arrive parsed;
 frequencies and sequence numbers are decoded from their BCD bytes here. The radio numbers a
 line's frames from 1, and the header is the first.
 */
module SpectrumAssembly {
  import opened Common

  newtype Byte = x: int | 0 <= x < 256
  type Bytes = seq<Byte>

  /** A parsed CI-V frame; `data` starts with the sub-command byte. */
  datatype Frame = Frame(command: int, subCommand: Option<int>, data: Bytes)

  const SCOPE_DATA := 0x27
  const WAVE_DATA := 0x00
  const MODE_CENTER := 0

  datatype Line = Line(centerHz: real, spanHz: int, pixels: Bytes, scopeMode: int, scopeIndex: int)

  datatype Header = Header(scopeMode: int, scopeIndex: int, startHz: int, endHz: int, seqMax: int)

  datatype Fragment = Fragment(number: int, last: int, pixels: Bytes)

  /** What a frame is to the assembler. */
  datatype Packet = Ignored | Opens(header: Header, rest: Bytes) | Extends(fragment: Fragment)

  function DecodeBcdByte(b: Byte): int { (b as int / 16) * 10 + b as int % 16 }

  /** Five BCD bytes, least significant first. */
  function DecodeBcdFrequency(buf: Bytes): int {
    if buf == [] then 0 else DecodeBcdByte(buf[0]) + 100 * DecodeBcdFrequency(buf[1..])
  }

  /** handleData's filter, and the header's own length check. */
  function Classify(f: Frame): Packet {
    if f.command != SCOPE_DATA || f.subCommand != Some(WAVE_DATA) || |f.data| < 4 then Ignored
    else
      var scope := f.data[1..];
      var number, last := DecodeBcdByte(scope[1]), DecodeBcdByte(scope[2]);
      if number < 1 || last < 1 then Ignored
      else if number != 1 then Extends(Fragment(number, last, scope[3..]))
      else if |scope| < 15 then Ignored
      else Opens(Header(scope[3] as int, scope[0] as int, DecodeBcdFrequency(scope[4..9]),
                        DecodeBcdFrequency(scope[9..14]), last),
                 scope[15..])
  }

  datatype Assembly = Assembly(header: Header, lastSeq: int, pixels: Bytes, lastUpdateMs: int)

  /** The assembler; `timer` is the moment the armed stale timer was set. */
  datatype State = State(assembly: Option<Assembly>, timer: Option<int>, framesDropped: nat, emitted: seq<Line>)

  const INITIAL := State(None, None, 0, [])

  // ---------------------------------------------------------------- steps

  function SpanOf(h: Header): int {
    if h.scopeMode == MODE_CENTER then h.endHz * 2 else h.endHz - h.startHz
  }

  function CenterOf(h: Header): real {
    if h.scopeMode == MODE_CENTER then h.startHz as real else (h.startHz + h.endHz) as real / 2.0
  }

  function LineOf(h: Header, pixels: Bytes): Line {
    Line(CenterOf(h), SpanOf(h), pixels, h.scopeMode, h.scopeIndex)
  }

  /** emitCompleteLine for this assembly. */
  function Complete(s: State, a: Assembly): State {
    var t := s.(assembly := None, timer := None);
    if a.pixels == [] then t
    else if SpanOf(a.header) <= 0 then t.(framesDropped := t.framesDropped + 1)
    else t.(emitted := t.emitted + [LineOf(a.header, a.pixels)])
  }

  function OnHeader(s: State, h: Header, rest: Bytes, now: int): State {
    if h.seqMax == 1 then Complete(s, Assembly(h, 1, rest, now))
    else s.(assembly := Some(Assembly(h, 1, [], now)), timer := Some(now))
  }

  function OnFragment(s: State, f: Fragment, now: int): State {
    if s.assembly.None? then s
    else if f.number != s.assembly.value.lastSeq + 1 then
      s.(assembly := None, framesDropped := s.framesDropped + 1)
    else
      var a := s.assembly.value.(lastSeq := f.number, lastUpdateMs := now,
                                 pixels := s.assembly.value.pixels + f.pixels);
      if f.number == f.last then Complete(s, a) else s.(assembly := Some(a), timer := Some(now))
  }

  function OnPacket(s: State, p: Packet, now: int): State {
    match p
    case Ignored => s
    case Opens(h, rest) => OnHeader(s, h, rest, now)
    case Extends(f) => OnFragment(s, f, now)
  }

  datatype Event = Arrives(packet: Packet, now: int) | TimerFires | Reconnects | Disconnects

  function Step(s: State, e: Event): State {
    match e
    case Arrives(p, now) => OnPacket(s, p, now)
    case TimerFires =>
      if s.timer.None? then s
      else if s.assembly.None? then s.(timer := None)
      else s.(timer := None, assembly := None, framesDropped := s.framesDropped + 1)
    case Reconnects => s.(assembly := None)
    case Disconnects => s.(assembly := None, timer := None)
  }

  function Run(s: State, es: seq<Event>): State {
    if es == [] then s else Step(Run(s, es[..|es| - 1]), es[|es| - 1])
  }

  // ---------------------------------------------------------------- where a line comes from

  /** The fragments among the events, in order. */
  function Fragments(es: seq<Event>): seq<Fragment> {
    if es == [] then []
    else
      var e := es[|es| - 1];
      Fragments(es[..|es| - 1]) + if e.Arrives? && e.packet.Extends? then [e.packet.fragment] else []
  }

  function Pixels(fs: seq<Fragment>): Bytes {
    if fs == [] then [] else Pixels(fs[..|fs| - 1]) + fs[|fs| - 1].pixels
  }

  /** Numbered 2, 3, 4, and so on. */
  predicate Numbered(fs: seq<Fragment>) {
    forall i | 0 <= i < |fs| :: fs[i].number == i + 2
  }

  predicate IsHeader(e: Event) { e.Arrives? && e.packet.Opens? }

  /** Nothing since the header at `i` but its consecutive fragments and frames that are ignored: no other
      header, no timeout, no reconnection. */
  predicate Since(es: seq<Event>, i: int, h: Header, fs: seq<Fragment>) {
    && 0 <= i < |es| && IsHeader(es[i]) && es[i].packet.header == h
    && (forall k | i < k < |es| :: es[k].Arrives? && !IsHeader(es[k]))
    && fs == Fragments(es[i + 1..]) && Numbered(fs)
  }

  /** The line is made of the header at `i` and, in order, of exactly the fragments from there to `j`. */
  predicate Made(es: seq<Event>, i: int, j: int, line: Line) {
    && 0 <= i <= j < |es| && IsHeader(es[i])
    && (var h, fs := es[i].packet.header, Fragments(es[i + 1..j + 1]);
        && SpanOf(h) > 0 && line.pixels != []
        && if i == j then h.seqMax == 1 && line == LineOf(h, es[i].packet.rest)
           else
             && Since(es[..j + 1], i, h, fs) && fs != [] && fs[|fs| - 1].last == |fs| + 1
             && line == LineOf(h, Pixels(fs)))
  }

  lemma FragmentsAppend(es: seq<Event>, e: Event)
    ensures Fragments(es + [e]) == Fragments(es) + if e.Arrives? && e.packet.Extends? then [e.packet.fragment] else []
  {
    assert (es + [e])[..|es|] == es;
  }

  /** What an assembly in progress is: the line so far since its header, timed from its last accepted frame. */
  ghost predicate InProgress(es: seq<Event>, s: State, a: Assembly) {
    && s.timer == Some(a.lastUpdateMs)
    && exists i, fs :: Since(es, i, a.header, fs) && a.lastSeq == |fs| + 1 && a.pixels == Pixels(fs)
  }

  ghost predicate AllMade(es: seq<Event>, lines: seq<Line>) {
    forall l | l in lines :: exists i, j :: Made(es, i, j, l)
  }

  lemma MadeStays(es: seq<Event>, e: Event, lines: seq<Line>)
    requires AllMade(es, lines)
    ensures AllMade(es + [e], lines)
  {
    forall l | l in lines
      ensures exists i, j :: Made(es + [e], i, j, l)
    {
      var i, j :| Made(es, i, j, l);
      assert (es + [e])[i + 1..j + 1] == es[i + 1..j + 1] && (es + [e])[..j + 1] == es[..j + 1];
      assert Made(es + [e], i, j, l);
    }
  }

  /** The next fragment extends what has come since the header. */
  lemma SinceExtends(es: seq<Event>, i: int, h: Header, fs: seq<Fragment>, e: Event)
    requires Since(es, i, h, fs) && e.Arrives?
    requires e.packet.Extends? && e.packet.fragment.number == |fs| + 2
    ensures Since(es + [e], i, h, fs + [e.packet.fragment])
    ensures Pixels(fs + [e.packet.fragment]) == Pixels(fs) + e.packet.fragment.pixels
  {
    assert (es + [e])[i + 1..] == es[i + 1..] + [e];
    FragmentsAppend(es[i + 1..], e);
    assert (fs + [e.packet.fragment])[..|fs|] == fs;
  }

  lemma HeaderOrigin(es: seq<Event>, s: State, e: Event)
    requires AllMade(es, s.emitted) && IsHeader(e)
    ensures Accounted(es + [e], Step(s, e))
  {
    var all, n := es + [e], |es|;
    MadeStays(es, e, s.emitted);
    assert all[n + 1..] == [];
    assert Since(all, n, e.packet.header, []);
    if |Step(s, e).emitted| > |s.emitted| {
      assert Made(all, n, n, Step(s, e).emitted[|s.emitted|]);
    }
  }

  /** The fragment that says it is the last makes the line. */
  lemma LastFragmentMakes(es: seq<Event>, i: int, h: Header, fs: seq<Fragment>, e: Event)
    requires Since(es, i, h, fs) && e.Arrives? && e.packet.Extends? && e.packet.fragment.number == |fs| + 2
    requires e.packet.fragment.last == |fs| + 2 && SpanOf(h) > 0 && Pixels(fs) + e.packet.fragment.pixels != []
    ensures Made(es + [e], i, |es|, LineOf(h, Pixels(fs) + e.packet.fragment.pixels))
  {
    SinceExtends(es, i, h, fs, e);
    MadeAtEnd(es + [e], i, h, fs + [e.packet.fragment]);
  }

  lemma MadeAtEnd(all: seq<Event>, i: int, h: Header, gs: seq<Fragment>)
    requires Since(all, i, h, gs) && i < |all| - 1
    requires gs != [] && gs[|gs| - 1].last == |gs| + 1 && SpanOf(h) > 0 && Pixels(gs) != []
    ensures Made(all, i, |all| - 1, LineOf(h, Pixels(gs)))
  {
    assert all[..|all|] == all;
    assert all[i + 1..|all|] == all[i + 1..];
  }

  lemma FragmentOrigin(es: seq<Event>, s: State, e: Event, i: int, fs: seq<Fragment>)
    requires e.Arrives? && e.packet.Extends? && s.assembly.Some?
    requires var a := s.assembly.value; Since(es, i, a.header, fs) && a.lastSeq == |fs| + 1 && a.pixels == Pixels(fs)
    ensures var t := Step(s, e);
            t.assembly.Some? ==> InProgress(es + [e], t, t.assembly.value)
    ensures var t := Step(s, e);
            t.emitted == s.emitted
            || exists l :: t.emitted == s.emitted + [l] && Made(es + [e], i, |es|, l)
  {
    var t, f := Step(s, e), e.packet.fragment;
    var a := s.assembly.value;
    if f.number == a.lastSeq + 1 {
      SinceExtends(es, i, a.header, fs, e);
      if t.assembly.Some? {
        assert t.assembly.value.pixels == Pixels(fs + [f]);
      } else if t.emitted != s.emitted {
        LastFragmentMakes(es, i, a.header, fs, e);
      }
    }
  }

  lemma IgnoredOrigin(es: seq<Event>, s: State, e: Event)
    requires e.Arrives? && e.packet.Ignored? && s.assembly.Some? && InProgress(es, s, s.assembly.value)
    ensures InProgress(es + [e], s, s.assembly.value)
  {
    var a := s.assembly.value;
    var i, fs :| Since(es, i, a.header, fs) && a.lastSeq == |fs| + 1 && a.pixels == Pixels(fs);
    SinceIgnores(es, i, a.header, fs, e);
  }

  lemma SinceIgnores(es: seq<Event>, i: int, h: Header, fs: seq<Fragment>, e: Event)
    requires Since(es, i, h, fs) && e.Arrives? && e.packet.Ignored?
    ensures Since(es + [e], i, h, fs)
  {
    assert (es + [e])[i + 1..] == es[i + 1..] + [e];
    FragmentsAppend(es[i + 1..], e);
    assert fs + [] == fs;
  }

  ghost predicate Accounted(es: seq<Event>, s: State) {
    AllMade(es, s.emitted) && (s.assembly.Some? ==> InProgress(es, s, s.assembly.value))
  }

  lemma StepAccounted(es: seq<Event>, s: State, e: Event)
    requires Accounted(es, s)
    ensures Accounted(es + [e], Step(s, e))
  {
    MadeStays(es, e, s.emitted);
    if IsHeader(e) {
      HeaderOrigin(es, s, e);
    } else if e.Arrives? && s.assembly.Some? {
      if e.packet.Extends? {
        var a := s.assembly.value;
        var i, fs :| Since(es, i, a.header, fs) && a.lastSeq == |fs| + 1 && a.pixels == Pixels(fs);
        FragmentOrigin(es, s, e, i, fs);
      } else {
        IgnoredOrigin(es, s, e);
      }
    }
  }

  /** In any run, every emitted line is made of a header and, in order, of exactly the fragments that
      followed it; and an assembly in progress is timed from its own latest accepted frame. */
  lemma {:induction false} LinesAreMade(es: seq<Event>)
    ensures Accounted(es, Run(INITIAL, es))
  {
    if es != [] {
      var init, e := es[..|es| - 1], es[|es| - 1];
      LinesAreMade(init);
      StepAccounted(init, Run(INITIAL, init), e);
      assert es == init + [e];
    }
  }

  /** An assembly in progress always has its timer armed, and by its own latest accepted frame, whatever
      timers earlier drops and reconnections left behind; so only that timer ever drops it. */
  lemma {:induction false} TimeoutIsItsOwn(es: seq<Event>)
    requires Run(INITIAL, es).assembly.Some?
    ensures Run(INITIAL, es).timer == Some(Run(INITIAL, es).assembly.value.lastUpdateMs)
    ensures Step(Run(INITIAL, es), TimerFires).assembly.None?
  {
    LinesAreMade(es);
  }

  // ---------------------------------------------------------------- when a line is emitted

  /** How far a header has come with the fragments fed after it. */
  datatype Progress = Open | Done(n: nat) | Lost

  function ProgressOf(fs: seq<Fragment>): Progress {
    if fs == [] then Open
    else
      var f, p := fs[|fs| - 1], ProgressOf(fs[..|fs| - 1]);
      if p != Open then p
      else if f.number != |fs| + 1 then Lost
      else if f.number == f.last then Done(|fs|)
      else Open
  }

  /** The first n fragments are numbered 2 to n + 1, and the n-th is the first that says it is the last. */
  predicate Completes(fs: seq<Fragment>, n: nat) {
    && 1 <= n <= |fs| && Numbered(fs[..n]) && fs[n - 1].last == n + 1
    && forall m | 0 <= m < n - 1 :: fs[m].last != m + 2
  }

  lemma {:induction false} ProgressMeans(fs: seq<Fragment>)
    ensures ProgressOf(fs) == Open <==> Numbered(fs) && forall m | 0 <= m < |fs| :: fs[m].last != m + 2
    ensures forall n: nat :: ProgressOf(fs) == Done(n) <==> Completes(fs, n)
  {
    if fs != [] {
      var init, k := fs[..|fs| - 1], |fs| - 1;
      ProgressMeans(init);
      assert fs[..|fs|] == fs;
      forall n: nat | 1 <= n < |fs|
        ensures Completes(fs, n) <==> Completes(init, n)
      {
        assert init[..n] == fs[..n];
      }
    }
  }

  /** Arrivals only, and no further header. */
  predicate Quiet(es: seq<Event>) {
    forall k | 0 <= k < |es| :: es[k].Arrives? && !IsHeader(es[k])
  }

  function Worth(h: Header, pixels: Bytes): seq<Line> {
    if pixels != [] && SpanOf(h) > 0 then [LineOf(h, pixels)] else []
  }

  /** The state `t` reached from the header `h` by the fragments `fs`, when `before` were the lines until then. */
  predicate Reached(t: State, before: seq<Line>, h: Header, fs: seq<Fragment>) {
    match ProgressOf(fs)
    case Open =>
      && t.assembly.Some? && t.emitted == before
      && t.assembly.value.header == h && t.assembly.value.lastSeq == |fs| + 1 && t.assembly.value.pixels == Pixels(fs)
    case Done(n) => t.assembly.None? && n <= |fs| && t.emitted == before + Worth(h, Pixels(fs[..n]))
    case Lost => t.assembly.None? && t.emitted == before
  }

  lemma ProgressOn(fs: seq<Fragment>, f: Fragment)
    ensures ProgressOf(fs + [f]) == if ProgressOf(fs) != Open then ProgressOf(fs)
                                    else if f.number != |fs| + 2 then Lost
                                    else if f.number == f.last then Done(|fs| + 1) else Open
    ensures Pixels(fs + [f]) == Pixels(fs) + f.pixels
  {
    assert (fs + [f])[..|fs|] == fs;
  }

  lemma FeedOne(t: State, before: seq<Line>, h: Header, fs: seq<Fragment>, f: Fragment, now: int)
    requires Reached(t, before, h, fs)
    ensures Reached(OnFragment(t, f, now), before, h, fs + [f])
  {
    var gs := fs + [f];
    ProgressOn(fs, f);
    assert gs[..|fs|] == fs && gs[..|gs|] == gs;
    if ProgressOf(fs).Done? {
      assert gs[..ProgressOf(fs).n] == fs[..ProgressOf(fs).n];
    }
  }

  /** A header of a multi-part line starts afresh from any state, and what becomes of it depends only on
      the fragments fed after it. */
  lemma {:induction false} FeedDecides(s: State, h: Header, rest: Bytes, now: int, es: seq<Event>)
    requires h.seqMax != 1 && Quiet(es)
    ensures Reached(Run(OnHeader(s, h, rest, now), es), s.emitted, h, Fragments(es))
  {
    var start := OnHeader(s, h, rest, now);
    if es != [] {
      var init, e := es[..|es| - 1], es[|es| - 1];
      FeedDecides(s, h, rest, now, init);
      var t, fs := Run(start, init), Fragments(init);
      assert Run(start, es) == Step(t, e);
      if e.packet.Extends? {
        FeedOne(t, s.emitted, h, fs, e.packet.fragment, e.now);
        assert Fragments(es) == fs + [e.packet.fragment];
      } else {
        assert Fragments(es) == fs;
      }
    }
  }

  // ---------------------------------------------------------------- cutting a line up

  function Concat(pieces: seq<Bytes>): Bytes {
    if pieces == [] then [] else Concat(pieces[..|pieces| - 1]) + pieces[|pieces| - 1]
  }

  /** The pieces of a line's pixels as the radio numbers them. */
  function Cut(pieces: seq<Bytes>): (fs: seq<Fragment>)
    ensures |fs| == |pieces|
  {
    seq(|pieces|, i requires 0 <= i < |pieces| => Fragment(i + 2, |pieces| + 1, pieces[i]))
  }

  lemma {:induction false} CutPixels(pieces: seq<Bytes>, fs: seq<Fragment>)
    requires |fs| == |pieces| && forall i | 0 <= i < |fs| :: fs[i].pixels == pieces[i]
    ensures Pixels(fs) == Concat(pieces)
  {
    if fs != [] {
      CutPixels(pieces[..|pieces| - 1], fs[..|fs| - 1]);
    }
  }

  /** Fragments drawn from the cut in any way complete a line only by starting with the whole cut. */
  lemma CompletesIffWhole(pieces: seq<Bytes>, fs: seq<Fragment>, n: nat)
    requires pieces != [] && forall i | 0 <= i < |fs| :: fs[i] in Cut(pieces)
    ensures Completes(fs, n) <==> n == |pieces| && Cut(pieces) <= fs
  {
    var cut := Cut(pieces);
    if Completes(fs, n) {
      assert fs[n - 1].last == n + 1;
      forall i | 0 <= i < n
        ensures fs[i] == cut[i]
      {
        assert fs[..n][i] == fs[i];
      }
    }
    if n == |pieces| && cut <= fs {
      assert fs[..n] == cut;
      assert forall m | 0 <= m < n :: fs[m] == cut[m];
    }
  }

  /** A non-empty line of positive span, cut up in any way: fed any selection of its fragments with loss,
      repetition and reordering, from any state, the assembler emits that line if the fragments start with
      the whole cut, in order, and otherwise emits nothing for its header. */
  lemma OnlyTheWholeLine(s: State, h: Header, rest: Bytes, now: int, pieces: seq<Bytes>, es: seq<Event>)
    requires h.seqMax != 1 && SpanOf(h) > 0 && pieces != [] && Concat(pieces) != []
    requires Quiet(es) && forall i | 0 <= i < |Fragments(es)| :: Fragments(es)[i] in Cut(pieces)
    ensures Run(OnHeader(s, h, rest, now), es).emitted
            == s.emitted + if Cut(pieces) <= Fragments(es) then [LineOf(h, Concat(pieces))] else []
  {
    var fs := Fragments(es);
    FeedDecides(s, h, rest, now, es);
    ProgressMeans(fs);
    CompletesIffWhole(pieces, fs, |pieces|);
    if Cut(pieces) <= fs {
      assert fs[..|pieces|] == Cut(pieces);
      CutPixels(pieces, fs[..|pieces|]);
    } else if ProgressOf(fs).Done? {
      CompletesIffWhole(pieces, fs, ProgressOf(fs).n);
    }
  }

  /** Cutting a line up and feeding it back, from any state, emits that line. */
  lemma RoundTrip(s: State, h: Header, rest: Bytes, now: int, pieces: seq<Bytes>, es: seq<Event>)
    requires SpanOf(h) > 0 && pieces != [] && h.seqMax == |pieces| + 1 && Concat(pieces) != []
    requires Quiet(es) && Fragments(es) == Cut(pieces)
    ensures Run(OnHeader(s, h, rest, now), es).emitted == s.emitted + [LineOf(h, Concat(pieces))]
  {
    OnlyTheWholeLine(s, h, rest, now, pieces, es);
  }

  // ---------------------------------------------------------------- the bytes of a frame

  function EncodeBcdByte(n: int): Byte
    requires 0 <= n < 100
  {
    (n / 10 * 16 + n % 10) as Byte
  }

  function EncodeBcdFrequency(hz: int, width: nat): (buf: Bytes)
    requires hz >= 0
    ensures |buf| == width
  {
    if width == 0 then [] else [EncodeBcdByte(hz % 100)] + EncodeBcdFrequency(hz / 100, width - 1)
  }

  function Power100(width: nat): (p: int)
    ensures p > 0
  {
    if width == 0 then 1 else 100 * Power100(width - 1)
  }

  lemma BcdByteRoundTrip(n: int)
    requires 0 <= n < 100
    ensures DecodeBcdByte(EncodeBcdByte(n)) == n
  {
  }

  lemma {:induction false} BcdRoundTrip(hz: int, width: nat)
    requires 0 <= hz < Power100(width)
    ensures DecodeBcdFrequency(EncodeBcdFrequency(hz, width)) == hz
  {
    if width > 0 {
      BcdByteRoundTrip(hz % 100);
      BcdRoundTrip(hz / 100, width - 1);
      var buf := EncodeBcdFrequency(hz, width);
      assert buf[1..] == EncodeBcdFrequency(hz / 100, width - 1);
    }
  }

  /** Headers a frame can carry: one-byte mode and scope, two-digit sequence numbers, ten-digit frequencies. */
  predicate Encodable(h: Header) {
    && 0 <= h.scopeMode < 256 && 0 <= h.scopeIndex < 256 && 1 <= h.seqMax < 100
    && 0 <= h.startHz < Power100(5) && 0 <= h.endHz < Power100(5)
  }

  function WaveFrame(scope: Bytes): Frame {
    Frame(SCOPE_DATA, Some(WAVE_DATA), [WAVE_DATA as Byte] + scope)
  }

  function HeaderFrame(h: Header, outOfRange: Byte, rest: Bytes): Frame
    requires Encodable(h)
  {
    WaveFrame([h.scopeIndex as Byte, EncodeBcdByte(1), EncodeBcdByte(h.seqMax), h.scopeMode as Byte]
              + EncodeBcdFrequency(h.startHz, 5) + EncodeBcdFrequency(h.endHz, 5) + [outOfRange] + rest)
  }

  function FragmentFrame(scopeIndex: Byte, f: Fragment): Frame
    requires 1 <= f.number < 100 && 1 <= f.last < 100
  {
    WaveFrame([scopeIndex, EncodeBcdByte(f.number), EncodeBcdByte(f.last)] + f.pixels)
  }

  lemma ClassifyWave(scope: Bytes, number: int, last: int)
    requires |scope| >= 3 && 1 <= number < 100 && 1 <= last < 100
    requires scope[1] == EncodeBcdByte(number) && scope[2] == EncodeBcdByte(last)
    requires number == 1 ==> |scope| >= 15
    ensures Classify(WaveFrame(scope))
            == if number != 1 then Extends(Fragment(number, last, scope[3..]))
               else Opens(Header(scope[3] as int, scope[0] as int, DecodeBcdFrequency(scope[4..9]),
                                 DecodeBcdFrequency(scope[9..14]), last),
                          scope[15..])
  {
    BcdByteRoundTrip(number);
    BcdByteRoundTrip(last);
    assert WaveFrame(scope).data[1..] == scope;
  }

  lemma HeaderSlices(fixed: Bytes, start: Bytes, end: Bytes, outOfRange: Byte, rest: Bytes)
    requires |fixed| == 4 && |start| == 5 && |end| == 5
    ensures var scope := fixed + start + end + [outOfRange] + rest;
            && scope[..4] == fixed && scope[4..9] == start && scope[9..14] == end && scope[15..] == rest
  {
  }

  /** A header's frame is read back as that header. */
  lemma HeaderReadBack(h: Header, outOfRange: Byte, rest: Bytes)
    requires Encodable(h)
    ensures Classify(HeaderFrame(h, outOfRange, rest)) == Opens(h, rest)
  {
    var fixed := [h.scopeIndex as Byte, EncodeBcdByte(1), EncodeBcdByte(h.seqMax), h.scopeMode as Byte];
    var start, end := EncodeBcdFrequency(h.startHz, 5), EncodeBcdFrequency(h.endHz, 5);
    var scope := fixed + start + end + [outOfRange] + rest;
    ClassifyWave(scope, 1, h.seqMax);
    HeaderSlices(fixed, start, end, outOfRange, rest);
    BcdRoundTrip(h.startHz, 5);
    BcdRoundTrip(h.endHz, 5);
  }

  /** A later fragment's frame is read back as that fragment. */
  lemma FragmentReadBack(scopeIndex: Byte, f: Fragment)
    requires 1 < f.number < 100 && 1 <= f.last < 100
    ensures Classify(FragmentFrame(scopeIndex, f)) == Extends(f)
  {
    var scope := [scopeIndex, EncodeBcdByte(f.number), EncodeBcdByte(f.last)] + f.pixels;
    ClassifyWave(scope, f.number, f.last);
    assert scope[3..] == f.pixels;
  }

  // ---------------------------------------------------------------- the client itself

  function Arrivals(frames: seq<Frame>, clock: seq<int>): (es: seq<Event>)
    requires |clock| == |frames|
    ensures |es| == |frames|
  {
    seq(|frames|, i requires 0 <= i < |frames| => Arrives(Classify(frames[i]), clock[i]))
  }

  lemma RunPrefix(s: State, es: seq<Event>, k: nat)
    requires k < |es|
    ensures Run(s, es[..k + 1]) == Step(Run(s, es[..k]), es[k])
  {
    assert es[..k + 1][..k] == es[..k];
  }

  lemma {:induction false} RunJoins(s: State, a: seq<Event>, b: seq<Event>)
    ensures Run(s, a + b) == Run(Run(s, a), b)
    decreases |b|
  {
    if b == [] {
      assert a + b == a;
    } else {
      RunJoins(s, a, b[..|b| - 1]);
      assert (a + b)[..|a + b| - 1] == a + b[..|b| - 1];
    }
  }

  /** However the frames are split over chunks of data, the assembler ends up the same. */
  lemma ChunksDoNotMatter(s: State, frames: seq<Frame>, clock: seq<int>, more: seq<Frame>, later: seq<int>)
    requires |clock| == |frames| && |later| == |more|
    ensures Run(Run(s, Arrivals(frames, clock)), Arrivals(more, later))
            == Run(s, Arrivals(frames + more, clock + later))
  {
    RunJoins(s, Arrivals(frames, clock), Arrivals(more, later));
    assert Arrivals(frames + more, clock + later) == Arrivals(frames, clock) + Arrivals(more, later);
  }

  /** The frames in which a line of several parts is sent: its header, and its pixels cut into pieces. */
  function LineFrames(h: Header, outOfRange: Byte, rest: Bytes, pieces: seq<Bytes>): (frames: seq<Frame>)
    requires Encodable(h) && |pieces| < 99
    ensures |frames| == |pieces| + 1
  {
    [HeaderFrame(h, outOfRange, rest)]
    + seq(|pieces|, i requires 0 <= i < |pieces| => FragmentFrame(h.scopeIndex as Byte, Cut(pieces)[i]))
  }

  lemma {:induction false} AllFragments(es: seq<Event>, fs: seq<Fragment>)
    requires |es| == |fs| && forall i | 0 <= i < |es| :: es[i].Arrives? && es[i].packet == Extends(fs[i])
    ensures Fragments(es) == fs
  {
    if es != [] {
      AllFragments(es[..|es| - 1], fs[..|fs| - 1]);
      assert fs == fs[..|fs| - 1] + [fs[|fs| - 1]];
    }
  }

  /** A line's packets: its header and the fragments of its cut. */
  function LinePackets(h: Header, rest: Bytes, cut: seq<Fragment>): (packets: seq<Packet>)
    ensures |packets| == |cut| + 1
  {
    [Opens(h, rest)] + seq(|cut|, i requires 0 <= i < |cut| => Extends(cut[i]))
  }

  /** A line's frames are read back as its packets. */
  lemma LineReadBack(h: Header, outOfRange: Byte, rest: Bytes, pieces: seq<Bytes>, i: nat)
    requires Encodable(h) && |pieces| < 99 && i <= |pieces|
    ensures Classify(LineFrames(h, outOfRange, rest, pieces)[i]) == LinePackets(h, rest, Cut(pieces))[i]
  {
    if i == 0 {
      HeaderReadBack(h, outOfRange, rest);
    } else {
      FragmentReadBack(h.scopeIndex as Byte, Cut(pieces)[i - 1]);
    }
  }

  function ArrivalsOf(packets: seq<Packet>, clock: seq<int>): seq<Event>
    requires |clock| == |packets|
  {
    seq(|packets|, i requires 0 <= i < |packets| => Arrives(packets[i], clock[i]))
  }

  lemma LineArrives(h: Header, outOfRange: Byte, rest: Bytes, pieces: seq<Bytes>, clock: seq<int>)
    requires Encodable(h) && |pieces| < 99 && |clock| == |pieces| + 1
    ensures Arrivals(LineFrames(h, outOfRange, rest, pieces), clock)
            == ArrivalsOf(LinePackets(h, rest, Cut(pieces)), clock)
  {
    var frames, packets := LineFrames(h, outOfRange, rest, pieces), LinePackets(h, rest, Cut(pieces));
    forall i | 0 <= i < |frames|
      ensures Classify(frames[i]) == packets[i]
    {
      LineReadBack(h, outOfRange, rest, pieces, i);
    }
    SamePackets(frames, packets, clock);
  }

  lemma SamePackets(frames: seq<Frame>, packets: seq<Packet>, clock: seq<int>)
    requires |frames| == |packets| == |clock| && forall i | 0 <= i < |frames| :: Classify(frames[i]) == packets[i]
    ensures Arrivals(frames, clock) == ArrivalsOf(packets, clock)
  {
  }

  lemma LineFragments(h: Header, rest: Bytes, cut: seq<Fragment>, clock: seq<int>)
    requires |clock| == |cut| + 1
    ensures var es := ArrivalsOf(LinePackets(h, rest, cut), clock);
            && es[0] == Arrives(Opens(h, rest), clock[0]) && Quiet(es[1..]) && Fragments(es[1..]) == cut
  {
    AllFragments(ArrivalsOf(LinePackets(h, rest, cut), clock)[1..], cut);
  }

  /** From the bytes to the line: the frames that encode a non-empty line of positive span, however its pixels are
      cut and whatever state the assembler is in, make it emit exactly that line. */
  lemma LineFramesRoundTrip(s: State, h: Header, outOfRange: Byte, rest: Bytes, pieces: seq<Bytes>, clock: seq<int>)
    requires Encodable(h) && h.seqMax == |pieces| + 1 && |clock| == |pieces| + 1
    requires SpanOf(h) > 0 && pieces != [] && Concat(pieces) != []
    ensures Run(s, Arrivals(LineFrames(h, outOfRange, rest, pieces), clock)).emitted
            == s.emitted + [LineOf(h, Concat(pieces))]
  {
    var es := ArrivalsOf(LinePackets(h, rest, Cut(pieces)), clock);
    LineArrives(h, outOfRange, rest, pieces, clock);
    LineFragments(h, rest, Cut(pieces), clock);
    RoundTrip(s, h, rest, clock[0], pieces, es[1..]);
    AfterFirst(s, es);
  }

  lemma AfterFirst(s: State, es: seq<Event>)
    requires es != []
    ensures Run(s, es) == Run(Step(s, es[0]), es[1..])
  {
    RunJoins(s, [es[0]], es[1..]);
    assert [es[0]] + es[1..] == es && [es[0]][..0] == [];
    assert Run(s, [es[0]]) == Step(Run(s, []), es[0]);
  }

  /** A line in one frame comes out with the pixels its header frame carries. */
  lemma OneFrameRoundTrip(s: State, h: Header, outOfRange: Byte, rest: Bytes, now: int)
    requires Encodable(h) && h.seqMax == 1 && SpanOf(h) > 0 && rest != []
    ensures Run(s, Arrivals([HeaderFrame(h, outOfRange, rest)], [now])).emitted == s.emitted + [LineOf(h, rest)]
  {
    var es := Arrivals([HeaderFrame(h, outOfRange, rest)], [now]);
    HeaderReadBack(h, outOfRange, rest);
    AfterFirst(s, es);
    assert es[1..] == [];
  }

  class LineAssembly {
    const header: Header
    var lastSeq: int
    var pixels: Bytes
    var lastUpdateMs: int

    constructor (header: Header, now: int)
      ensures this.header == header && Value() == Assembly(header, 1, [], now)
    {
      this.header := header;
      lastSeq, pixels, lastUpdateMs := 1, [], now;
    }

    ghost function Value(): Assembly reads this { Assembly(header, lastSeq, pixels, lastUpdateMs) }

    /** Pushes the scope data from index `start` on, byte by byte. */
    method PushPixels(scope: Bytes, start: nat)
      requires start <= |scope|
      modifies this`pixels
      ensures pixels == old(pixels) + scope[start..]
    {
      var i := start;
      while i < |scope|
        invariant start <= i <= |scope|
        invariant pixels == old(pixels) + scope[start..i]
      {
        pixels := pixels + [scope[i]];
        i := i + 1;
      }
    }
  }

  class CivSpectrumClient {
    var assembly: LineAssembly?
    /** When the armed stale timer was set. */
    var assemblyTimer: Option<int>
    var linesEmitted: nat
    var framesDropped: nat
    /** What the spectrum handlers have been given. */
    var emitted: seq<Line>

    ghost predicate Valid() reads this { linesEmitted == |emitted| }

    ghost function View(): State
      reads this, assembly
    {
      State(if assembly == null then None else Some(assembly.Value()), assemblyTimer, framesDropped, emitted)
    }

    constructor ()
      ensures Valid() && View() == INITIAL
    {
      assembly, assemblyTimer, linesEmitted, framesDropped, emitted := null, None, 0, 0, [];
    }

    method ResetAssemblyTimeout(now: int)
      modifies this`assemblyTimer
      ensures View() == old(View()).(timer := Some(now))
    {
      assemblyTimer := Some(now);
    }

    method TimerFires()
      requires Valid()
      modifies this
      ensures Valid() && View() == Step(old(View()), Event.TimerFires)
    {
      if assemblyTimer.Some? {
        assemblyTimer := None;
        if assembly != null {
          framesDropped := framesDropped + 1;
          assembly := null;
        }
      }
    }

    method EmitCompleteLine()
      requires Valid()
      modifies this
      ensures Valid() && assembly == null
      ensures View() == if old(assembly) == null then old(View()).(timer := None)
                        else Complete(old(View()), old(assembly.Value()))
    {
      assemblyTimer := None;
      if assembly == null || assembly.pixels == [] {
        assembly := null;
        return;
      }
      var h := assembly.header;
      var centerHz, spanHz;
      if h.scopeMode == MODE_CENTER {
        centerHz, spanHz := h.startHz as real, h.endHz * 2;
      } else {
        centerHz, spanHz := (h.startHz + h.endHz) as real / 2.0, h.endHz - h.startHz;
      }
      if spanHz <= 0 {
        assembly := null;
        framesDropped := framesDropped + 1;
        return;
      }
      var line := Line(centerHz, spanHz, assembly.pixels, h.scopeMode, h.scopeIndex);
      assembly := null;
      linesEmitted := linesEmitted + 1;
      emitted := emitted + [line];
    }

    method HandleSequenceHeader(scope: Bytes, seqMax: int, now: int)
      requires Valid() && |scope| >= 3
      modifies this
      ensures Valid() && (assembly == null || fresh(assembly) || assembly == old(assembly))
      ensures View() == if |scope| < 15 then old(View())
                        else OnHeader(old(View()),
                                      Header(scope[3] as int, scope[0] as int, DecodeBcdFrequency(scope[4..9]),
                                             DecodeBcdFrequency(scope[9..14]), seqMax),
                                      scope[15..], now)
    {
      if |scope| < 15 { return; }
      var h := Header(scope[3] as int, scope[0] as int, DecodeBcdFrequency(scope[4..9]),
                      DecodeBcdFrequency(scope[9..14]), seqMax);
      assembly := new LineAssembly(h, now);
      if seqMax == 1 {
        assembly.PushPixels(scope, 15);
        assert assembly.Value() == Assembly(h, 1, scope[15..], now);
        EmitCompleteLine();
      } else {
        ResetAssemblyTimeout(now);
      }
    }

    method HandleSequencePixels(scope: Bytes, number: int, last: int, now: int)
      requires Valid() && |scope| >= 3
      modifies this, assembly
      ensures Valid() && (assembly == null || assembly == old(assembly))
      ensures View() == OnFragment(old(View()), Fragment(number, last, scope[3..]), now)
    {
      if assembly == null { return; }
      if number != assembly.lastSeq + 1 {
        assembly := null;
        framesDropped := framesDropped + 1;
        return;
      }
      assembly.lastSeq := number;
      assembly.lastUpdateMs := now;
      assembly.PushPixels(scope, 3);
      if number == last {
        EmitCompleteLine();
      } else {
        ResetAssemblyTimeout(now);
      }
    }

    /** One frame of the data handler's loop. */
    method HandleFrame(frame: Frame, now: int)
      requires Valid()
      modifies this, assembly
      ensures Valid() && (assembly == null || fresh(assembly) || assembly == old(assembly))
      ensures View() == OnPacket(old(View()), Classify(frame), now)
    {
      if frame.command == SCOPE_DATA && frame.subCommand == Some(WAVE_DATA) {
        var scope := if frame.data == [] then [] else frame.data[1..];
        if |scope| < 3 { return; }
        var number, last := DecodeBcdByte(scope[1]), DecodeBcdByte(scope[2]);
        if number < 1 || last < 1 { return; }
        if number == 1 {
          HandleSequenceHeader(scope, last, now);
        } else {
          HandleSequencePixels(scope, number, last, now);
        }
      }
    }

    /** Handles the frames of one chunk of data, the clock reading `clock[i]` at the i-th. */
    method HandleData(frames: seq<Frame>, clock: seq<int>)
      requires Valid() && |clock| == |frames|
      modifies this, assembly
      ensures Valid() && (assembly == null || fresh(assembly) || assembly == old(assembly))
      ensures View() == Run(old(View()), Arrivals(frames, clock))
    {
      ghost var es := Arrivals(frames, clock);
      var i := 0;
      while i < |frames|
        invariant 0 <= i <= |frames|
        invariant Valid() && (assembly == null || fresh(assembly) || assembly == old(assembly))
        invariant View() == Run(old(View()), es[..i])
      {
        HandleFrame(frames[i], clock[i]);
        RunPrefix(old(View()), es, i);
        i := i + 1;
      }
      assert es[..i] == es;
    }

    /** Opens a new connection: the assembly goes, its timer stays armed. */
    method DoConnect(intentionalDisconnect: bool)
      requires Valid()
      modifies this`assembly
      ensures Valid()
      ensures View() == if intentionalDisconnect then old(View()) else Step(old(View()), Reconnects)
    {
      if intentionalDisconnect { return; }
      assembly := null;
    }

    method Disconnect()
      requires Valid()
      modifies this`assembly, this`assemblyTimer
      ensures Valid() && View() == Step(old(View()), Disconnects)
    {
      assemblyTimer := None;
      assembly := null;
    }
  }
}
