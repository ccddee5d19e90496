/** What the CI-V spectrum client's lines and frames mean in figures: which bytes a header and a fragment are read
    from, where on the band an emitted line lies, and which assemblies are counted as dropped. */
module SpectrumLines {
  import opened Common
  import opened SpectrumAssembly

  // ---------------------------------------------------------------- where a line lies

  /** The line lies where its header says: in centre mode, mode 0, around the first frequency and as far to each
      side as the second; in every other mode from the first frequency to the second. */
  predicate Lies(h: Header, line: Line) {
    && line.scopeMode == h.scopeMode && line.scopeIndex == h.scopeIndex
    && if h.scopeMode == 0 then
         line.centerHz == h.startHz as real && line.spanHz as real / 2.0 == h.endHz as real
       else
         && line.centerHz - line.spanHz as real / 2.0 == h.startHz as real
         && line.centerHz + line.spanHz as real / 2.0 == h.endHz as real
  }

  lemma LineLies(h: Header, pixels: Bytes)
    ensures Lies(h, LineOf(h, pixels)) && LineOf(h, pixels).pixels == pixels
  {
  }

  /** In every run, every emitted line lies where its header says, has a positive span and is not empty. */
  lemma LinesLie(es: seq<Event>, line: Line)
    requires line in Run(INITIAL, es).emitted
    ensures line.spanHz > 0 && line.pixels != []
    ensures exists i, j :: Made(es, i, j, line) && Lies(es[i].packet.header, line)
  {
    LinesAreMade(es);
    var i, j :| Made(es, i, j, line);
    var h := es[i].packet.header;
    LineLies(h, line.pixels);
    assert line == LineOf(h, line.pixels);
  }

  /** From the bytes to the line: the frames that encode a line of several parts make the assembler emit, after what
      it emitted before, one line that lies where the header says and has the pieces' pixels. */
  lemma FramesLie(s: State, h: Header, outOfRange: Byte, rest: Bytes, pieces: seq<Bytes>, clock: seq<int>)
    returns (line: Line)
    requires Encodable(h) && h.seqMax == |pieces| + 1 && |clock| == |pieces| + 1
    requires (if h.scopeMode == 0 then h.endHz > 0 else h.endHz > h.startHz) && pieces != [] && Concat(pieces) != []
    ensures Run(s, Arrivals(LineFrames(h, outOfRange, rest, pieces), clock)).emitted == s.emitted + [line]
    ensures Lies(h, line) && line.pixels == Concat(pieces)
  {
    line := LineOf(h, Concat(pieces));
    LineLies(h, Concat(pieces));
    LineFramesRoundTrip(s, h, outOfRange, rest, pieces, clock);
  }

  /** And the one frame that encodes a line of one part. */
  lemma OneFrameLies(s: State, h: Header, outOfRange: Byte, rest: Bytes, now: int) returns (line: Line)
    requires Encodable(h) && h.seqMax == 1 && rest != []
    requires if h.scopeMode == 0 then h.endHz > 0 else h.endHz > h.startHz
    ensures Run(s, Arrivals([HeaderFrame(h, outOfRange, rest)], [now])).emitted == s.emitted + [line]
    ensures Lies(h, line) && line.pixels == rest
  {
    line := LineOf(h, rest);
    LineLies(h, rest);
    OneFrameRoundTrip(s, h, outOfRange, rest, now);
  }

  /** A fixed line from 14.000 to 14.350 MHz is centred at 14.175 MHz; a centre line of 14.175 MHz with 175 kHz to
      each side is the same stretch. */
  lemma TwentyMetres(index: int, parts: int, pixels: Bytes)
    ensures LineOf(Header(1, index, 14_000_000, 14_350_000, parts), pixels)
            == Line(14_175_000.0, 350_000, pixels, 1, index)
    ensures LineOf(Header(0, index, 14_175_000, 175_000, parts), pixels)
            == Line(14_175_000.0, 350_000, pixels, 0, index)
  {
  }

  // ---------------------------------------------------------------- which bytes say what

  /** Two decimal digits in a byte, and ten in five bytes, the lowest first. */
  function TwoDigits(b: Byte): int { b as int / 16 * 10 + b as int % 16 }

  function TenDigits(b: Bytes): int
    requires |b| == 5
  {
    TwoDigits(b[0]) + 100 * TwoDigits(b[1]) + 10_000 * TwoDigits(b[2]) + 1_000_000 * TwoDigits(b[3])
    + 100_000_000 * TwoDigits(b[4])
  }

  lemma TenDigitsAre(b: Bytes)
    requires |b| == 5
    ensures DecodeBcdFrequency(b) == TenDigits(b)
  {
    assert b[1..][0] == b[1] && b[1..][1..] == b[2..] && b[2..][0] == b[2] && b[2..][1..] == b[3..];
    assert b[3..][0] == b[3] && b[3..][1..] == b[4..] && b[4..][0] == b[4] && b[4..][1..] == [];
    assert DecodeBcdFrequency(b[4..]) == TwoDigits(b[4]);
    assert DecodeBcdFrequency(b[3..]) == TwoDigits(b[3]) + 100 * TwoDigits(b[4]);
    assert DecodeBcdFrequency(b[2..]) == TwoDigits(b[2]) + 100 * (TwoDigits(b[3]) + 100 * TwoDigits(b[4]));
  }

  /** Wave data with its numbers: command 0x27, sub-command 0, and at least index, number and last number. */
  predicate IsWave(f: Frame) {
    && f.command == 0x27 && f.subCommand == Some(0) && |f.data| >= 4
    && TwoDigits(f.data[2]) >= 1 && TwoDigits(f.data[3]) >= 1
  }

  /** A frame is a header exactly if it is wave data numbered 1 with at least fifteen bytes; its bytes are the scope's
      index, the numbers, the mode, two frequencies of five bytes, one byte more, and pixels. */
  lemma HeaderBytes(f: Frame)
    ensures Classify(f).Opens? <==> IsWave(f) && TwoDigits(f.data[2]) == 1 && |f.data| >= 16
    ensures Classify(f).Opens? ==>
              var h := Classify(f).header;
              && h.scopeIndex == f.data[1] as int && h.scopeMode == f.data[4] as int
              && h.seqMax == TwoDigits(f.data[3])
              && h.startHz == TenDigits(f.data[5..10]) && h.endHz == TenDigits(f.data[10..15])
              && Classify(f).rest == f.data[16..]
  {
    if |f.data| >= 16 {
      assert f.data[1..][4..9] == f.data[5..10] && f.data[1..][9..14] == f.data[10..15];
      assert f.data[1..][15..] == f.data[16..];
      TenDigitsAre(f.data[5..10]);
      TenDigitsAre(f.data[10..15]);
    }
  }

  /** A frame is a later fragment exactly if it is wave data with another number; the rest of it is pixels. */
  lemma FragmentBytes(f: Frame)
    ensures Classify(f).Extends? <==> IsWave(f) && TwoDigits(f.data[2]) != 1
    ensures Classify(f).Extends? ==>
              Classify(f).fragment == Fragment(TwoDigits(f.data[2]), TwoDigits(f.data[3]), f.data[4..])
  {
    if |f.data| >= 4 { assert f.data[1..][3..] == f.data[4..]; }
  }

  // ---------------------------------------------------------------- what is counted as dropped

  /** A line with pixels that is complete now, and whose span is not positive. */
  predicate Spanless(h: Header, pixels: Bytes) {
    pixels != [] && if h.scopeMode == 0 then h.endHz <= 0 else h.endHz <= h.startHz
  }

  /** The event costs a line: the stale timer finds an assembly, a fragment is out of turn, or the line that it
      completes has no span. */
  predicate Costs(s: State, e: Event) {
    match e
    case TimerFires => s.timer.Some? && s.assembly.Some?
    case Arrives(Opens(h, rest), _) => h.seqMax == 1 && Spanless(h, rest)
    case Arrives(Extends(f), _) =>
      && s.assembly.Some?
      && (var a := s.assembly.value;
          if f.number != a.lastSeq + 1 then true
          else f.number == f.last && Spanless(a.header, a.pixels + f.pixels))
    case _ => false
  }

  /** Dropped lines are counted one by one, and nothing else is. */
  lemma DropsAreCounted(s: State, e: Event)
    ensures Step(s, e).framesDropped == s.framesDropped + if Costs(s, e) then 1 else 0
    ensures Costs(s, e) ==> Step(s, e).emitted == s.emitted && (Step(s, e).assembly.None? || IsHeader(e))
  {
  }

  /** The stale timer is armed by a header of several parts and by a fragment in turn that is not the last, with the
      moment of the frame; it is disarmed by a completed line, by firing and by disconnecting; and nothing else
      touches it, neither a fragment out of turn nor a reconnection. */
  lemma TimerMoves(s: State, e: Event)
    ensures Step(s, e).timer ==
            match e
            case Arrives(Opens(h, _), now) => if h.seqMax == 1 then None else Some(now)
            case Arrives(Extends(f), now) =>
              if s.assembly.None? || f.number != s.assembly.value.lastSeq + 1 then s.timer
              else if f.number == f.last then None else Some(now)
            case Arrives(Ignored, _) => s.timer
            case TimerFires => None
            case Reconnects => s.timer
            case Disconnects => None
    ensures e.Reconnects? || e.Disconnects? ==>
              Step(s, e).assembly.None? && Step(s, e).emitted == s.emitted
              && Step(s, e).framesDropped == s.framesDropped
  {
  }
}
