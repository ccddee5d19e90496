/**
 The text layer of the iCalendar generator: escaping of text values and folding of content
 lines, with the reader's inverses as sections 3.1 and 3.3.11 of RFC 5545 define them.
 Strings are sequences of UTF-16 code units, and a line's length is the number of them, as
 JavaScript counts it.
 */
module IcsText {

  newtype Unit = u: int | 0 <= u < 0x1_0000

  type Text = seq<Unit>

  const BACKSLASH: Unit := 0x5C
  const SEMICOLON: Unit := 0x3B
  const COMMA: Unit := 0x2C
  const CR: Unit := 0x0D
  const LF: Unit := 0x0A
  const SPACE: Unit := 0x20
  const TAB: Unit := 0x09
  const LOWER_N: Unit := 0x6E
  const UPPER_N: Unit := 0x4E
  const COLON: Unit := 0x3A
  const CRLF: Text := [CR, LF]
  const MAX_LINE_OCTETS: nat := 70

  // ---------------------------------------------------------------- escaping

  /** A global replacement of one character. */
  function ReplaceAll(t: Text, c: Unit, with: Text): Text {
    if t == [] then [] else (if t[0] == c then with else [t[0]]) + ReplaceAll(t[1..], c, with)
  }

  predicate StartsCrlf(t: Text) { |t| >= 2 && t[0] == CR && t[1] == LF }

  /** The global replacement of a line feed with an optional carriage return before it. */
  function ReplaceNewlines(t: Text, with: Text): Text {
    if t == [] then []
    else if StartsCrlf(t) then with + ReplaceNewlines(t[2..], with)
    else (if t[0] == LF then with else [t[0]]) + ReplaceNewlines(t[1..], with)
  }

  /** The four passes of escapeIcsText. */
  function EscapeIcsText(t: Text): Text {
    var a := ReplaceAll(t, BACKSLASH, [BACKSLASH, BACKSLASH]);
    var b := ReplaceAll(a, SEMICOLON, [BACKSLASH, SEMICOLON]);
    var c := ReplaceAll(b, COMMA, [BACKSLASH, COMMA]);
    ReplaceNewlines(c, [BACKSLASH, LOWER_N])
  }

  /** One character's escape; an LF ends a line, with or without a CR before it. */
  function Escaped(c: Unit): Text {
    if c == BACKSLASH || c == SEMICOLON || c == COMMA then [BACKSLASH, c]
    else if c == LF then [BACKSLASH, LOWER_N]
    else [c]
  }

  /** One left-to-right pass that escapes each character by itself. */
  function Escape(t: Text): Text {
    if t == [] then []
    else if StartsCrlf(t) then [BACKSLASH, LOWER_N] + Escape(t[2..])
    else Escaped(t[0]) + Escape(t[1..])
  }

  /** The reader's inverse, section 3.3.11. */
  function Unescape(t: Text): Text {
    if t == [] then []
    else if t[0] == BACKSLASH && |t| >= 2 then
      [if t[1] == LOWER_N || t[1] == UPPER_N then LF else t[1]] + Unescape(t[2..])
    else [t[0]] + Unescape(t[1..])
  }

  /** The text with CRLF read as LF. */
  function UnixLines(t: Text): Text {
    if t == [] then []
    else if StartsCrlf(t) then [LF] + UnixLines(t[2..])
    else [t[0]] + UnixLines(t[1..])
  }

  lemma ReplaceCons(x: Unit, t: Text, c: Unit, with: Text)
    ensures ReplaceAll([x] + t, c, with) == (if x == c then with else [x]) + ReplaceAll(t, c, with)
  {
    assert ([x] + t)[1..] == t;
  }

  /** A replaced text starts as the text does, as far as line feeds go. */
  lemma ReplaceHead(t: Text, c: Unit, with: Text)
    requires c != LF && with != [] && with[0] != LF
    ensures var r := ReplaceAll(t, c, with);
            (r != [] && r[0] == LF) <==> (t != [] && t[0] == LF)
  {
  }

  /** The first three passes as one. */
  function Specials(t: Text): Text {
    ReplaceAll(ReplaceAll(ReplaceAll(t, BACKSLASH, [BACKSLASH, BACKSLASH]), SEMICOLON, [BACKSLASH, SEMICOLON]),
               COMMA, [BACKSLASH, COMMA])
  }

  function Special(c: Unit): Text {
    if c == BACKSLASH || c == SEMICOLON || c == COMMA then [BACKSLASH, c] else [c]
  }

  lemma SpecialsCons(x: Unit, t: Text)
    ensures Specials([x] + t) == Special(x) + Specials(t)
  {
    var a := ReplaceAll(t, BACKSLASH, [BACKSLASH, BACKSLASH]);
    var b := ReplaceAll(a, SEMICOLON, [BACKSLASH, SEMICOLON]);
    ReplaceCons(x, t, BACKSLASH, [BACKSLASH, BACKSLASH]);
    if x == BACKSLASH {
      assert [BACKSLASH, BACKSLASH] + a == [BACKSLASH] + ([BACKSLASH] + a);
      ReplaceCons(BACKSLASH, [BACKSLASH] + a, SEMICOLON, [BACKSLASH, SEMICOLON]);
      ReplaceCons(BACKSLASH, a, SEMICOLON, [BACKSLASH, SEMICOLON]);
      ReplaceCons(BACKSLASH, [BACKSLASH] + b, COMMA, [BACKSLASH, COMMA]);
      ReplaceCons(BACKSLASH, b, COMMA, [BACKSLASH, COMMA]);
    } else {
      ReplaceCons(x, a, SEMICOLON, [BACKSLASH, SEMICOLON]);
      if x == SEMICOLON {
        assert [BACKSLASH, SEMICOLON] + b == [BACKSLASH] + ([SEMICOLON] + b);
        ReplaceCons(BACKSLASH, [SEMICOLON] + b, COMMA, [BACKSLASH, COMMA]);
        ReplaceCons(SEMICOLON, b, COMMA, [BACKSLASH, COMMA]);
      } else {
        ReplaceCons(x, b, COMMA, [BACKSLASH, COMMA]);
      }
    }
  }

  lemma NewlinesPlain(x: Unit, t: Text, with: Text)
    requires x != LF && !(x == CR && t != [] && t[0] == LF)
    ensures ReplaceNewlines([x] + t, with) == [x] + ReplaceNewlines(t, with)
  {
    assert ([x] + t)[1..] == t;
  }

  lemma SpecialsHead(t: Text)
    ensures (Specials(t) != [] && Specials(t)[0] == LF) <==> (t != [] && t[0] == LF)
  {
    var a := ReplaceAll(t, BACKSLASH, [BACKSLASH, BACKSLASH]);
    ReplaceHead(t, BACKSLASH, [BACKSLASH, BACKSLASH]);
    ReplaceHead(a, SEMICOLON, [BACKSLASH, SEMICOLON]);
    ReplaceHead(ReplaceAll(a, SEMICOLON, [BACKSLASH, SEMICOLON]), COMMA, [BACKSLASH, COMMA]);
  }

  /** The four passes are one escape of each character. */
  lemma {:induction false} PassesAreOneEscape(t: Text)
    ensures EscapeIcsText(t) == Escape(t)
  {
    var newline := [BACKSLASH, LOWER_N];
    if t != [] {
      var x, rest := t[0], t[1..];
      assert t == [x] + rest;
      SpecialsCons(x, rest);
      if StartsCrlf(t) {
        var after := rest[1..];
        assert rest == [LF] + after;
        SpecialsCons(LF, after);
        assert Specials(t) == [CR, LF] + Specials(after);
        assert Specials(t)[2..] == Specials(after);
        PassesAreOneEscape(after);
      } else {
        PassesAreOneEscape(rest);
        SpecialsHead(rest);
        if Special(x) != [x] {
          assert Specials(t) == [BACKSLASH] + ([x] + Specials(rest));
          NewlinesPlain(BACKSLASH, [x] + Specials(rest), newline);
          NewlinesPlain(x, Specials(rest), newline);
        } else if x == LF {
          assert Specials(t)[1..] == Specials(rest);
        } else {
          NewlinesPlain(x, Specials(rest), newline);
        }
      }
    }
  }

  /** Unescaping an escaped text gives it back with CRLF read as LF. */
  lemma {:induction false} EscapeRoundTrip(t: Text)
    ensures Unescape(Escape(t)) == UnixLines(t)
  {
    if t != [] {
      var n := if StartsCrlf(t) then 2 else 1;
      EscapeRoundTrip(t[n..]);
      var e := Escape(t[n..]);
      if Escape(t) == [t[0]] + e {
        assert ([t[0]] + e)[1..] == e;
      } else {
        assert Escape(t)[2..] == e;
      }
    }
  }

  /** An escaped text has no line break in it. */
  lemma {:induction false} EscapedHasNoLf(t: Text)
    ensures LF !in Escape(t)
  {
    if t != [] { EscapedHasNoLf(t[if StartsCrlf(t) then 2 else 1..]); }
  }

  // ---------------------------------------------------------------- folding

  /** The physical lines of a content line: 70 characters, then a space and 69 each. */
  function Folded(line: Text): (parts: seq<Text>)
    ensures parts != []
  {
    if |line| <= MAX_LINE_OCTETS then [line]
    else [line[..MAX_LINE_OCTETS]] + Continued(line[MAX_LINE_OCTETS..])
  }

  function Continued(rest: Text): seq<Text> {
    if rest == [] then []
    else if |rest| <= MAX_LINE_OCTETS - 1 then [[SPACE] + rest]
    else [[SPACE] + rest[..MAX_LINE_OCTETS - 1]] + Continued(rest[MAX_LINE_OCTETS - 1..])
  }

  function Joined(parts: seq<Text>, separator: Text): Text {
    if parts == [] then []
    else if |parts| == 1 then parts[0]
    else parts[0] + separator + Joined(parts[1..], separator)
  }

  /** The lines, each ended by CRLF. */
  function Ended(lines: seq<Text>): Text {
    if lines == [] then [] else lines[0] + CRLF + Ended(lines[1..])
  }

  /** The physical lines of a text. */
  function SplitAtCrlf(t: Text): (lines: seq<Text>)
    ensures lines != []
  {
    if t == [] then [[]]
    else if StartsCrlf(t) then [[]] + SplitAtCrlf(t[2..])
    else
      var lines := SplitAtCrlf(t[1..]);
      [[t[0]] + lines[0]] + lines[1..]
  }

  /** The reader's unfolding, section 3.1: a CRLF with a space or tab after it is removed with it. */
  function Unfold(t: Text): Text {
    if t == [] then []
    else if StartsCrlf(t) && |t| >= 3 && (t[2] == SPACE || t[2] == TAB) then Unfold(t[3..])
    else [t[0]] + Unfold(t[1..])
  }

  /** A slice of a string as JavaScript cuts it. */
  function Cut(t: Text, n: nat): (r: (Text, Text))
    ensures t == r.0 + r.1 && |r.0| == if |t| < n then |t| else n
  {
    if |t| <= n then (t, []) else (t[..n], t[n..])
  }

  lemma {:induction false} JoinedAppend(parts: seq<Text>, part: Text, separator: Text)
    requires parts != []
    ensures Joined(parts + [part], separator) == Joined(parts, separator) + separator + part
  {
    if |parts| > 1 {
      assert (parts + [part])[1..] == parts[1..] + [part];
      JoinedAppend(parts[1..], part, separator);
    } else {
      assert (parts + [part])[1..] == [part];
    }
  }

  /** Folds a line: its physical lines, joined by CRLF. */
  method FoldLine(line: Text) returns (folded: Text)
    ensures folded == Joined(Folded(line), CRLF)
  {
    if |line| <= MAX_LINE_OCTETS { return line; }
    var parts := [line[..MAX_LINE_OCTETS]];
    var remaining := line[MAX_LINE_OCTETS..];
    ghost var lines := parts;
    while |remaining| > 0
      invariant parts != [] && lines != []
      invariant Joined(parts, CRLF + [SPACE]) == Joined(lines, CRLF)
      invariant Folded(line) == lines + Continued(remaining)
      decreases |remaining|
    {
      var cut := Cut(remaining, MAX_LINE_OCTETS - 1);
      JoinedAppend(parts, cut.0, CRLF + [SPACE]);
      JoinedAppend(lines, [SPACE] + cut.0, CRLF);
      Indent(Joined(parts, CRLF + [SPACE]), cut.0);
      parts := parts + [cut.0];
      lines := lines + [[SPACE] + cut.0];
      remaining := cut.1;
    }
    assert lines + Continued([]) == lines;
    return Joined(parts, CRLF + [SPACE]);
  }

  lemma Indent(a: Text, b: Text)
    ensures a + (CRLF + [SPACE]) + b == a + CRLF + ([SPACE] + b)
  {
  }

  /** Folded lines are at most 70 characters long, all but the last exactly so, and all but the first start with a
      space. */
  lemma {:induction false} PartsAreShort(line: Text)
    ensures forall p | p in Folded(line) :: |p| <= 70
    ensures forall i | 0 <= i < |Folded(line)| - 1 :: |Folded(line)[i]| == 70
    ensures forall i | 1 <= i < |Folded(line)| :: Folded(line)[i] != [] && Folded(line)[i][0] == 0x20
  {
    if |line| > MAX_LINE_OCTETS { ContinuedAreShort(line[MAX_LINE_OCTETS..]); }
  }

  lemma {:induction false} ContinuedAreShort(rest: Text)
    ensures forall i | 0 <= i < |Continued(rest)| ::
              var p := Continued(rest)[i];
              0 < |p| <= 70 && p[0] == 0x20 && (i < |Continued(rest)| - 1 ==> |p| == 70)
  {
    if |rest| > MAX_LINE_OCTETS - 1 { ContinuedAreShort(rest[MAX_LINE_OCTETS - 1..]); }
  }

  // ---------------------------------------------------------------- reading it back

  /** Lines, each after a CRLF. */
  function Led(parts: seq<Text>): Text {
    if parts == [] then [] else CRLF + parts[0] + Led(parts[1..])
  }

  lemma {:induction false} JoinedLed(parts: seq<Text>)
    requires parts != []
    ensures Joined(parts, CRLF) == parts[0] + Led(parts[1..])
  {
    if |parts| > 1 { JoinedLed(parts[1..]); }
  }

  /** No CRLF in it. */
  predicate NoCrlf(t: Text) {
    t != [] ==> !StartsCrlf(t) && NoCrlf(t[1..])
  }

  /** A CRLF lies across the two. */
  predicate Across(a: Text, b: Text) { a != [] && b != [] && a[|a| - 1] == CR && b[0] == LF }

  lemma {:induction false} NoCrlfParts(a: Text, b: Text)
    requires NoCrlf(a + b)
    ensures NoCrlf(a) && NoCrlf(b) && !Across(a, b)
  {
    if a == [] {
      assert a + b == b;
    } else {
      assert (a + b)[1..] == a[1..] + b;
      NoCrlfParts(a[1..], b);
      if |a| >= 2 { assert (a + b)[1] == a[1]; }
    }
  }

  lemma {:induction false} NoCrlfWhole(a: Text, b: Text)
    requires NoCrlf(a) && NoCrlf(b) && !Across(a, b)
    ensures NoCrlf(a + b)
  {
    if a == [] {
      assert a + b == b;
    } else {
      assert (a + b)[1..] == a[1..] + b;
      NoCrlfWhole(a[1..], b);
      if |a| >= 2 { assert (a + b)[1] == a[1]; }
    }
  }

  lemma {:induction false} NoLfNoCrlf(t: Text)
    requires LF !in t
    ensures NoCrlf(t)
  {
    if t != [] { NoLfNoCrlf(t[1..]); }
  }

  lemma UnfoldChar(c: Unit, y: Text)
    requires c == CR && y != [] ==> y[0] != LF
    ensures Unfold([c] + y) == [c] + Unfold(y)
  {
    assert ([c] + y)[1..] == y;
  }

  lemma {:induction false} UnfoldText(x: Text, y: Text)
    requires NoCrlf(x) && !Across(x, y)
    ensures Unfold(x + y) == x + Unfold(y)
  {
    if x == [] {
      assert x + y == y;
    } else {
      var c, rest := x[0], x[1..];
      UnfoldText(rest, y);
      Associates([c], rest, y);
      UnfoldChar(c, rest + y);
      Associates([c], rest, Unfold(y));
      assert x == [c] + rest;
    }
  }

  lemma UnfoldBlank(y: Text)
    ensures Unfold(CRLF + [SPACE] + y) == Unfold(y)
  {
    assert (CRLF + [SPACE] + y)[3..] == y;
  }

  lemma UnfoldBreak(x: Text, y: Text)
    requires NoCrlf(x) && (y != [] ==> y[0] != LF)
    ensures Unfold(CRLF + [SPACE] + x + y) == x + Unfold(y)
  {
    Associates(CRLF + [SPACE], x, y);
    UnfoldBlank(x + y);
    UnfoldText(x, y);
  }

  lemma LedCons(part: Text, parts: seq<Text>, y: Text)
    ensures Led([part] + parts) + y == CRLF + part + (Led(parts) + y)
  {
  }

  lemma LedHead(parts: seq<Text>, y: Text)
    requires y != [] ==> y[0] != LF
    ensures var t := Led(parts) + y; t != [] ==> t[0] != LF
  {
  }

  lemma {:induction false} UnfoldContinued(rest: Text, y: Text)
    requires NoCrlf(rest) && (y != [] ==> y[0] != LF)
    ensures Unfold(Led(Continued(rest)) + y) == rest + Unfold(y)
    decreases |rest|
  {
    if rest == [] {
      assert [] + y == y;
    } else {
      var cut := Cut(rest, MAX_LINE_OCTETS - 1);
      var parts := Continued(cut.1);
      NoCrlfParts(cut.0, cut.1);
      assert Continued(rest) == [[SPACE] + cut.0] + parts;
      LedCons([SPACE] + cut.0, parts, y);
      LedHead(parts, y);
      Associates(CRLF, [SPACE], cut.0);
      Associates(cut.0, cut.1, Unfold(y));
      UnfoldBreak(cut.0, Led(parts) + y);
      UnfoldContinued(cut.1, y);
    }
  }

  /** Unfolding takes a folded line, whatever follows it, back to the line. */
  lemma UnfoldFolded(line: Text, y: Text)
    requires NoCrlf(line) && (y != [] ==> y[0] != LF)
    ensures Unfold(Joined(Folded(line), CRLF) + y) == line + Unfold(y)
  {
    JoinedLed(Folded(line));
    var cut := Cut(line, MAX_LINE_OCTETS);
    var parts := Continued(cut.1);
    NoCrlfParts(cut.0, cut.1);
    assert Folded(line) == [cut.0] + parts;
    assert Folded(line)[1..] == parts;
    Associates(cut.0, Led(parts), y);
    LedHead(parts, y);
    UnfoldText(cut.0, Led(parts) + y);
    UnfoldContinued(cut.1, y);
    Associates(cut.0, cut.1, Unfold(y));
  }

  lemma Associates(a: Text, b: Text, c: Text)
    ensures a + b + c == a + (b + c)
  {
  }

  function FoldedLines(lines: seq<Text>): (r: seq<Text>)
    ensures |r| == |lines|
  {
    seq(|lines|, i requires 0 <= i < |lines| => Joined(Folded(lines[i]), CRLF))
  }

  /** The calendar: its content lines folded, joined by CRLF, and a last CRLF. */
  function Document(lines: seq<Text>): Text { Joined(FoldedLines(lines), CRLF) + CRLF }

  /** A line that a reader does not take for a continuation. */
  predicate IsContentLine(line: Text) {
    line != [] ==> line[0] != SPACE && line[0] != TAB
  }

  lemma {:induction false} JoinedEnded(parts: seq<Text>)
    requires parts != []
    ensures Joined(parts, CRLF) + CRLF == Ended(parts)
  {
    if |parts| > 1 {
      JoinedEnded(parts[1..]);
      assert Joined(parts, CRLF) + CRLF == parts[0] + CRLF + (Joined(parts[1..], CRLF) + CRLF);
    }
  }

  lemma FoldedHead(line: Text, y: Text)
    requires IsContentLine(line)
    ensures var t := Joined(Folded(line), CRLF) + CRLF + y;
            t != [] && t[0] != SPACE && t[0] != TAB
  {
    JoinedLed(Folded(line));
    if line != [] { assert Folded(line)[0][0] == line[0]; }
  }

  lemma UnfoldCrlf(y: Text)
    requires y != [] ==> y[0] != SPACE && y[0] != TAB
    ensures Unfold(CRLF + y) == CRLF + Unfold(y)
  {
    assert (CRLF + y)[1..] == [LF] + y;
    assert ([LF] + y)[1..] == y;
  }

  lemma {:induction false} UnfoldEnded(lines: seq<Text>)
    requires forall i | 0 <= i < |lines| :: IsContentLine(lines[i]) && NoCrlf(lines[i])
    ensures Unfold(Ended(FoldedLines(lines))) == Ended(lines)
  {
    if lines != [] {
      UnfoldEnded(lines[1..]);
      var rest := Ended(FoldedLines(lines[1..]));
      assert FoldedLines(lines)[1..] == FoldedLines(lines[1..]);
      assert Ended(FoldedLines(lines)) == Joined(Folded(lines[0]), CRLF) + (CRLF + rest);
      UnfoldFolded(lines[0], CRLF + rest);
      if |lines| > 1 { FoldedHead(lines[1], Ended(FoldedLines(lines[1..])[1..])); }
      UnfoldCrlf(rest);
    }
  }

  lemma {:induction false} SplitText(x: Text, y: Text)
    requires NoCrlf(x)
    ensures SplitAtCrlf(x + CRLF + y) == [x] + SplitAtCrlf(y)
  {
    if x == [] {
      assert (x + CRLF + y)[2..] == y;
    } else {
      assert (x + CRLF + y)[1..] == x[1..] + CRLF + y;
      SplitText(x[1..], y);
      assert x == [x[0]] + x[1..];
    }
  }

  lemma {:induction false} SplitEnded(lines: seq<Text>)
    requires forall i | 0 <= i < |lines| :: NoCrlf(lines[i])
    ensures SplitAtCrlf(Ended(lines)) == lines + [[]]
  {
    if lines != [] {
      SplitEnded(lines[1..]);
      SplitText(lines[0], Ended(lines[1..]));
    }
  }

  lemma {:induction false} SplitHasNoCrlf(t: Text)
    ensures forall i | 0 <= i < |SplitAtCrlf(t)| :: NoCrlf(SplitAtCrlf(t)[i])
    ensures SplitAtCrlf(t)[0] <= t
  {
    if StartsCrlf(t) {
      SplitHasNoCrlf(t[2..]);
    } else if t != [] {
      SplitHasNoCrlf(t[1..]);
      var first := SplitAtCrlf(t[1..])[0];
      assert ([t[0]] + first)[1..] == first;
      if first != [] { assert first[0] == t[1..][0]; }
    }
  }

  /** A calendar read back: unfolded and split at its line ends, it is the content lines that went in, if and
      only if none of them holds a CRLF; lone line feeds, as DESCRIPTION may have, do no harm. */
  lemma DocumentRoundTrip(lines: seq<Text>)
    requires lines != [] && forall i | 0 <= i < |lines| :: IsContentLine(lines[i])
    ensures SplitAtCrlf(Unfold(Document(lines))) == lines + [[]] <==> forall i | 0 <= i < |lines| :: NoCrlf(lines[i])
  {
    if forall i | 0 <= i < |lines| :: NoCrlf(lines[i]) {
      JoinedEnded(FoldedLines(lines));
      UnfoldEnded(lines);
      SplitEnded(lines);
    } else {
      var i :| 0 <= i < |lines| && !NoCrlf(lines[i]);
      SplitHasNoCrlf(Unfold(Document(lines)));
      assert (lines + [[]])[i] == lines[i];
    }
  }

  function AllParts(lines: seq<Text>): seq<Text> {
    if lines == [] then [] else Folded(lines[0]) + AllParts(lines[1..])
  }

  lemma {:induction false} EndedAppend(a: seq<Text>, b: seq<Text>)
    ensures Ended(a + b) == Ended(a) + Ended(b)
  {
    if a == [] {
      assert a + b == b;
    } else {
      assert (a + b)[1..] == a[1..] + b;
      EndedAppend(a[1..], b);
    }
  }

  lemma {:induction false} EndedParts(lines: seq<Text>)
    ensures Ended(FoldedLines(lines)) == Ended(AllParts(lines))
  {
    if lines != [] {
      EndedParts(lines[1..]);
      assert FoldedLines(lines)[1..] == FoldedLines(lines[1..]);
      JoinedEnded(Folded(lines[0]));
      EndedAppend(Folded(lines[0]), AllParts(lines[1..]));
    }
  }

  lemma {:induction false} AllPartsAreShort(lines: seq<Text>)
    ensures forall i | 0 <= i < |AllParts(lines)| :: |AllParts(lines)[i]| <= 70
  {
    if lines != [] {
      PartsAreShort(lines[0]);
      AllPartsAreShort(lines[1..]);
    }
  }

  predicate NoneLonger(lines: seq<Text>, n: nat) {
    forall i | 0 <= i < |lines| :: |lines[i]| <= n
  }

  /** What precedes a CRLF is split into lines no longer than itself, whatever it holds. */
  lemma {:induction false} SplitShort(x: Text, y: Text, n: nat)
    requires |x| <= n && NoneLonger(SplitAtCrlf(y), n)
    ensures NoneLonger(SplitAtCrlf(x + CRLF + y), n) && |SplitAtCrlf(x + CRLF + y)[0]| <= |x|
  {
    var t := x + CRLF + y;
    if x == [] {
      assert t[2..] == y;
    } else if StartsCrlf(t) {
      assert t[1] == x[1];
      assert t[2..] == x[2..] + CRLF + y;
      SplitShort(x[2..], y, n);
    } else {
      assert t[1..] == x[1..] + CRLF + y;
      SplitShort(x[1..], y, n);
    }
  }

  lemma {:induction false} EndedShort(parts: seq<Text>, n: nat)
    requires NoneLonger(parts, n)
    ensures NoneLonger(SplitAtCrlf(Ended(parts)), n)
  {
    if parts != [] {
      EndedShort(parts[1..], n);
      SplitShort(parts[0], Ended(parts[1..]), n);
    }
  }

  /** Every physical line of a calendar has at most 70 characters, whatever its content lines hold. */
  lemma PhysicalLinesAreShort(lines: seq<Text>)
    requires lines != []
    ensures NoneLonger(SplitAtCrlf(Document(lines)), 70)
  {
    JoinedEnded(FoldedLines(lines));
    EndedParts(lines);
    AllPartsAreShort(lines);
    EndedShort(AllParts(lines), 70);
  }

  // ---------------------------------------------------------------- text properties

  /** icsLine's content line, before folding. */
  function ContentLine(property: Text, value: Text): Text { property + [COLON] + value }

  /** The reader's value: what follows the first colon. */
  function ValueOf(line: Text): Text {
    if line == [] then [] else if line[0] == COLON then line[1..] else ValueOf(line[1..])
  }

  lemma {:induction false} ValueOfContentLine(property: Text, value: Text)
    requires COLON !in property
    ensures ValueOf(ContentLine(property, value)) == value
  {
    if property != [] {
      assert ContentLine(property, value)[1..] == ContentLine(property[1..], value);
      ValueOfContentLine(property[1..], value);
    }
  }

  /** A text property escaped, folded, unfolded, and unescaped is the text with CRLF read as LF. */
  lemma TextPropertyRoundTrip(property: Text, t: Text)
    requires LF !in property && COLON !in property
    ensures var folded := Joined(Folded(ContentLine(property, EscapeIcsText(t))), CRLF);
            Unescape(ValueOf(Unfold(folded))) == UnixLines(t)
  {
    PassesAreOneEscape(t);
    EscapedHasNoLf(t);
    var line := ContentLine(property, EscapeIcsText(t));
    NoLfNoCrlf(line);
    UnfoldFolded(line, []);
    assert Joined(Folded(line), CRLF) + [] == Joined(Folded(line), CRLF);
    assert Unfold([]) == [] && line + [] == line;
    ValueOfContentLine(property, EscapeIcsText(t));
    EscapeRoundTrip(t);
  }
}
