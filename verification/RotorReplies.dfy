/** What callers of the rotctld client get: the text of a reply read back line by line, and how each command
    settles when it is refused, when its connection fails or comes up, and when its reply does not come. */
module RotorReplies {
  import opened Common
  import opened Rotor

  // ---------------------------------------------------------------- white space

  predicate AllSpace(s: string) {
    forall i | 0 <= i < |s| :: IsSpace(s[i])
  }

  /** Blanks, tabs and line ends are white space; no visible ASCII character is. */
  lemma SpacesAre(c: char)
    ensures IsSpace(' ') && IsSpace('\t') && IsSpace('\n') && IsSpace('\r')
    ensures 0x21 <= c as int <= 0x7E ==> !IsSpace(c)
  {
  }

  /** Neither starts nor ends with white space. */
  predicate Tight(s: string) { s != "" ==> !IsSpace(s[0]) && !IsSpace(s[|s| - 1]) }

  /** Only white space at the end is lost, and none is left there. */
  lemma {:induction false} TrimEndIs(s: string) returns (lost: string)
    ensures s == TrimEnd(s) + lost && AllSpace(lost)
    ensures TrimEnd(s) != "" ==> !IsSpace(TrimEnd(s)[|TrimEnd(s)| - 1])
  {
    if s != "" && IsSpace(s[|s| - 1]) {
      var less := TrimEndIs(s[..|s| - 1]);
      lost := less + [s[|s| - 1]];
      assert s == s[..|s| - 1] + [s[|s| - 1]];
    } else {
      lost := "";
    }
  }

  lemma {:induction false} TrimStartIs(s: string) returns (lost: string)
    ensures s == lost + TrimStart(s) && AllSpace(lost)
    ensures TrimStart(s) != "" ==> !IsSpace(TrimStart(s)[0]) && TrimStart(s)[|TrimStart(s)| - 1] == s[|s| - 1]
  {
    if s != "" && IsSpace(s[0]) {
      var less := TrimStartIs(s[1..]);
      lost := [s[0]] + less;
      assert s == [s[0]] + s[1..];
    } else {
      lost := "";
    }
  }

  /** Trimming takes white space off both ends, all of it and nothing else. */
  lemma TrimIs(s: string) returns (before: string, after: string)
    ensures s == before + Trim(s) + after && AllSpace(before) && AllSpace(after) && Tight(Trim(s))
  {
    after := TrimEndIs(s);
    before := TrimStartIs(TrimEnd(s));
  }

  lemma TightStays(s: string)
    requires Tight(s)
    ensures Trim(s) == s && TrimEnd(s) == s
  {
  }

  // ---------------------------------------------------------------- lines

  /** split("\n"). */
  function SplitAtNewlines(s: string): (lines: seq<string>)
    ensures lines != []
  {
    if s == "" then [""]
    else if s[0] == '\n' then [""] + SplitAtNewlines(s[1..])
    else
      var lines := SplitAtNewlines(s[1..]);
      [[s[0]] + lines[0]] + lines[1..]
  }

  lemma {:induction false} SplitOne(line: string)
    requires '\n' !in line
    ensures SplitAtNewlines(line) == [line]
  {
    if line != "" {
      SplitOne(line[1..]);
      assert line == [line[0]] + line[1..];
    }
  }

  lemma {:induction false} SplitFirst(line: string, rest: string)
    requires '\n' !in line
    ensures SplitAtNewlines(line + "\n" + rest) == [line] + SplitAtNewlines(rest)
  {
    var s := line + "\n" + rest;
    if line == "" {
      assert s[1..] == rest;
    } else {
      assert s[1..] == line[1..] + "\n" + rest;
      SplitFirst(line[1..], rest);
      assert line == [line[0]] + line[1..];
    }
  }

  lemma LinesTail(lines: seq<string>)
    requires lines != [] && Lines(lines)
    ensures '\n' !in lines[0] && Lines(lines[1..])
  {
  }

  /** Joined lines are read back as those lines, in order. */
  lemma {:induction false} SplitJoined(lines: seq<string>)
    requires lines != [] && Lines(lines)
    ensures SplitAtNewlines(JoinLines(lines)) == lines
  {
    if |lines| == 1 {
      SplitOne(lines[0]);
    } else {
      LinesTail(lines);
      SplitJoined(lines[1..]);
      SplitFirst(lines[0], JoinLines(lines[1..]));
    }
  }

  /** Lines as rotctld writes them: no line ends and no white space around them, the first and the last not empty. */
  predicate Tidy(lines: seq<string>) {
    && lines != [] && Lines(lines) && lines[0] != "" && lines[|lines| - 1] != ""
    && forall i | 0 <= i < |lines| :: Tight(lines[i])
  }

  lemma {:induction false} JoinedEnds(lines: seq<string>)
    requires lines != [] && lines[0] != "" && lines[|lines| - 1] != ""
    ensures var t := JoinLines(lines);
            t != "" && t[0] == lines[0][0] && t[|t| - 1] == lines[|lines| - 1][|lines[|lines| - 1]| - 1]
  {
    if |lines| > 1 { JoinedLast(lines); }
  }

  lemma {:induction false} JoinedLast(lines: seq<string>)
    requires lines != [] && lines[|lines| - 1] != ""
    ensures var t := JoinLines(lines); t != "" && t[|t| - 1] == lines[|lines| - 1][|lines[|lines| - 1]| - 1]
  {
    if |lines| > 1 { JoinedLast(lines[1..]); }
  }

  /** The response to tidy lines, split at its newlines, is those lines in order. */
  lemma ResponseReads(lines: seq<string>)
    requires Tidy(lines)
    ensures SplitAtNewlines(ResponseOf(lines)) == lines
  {
    forall i | 0 <= i < |lines|
      ensures TrimEnds(lines)[i] == lines[i]
    {
      TightStays(lines[i]);
    }
    assert TrimEnds(lines) == lines;
    JoinedEnds(lines);
    TightStays(JoinLines(lines));
    SplitJoined(lines);
  }

  // ---------------------------------------------------------------- whatever the server writes

  /** The caller's reading: the lines trimmed, without those that are blank. */
  function Nonblank(lines: seq<string>): seq<string> {
    if lines == [] then []
    else (if Trim(lines[0]) == "" then [] else [Trim(lines[0])]) + Nonblank(lines[1..])
  }

  lemma {:induction false} NonblankTwo(a: seq<string>, b: seq<string>)
    ensures Nonblank(a + b) == Nonblank(a) + Nonblank(b)
  {
    if a == [] {
      assert a + b == b;
    } else {
      assert (a + b)[1..] == a[1..] + b;
      NonblankTwo(a[1..], b);
    }
  }

  lemma {:induction false} TrimEndCons(c: char, l: string)
    requires IsSpace(c)
    ensures TrimEnd([c] + l) == if TrimEnd(l) == "" then "" else [c] + TrimEnd(l)
  {
    if l == "" {
      assert ([c] + l)[..0] == "" && TrimEnd([c] + l) == TrimEnd("");
    } else if IsSpace(l[|l| - 1]) {
      assert ([c] + l)[..|l|] == [c] + l[..|l| - 1];
      TrimEndCons(c, l[..|l| - 1]);
    }
  }

  lemma TrimCons(c: char, l: string)
    requires IsSpace(c)
    ensures Trim([c] + l) == Trim(l)
  {
    TrimEndCons(c, l);
    if TrimEnd(l) != "" { assert ([c] + TrimEnd(l))[1..] == TrimEnd(l); }
  }

  lemma TrimSnoc(l: string, c: char)
    requires IsSpace(c)
    ensures Trim(l + [c]) == Trim(l)
  {
    assert (l + [c])[..|l|] == l;
  }

  /** A white space before a text changes nothing for the caller. */
  lemma LeadingSpace(c: char, s: string)
    requires IsSpace(c)
    ensures Nonblank(SplitAtNewlines([c] + s)) == Nonblank(SplitAtNewlines(s))
  {
    assert ([c] + s)[1..] == s;
    var lines := SplitAtNewlines(s);
    if c != '\n' {
      TrimCons(c, lines[0]);
      assert ([[c] + lines[0]] + lines[1..])[1..] == lines[1..];
    } else {
      assert SplitAtNewlines([c] + s) == [""] + lines;
      assert ([""] + lines)[1..] == lines && TrimEnd("") == "" && Trim("") == "";
    }
  }

  lemma {:induction false} SplitSnoc(s: string, c: char)
    ensures SplitAtNewlines(s + [c]) == Snoc(SplitAtNewlines(s), c)
  {
    if s == "" {
      assert s + [c] == [c] && [c][1..] == "";
      assert SplitAtNewlines(s) == [""];
      SnocOfNone(c);
    } else {
      assert (s + [c])[1..] == s[1..] + [c];
      SplitSnoc(s[1..], c);
      SnocFirst(s[0], SplitAtNewlines(s[1..]), c);
      SnocAfter(SplitAtNewlines(s[1..]), c);
    }
  }

  lemma SnocOfNone(c: char)
    ensures SplitAtNewlines([c]) == Snoc([""], c)
  {
    assert SplitAtNewlines("") == [""] && [c][1..] == "";
    if c == '\n' {
      assert SplitAtNewlines([c]) == ["", ""];
    } else {
      assert [c] + "" == [c] && [""][1..] == [];
      assert [""][..0] == [] && [""][0] + [c] == [c];
      assert SplitAtNewlines([c]) == [[c]] && Snoc([""], c) == [[c]];
    }
  }

  function Snoc(lines: seq<string>, c: char): seq<string>
    requires lines != []
  {
    if c == '\n' then lines + [""] else lines[..|lines| - 1] + [lines[|lines| - 1] + [c]]
  }

  lemma SnocFirst(x: char, lines: seq<string>, c: char)
    requires lines != []
    ensures var more := Snoc(lines, c);
            Snoc([[x] + lines[0]] + lines[1..], c) == [[x] + more[0]] + more[1..]
  {
    if |lines| == 1 { assert [x] + (lines[0] + [c]) == [x] + lines[0] + [c]; }
  }

  lemma SnocAfter(lines: seq<string>, c: char)
    requires lines != []
    ensures Snoc([""] + lines, c) == [""] + Snoc(lines, c)
  {
  }

  lemma TrailingSpace(s: string, c: char)
    requires IsSpace(c)
    ensures Nonblank(SplitAtNewlines(s + [c])) == Nonblank(SplitAtNewlines(s))
  {
    var lines := SplitAtNewlines(s);
    SplitSnoc(s, c);
    if c == '\n' {
      NonblankTwo(lines, [""]);
    } else {
      var init, last := lines[..|lines| - 1], lines[|lines| - 1];
      TrimSnoc(last, c);
      NonblankTwo(init, [last + [c]]);
      NonblankTwo(init, [last]);
      assert lines == init + [last];
    }
  }

  lemma {:induction false} TrimmedStart(s: string)
    ensures Nonblank(SplitAtNewlines(TrimStart(s))) == Nonblank(SplitAtNewlines(s))
  {
    if s != "" && IsSpace(s[0]) {
      TrimmedStart(s[1..]);
      LeadingSpace(s[0], s[1..]);
      assert s == [s[0]] + s[1..];
    }
  }

  lemma {:induction false} TrimmedEnd(s: string)
    ensures Nonblank(SplitAtNewlines(TrimEnd(s))) == Nonblank(SplitAtNewlines(s))
  {
    if s != "" && IsSpace(s[|s| - 1]) {
      TrimmedEnd(s[..|s| - 1]);
      TrailingSpace(s[..|s| - 1], s[|s| - 1]);
      assert s == s[..|s| - 1] + [s[|s| - 1]];
    }
  }

  lemma {:induction false} TrimmedLines(lines: seq<string>)
    ensures Nonblank(TrimEnds(lines)) == Nonblank(lines)
  {
    if lines != [] {
      TrimmedLines(lines[1..]);
      assert TrimEnds(lines)[1..] == TrimEnds(lines[1..]);
      var lost := TrimEndIs(lines[0]);
      EndOnce(lines[0]);
    }
  }

  lemma EndOnce(s: string)
    ensures Trim(TrimEnd(s)) == Trim(s)
  {
    var lost := TrimEndIs(s);
  }

  lemma {:induction false} TrimKeepsOut(s: string)
    requires '\n' !in s
    ensures '\n' !in TrimEnd(s)
  {
    if s != "" && IsSpace(s[|s| - 1]) { TrimKeepsOut(s[..|s| - 1]); }
  }

  /** For every answer whatever, also with blank lines and white space around them: what the caller reads from the
      response, trimmed, split and without blank lines, is what it would read from the answer's own lines. */
  lemma ResponseKeepsLines(lines: seq<string>)
    requires lines != [] && Lines(lines)
    ensures Nonblank(SplitAtNewlines(Trim(ResponseOf(lines)))) == Nonblank(lines) && Tight(ResponseOf(lines))
  {
    var joined := JoinLines(TrimEnds(lines));
    forall i | 0 <= i < |lines|
      ensures '\n' !in TrimEnds(lines)[i]
    {
      TrimKeepsOut(lines[i]);
    }
    SplitJoined(TrimEnds(lines));
    TrimmedLines(lines);
    TrimmedEnd(joined);
    TrimmedStart(TrimEnd(joined));
    var before, after := TrimIs(joined);
    TightStays(ResponseOf(lines));
  }

  /** In every run, a command that resolved with a tidy answer resolved with a text that reads as its lines. */
  lemma ResolvedReads(s: State, id: CmdId)
    requires Reachable(s) && id in s.book.outcomes && s.book.outcomes[id].Resolved?
    requires id in s.net.answers ==> Tidy(s.net.answers[id])
    ensures id in s.net.answers && SplitAtNewlines(s.book.outcomes[id].response) == s.net.answers[id]
  {
    ReplyBelongsToItsCommand(s, id);
    ResponseReads(s.net.answers[id]);
  }

  /** A written command that is answered with tidy lines, in pieces of any size, resolves with a text that reads as
      those lines in order. */
  lemma AnsweredReads(s: State, k: SockId, id: CmdId, lines: seq<string>, es: seq<Event>)
    requires Reachable(s) && s.request.id == Some(id) && s.conn.socket == Some(k)
    requires Live(s.net, k) && s.net.socks[k].phase.Open? && Enabled(s, Answers(k, lines))
    requires Pieces(es, k) && Size(es) == |Encode(lines)| && Tidy(lines)
    ensures var t := Run(s, [Answers(k, lines)] + es);
            && id in t.book.outcomes && t.book.outcomes[id].Resolved?
            && SplitAtNewlines(t.book.outcomes[id].response) == lines
  {
    AnsweredResolves(s, k, id, lines, es);
    ResponseReads(lines);
  }

  /** A position's two lines come out as azimuth and elevation, in that order. */
  lemma PositionReads(azimuth: string, elevation: string)
    requires Tidy([azimuth, elevation])
    ensures SplitAtNewlines(ResponseOf([azimuth, elevation])) == [azimuth, elevation]
    ensures ResponseOf([azimuth, elevation]) == azimuth + "\n" + elevation
  {
    ResponseReads([azimuth, elevation]);
    assert TrimEnds([azimuth, elevation]) == [azimuth, elevation] by {
      TightStays([azimuth, elevation][0]);
      TightStays([azimuth, elevation][1]);
    }
    JoinedEnds([azimuth, elevation]);
    TightStays(JoinLines([azimuth, elevation]));
  }

  // ---------------------------------------------------------------- how commands settle

  predicate RejectedIn(s: State, id: CmdId) { id in s.book.outcomes && s.book.outcomes[id] == Rejected }

  /** A request in flight is rejected by its timer, by a failed poll, by shutdown, and by an error or the close of a
      socket that is heard. */
  lemma InFlightFails(s: State, e: Event)
    requires Reachable(s) && s.request.id.Some? && Enabled(s, e)
    requires e.CommandTimesOut? || e.PollFails? || e.ShutsDown? || e.Errors? || e.Closes?
    ensures RejectedIn(Step(s, e), s.request.id.value) && Step(s, e).request.id.None? && !Step(s, e).request.timer
  {
    ReachableInv(s);
  }

  /** After a timeout, a failed poll or shutdown, no socket is connected or connecting, and those that were are heard
      no more; shutdown also closes for good. */
  lemma ClosingSilences(s: State, e: Event)
    requires Reachable(s) && Enabled(s, e) && (e.CommandTimesOut? || e.PollFails? || e.ShutsDown?)
    ensures var t := Step(s, e);
            && t.conn.socket.None? && !t.conn.connecting && t.conn.connectingSocket.None? && t.buffer == ""
            && (s.conn.socket.Some? ==> !Live(t.net, s.conn.socket.value))
            && (s.conn.connectingSocket.Some? ==> !Live(t.net, s.conn.connectingSocket.value))
            && t.closed == (s.closed || e.ShutsDown?)
  {
    ReachableInv(s);
  }

  /** A call is rejected at once after shutdown, and otherwise goes to the end of the queue. */
  lemma CallGoes(s: State, n: int, interlocked: bool)
    ensures var t := Step(s, Calls(n, interlocked));
            if s.closed then RejectedIn(t, s.book.nextId) && t.book.queue == s.book.queue
            else t.book.queue == s.book.queue + [Command(s.book.nextId, n, interlocked)]
                 && t.book.outcomes == s.book.outcomes
  {
  }

  /** A command whose turn comes after shutdown, or whose interlock blocks it, is rejected without a socket. */
  lemma RefusedAtItsTurn(s: State, blocked: bool)
    requires Reachable(s) && Enabled(s, Starts(blocked))
    ensures var t, cmd := Step(s, Starts(blocked)), s.book.queue[0];
            && t.book.queue == s.book.queue[1..]
            && if s.closed || (cmd.interlocked && blocked)
               then RejectedIn(t, cmd.id) && t.book.running.None? && t.net == s.net && t.conn == s.conn
               else t.book.running.Some? && t.book.running.value.cmd == cmd
  {
    ReachableInv(s);
  }

  /** The command is on the wire of socket k, and the client waits for its reply, timed. */
  predicate Asked(s: State, k: SockId, cmd: Command) {
    && k < |s.net.socks| && s.net.socks[k].asked == Some(cmd) && s.buffer == ""
    && s.request == Request(Some(cmd.id), [], if cmd.expectedLines < 1 then 1 else cmd.expectedLines, true)
    && s.book.running.Some? && s.book.running.value == Running(cmd, AwaitReply)
  }

  /** A command that waits for its connection is written as soon as it is up. */
  lemma ConnectWrites(s: State, k: SockId)
    requires Reachable(s) && s.book.running.Some? && s.book.running.value.stage == AwaitConnect(k)
    requires Enabled(s, Connects(k))
    ensures var t, cmd := Run(s, [Connects(k), Finally, Resumes]), s.book.running.value.cmd;
            Asked(t, k, cmd) && t.trace == s.trace + [Wrote(cmd)]
  {
    ReachableInv(s);
    ThreeSteps(s, [Connects(k), Finally, Resumes]);
  }

  /** A command whose turn comes while a socket is connected is written on it. */
  lemma ReuseWrites(s: State, k: SockId)
    requires Reachable(s) && !s.closed && Enabled(s, Starts(false)) && s.conn.socket == Some(k)
    requires k < |s.net.socks| && s.net.socks[k].phase.Open?
    ensures var cmd := s.book.queue[0];
            Asked(Step(Step(s, Starts(false)), Resumes), k, cmd)
  {
  }

  /** A command whose attempt fails or times out is rejected. */
  lemma FailedAttemptRejects(s: State, k: SockId, e: Event)
    requires Reachable(s) && s.book.running.Some? && s.book.running.value.stage == AwaitConnect(k)
    requires Enabled(s, e) && k < |s.net.socks| && s.net.socks[k].phase.Connecting?
    requires e == Errors(k) || e == ConnectTimesOut(k)
    ensures RejectedIn(Run(s, [e, Finally, Resumes]), s.book.running.value.cmd.id)
  {
    ReachableInv(s);
    ThreeSteps(s, [e, Finally, Resumes]);
  }
}
