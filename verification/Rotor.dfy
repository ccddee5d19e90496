/** The rotctld client of the radio bridge: a serialized queue of commands over one TCP socket, line
    framing, a command timer, connection attempts and shutdown. */
module Rotor {
  import opened Common
  import PromiseChain

  // A step is one uninterrupted stretch between two awaits or one event callback. The
  // environment is Node's sockets and a server that answers each command it receives with
  // exactly the number of lines the command expects, sent in pieces of any size.

  type CmdId = nat
  type SockId = nat

  datatype Command = Command(id: CmdId, expectedLines: int, interlocked: bool)

  // ---------------------------------------------------------------- text

  /** What JavaScript's trim takes off: white space and line terminators. */
  predicate IsSpace(c: char) {
    var u := c as int;
    || 0x09 <= u <= 0x0D || u == 0x20 || u == 0xA0 || u == 0x1680 || 0x2000 <= u <= 0x200A
    || u == 0x2028 || u == 0x2029 || u == 0x202F || u == 0x205F || u == 0x3000 || u == 0xFEFF
  }

  function TrimEnd(s: string): string {
    if s != "" && IsSpace(s[|s| - 1]) then TrimEnd(s[..|s| - 1]) else s
  }

  function TrimStart(s: string): string {
    if s != "" && IsSpace(s[0]) then TrimStart(s[1..]) else s
  }

  function Trim(s: string): string { TrimStart(TrimEnd(s)) }

  function TrimEnds(lines: seq<string>): (r: seq<string>)
    ensures |r| == |lines| && forall i :: 0 <= i < |lines| ==> r[i] == TrimEnd(lines[i])
  {
    seq(|lines|, i requires 0 <= i < |lines| => TrimEnd(lines[i]))
  }

  function JoinLines(lines: seq<string>): string {
    if lines == [] then "" else if |lines| == 1 then lines[0] else lines[0] + "\n" + JoinLines(lines[1..])
  }

  /** What the client makes of a reply of these lines. */
  function ResponseOf(lines: seq<string>): string { Trim(JoinLines(TrimEnds(lines))) }

  /** A reply on the wire: every line ended by a newline. */
  function Encode(lines: seq<string>): string {
    if lines == [] then "" else lines[0] + "\n" + Encode(lines[1..])
  }

  /** The index of the first newline, or the length when there is none. */
  function NewlineIn(s: string): (i: nat)
    ensures i <= |s| && '\n' !in s[..i] && (i < |s| ==> s[i] == '\n')
  {
    if s == "" || s[0] == '\n' then 0
    else
      assert s[..NewlineIn(s[1..]) + 1] == [s[0]] + s[1..][..NewlineIn(s[1..])];
      1 + NewlineIn(s[1..])
  }

  // ---------------------------------------------------------------- sockets and state

  datatype Phase = Connecting | Open | Dying | Gone

  /** A Node socket with the rotctld session behind it. A destroyed or failed socket is dying until
      its close event; `removeAllListeners` silences it. */
  datatype Sock = Sock(phase: Phase, listening: bool, asked: Option<Command>, wire: string)

  datatype Stage =
    | AwaitConnect(sock: SockId)   // suspended in `await this.connect()`
    | AwaitFinally(ok: bool)       // the attempt settled, its finally callback has not run
    | Resuming(ok: bool)           // the await is about to resume
    | AwaitReply                   // suspended in the write promise

  datatype Running = Running(cmd: Command, stage: Stage)

  datatype Outcome = Resolved(response: string) | Rejected

  /** What the client does, in order: a command's turn begins, its interlock is asked, a socket is opened, a
      command is written. */
  datatype Mark =
    Began(id: CmdId) | InterlockAsked(id: CmdId, blocked: bool) | Opened(sock: SockId) | Wrote(cmd: Command)

  /** The request in flight. */
  datatype Request = Request(id: Option<CmdId>, lines: seq<string>, expected: nat, timer: bool)

  const NOREQUEST := Request(None, [], 1, false)

  /** The connected socket and the attempt in progress. */
  datatype Conn =
    Conn(socket: Option<SockId>, connecting: bool, connectingSocket: Option<SockId>, connectingReject: bool)

  const NOCONN := Conn(None, false, None, false)

  /** The queue, the command whose turn it is, and how each settled command settled. */
  datatype Book = Book(queue: seq<Command>, running: Option<Running>, outcomes: map<CmdId, Outcome>, nextId: CmdId)

  /** Node's sockets, and what the server answered to each command. */
  datatype Net = Net(socks: seq<Sock>, answers: map<CmdId, seq<string>>)

  datatype State =
    State(conn: Conn, buffer: string, request: Request, book: Book, closed: bool, net: Net, trace: seq<Mark>)

  const INITIAL := State(NOCONN, "", NOREQUEST, Book([], None, map[], 0), false, Net([], map[]), [])

  // ---------------------------------------------------------------- the client's steps

  function Max1(n: int): nat { if n < 1 then 1 else n }

  /** The promise of command `id`, the running one if any runs, settles. */
  function Settled(b: Book, id: CmdId, o: Outcome): Book {
    b.(outcomes := b.outcomes[id := o], running := None)
  }

  /** A request in flight is rejected and reset. */
  function FailPending(s: State): State {
    s.(request := NOREQUEST,
       book := if s.request.id.Some? then Settled(s.book, s.request.id.value, Rejected) else s.book)
  }

  function SetSock(n: Net, k: SockId, x: Sock): Net
    requires k < |n.socks|
  {
    n.(socks := n.socks[k := x])
  }

  function SetPhase(n: Net, k: SockId, p: Phase): Net
    requires k < |n.socks|
  {
    SetSock(n, k, n.socks[k].(phase := p))
  }

  /** removeAllListeners and destroy. */
  function Discard(n: Net, k: Option<SockId>): Net {
    if k.Some? && k.value < |n.socks| then SetSock(n, k.value, n.socks[k.value].(phase := Gone, listening := false))
    else n
  }

  function CloseSocket(s: State): State {
    FailPending(s).(conn := NOCONN, buffer := "",
                    net := Discard(Discard(s.net, s.conn.connectingSocket), s.conn.socket))
  }

  function Runs(b: Book, cmd: Command, stage: Stage): Book {
    b.(running := Some(Running(cmd, stage)))
  }

  /** connect(): from the start of a command to its first await. */
  function Connect(s: State, cmd: Command): State {
    if s.conn.socket.Some? then s.(book := Runs(s.book, cmd, Resuming(true)))
    else if s.conn.connecting && s.conn.connectingSocket.Some? then
      s.(book := Runs(s.book, cmd, AwaitConnect(s.conn.connectingSocket.value)))
    else
      var k := |s.net.socks|;
      s.(conn := Conn(None, true, Some(k), true),
         net := s.net.(socks := s.net.socks + [Sock(Connecting, true, None, "")]),
         book := Runs(s.book, cmd, AwaitConnect(k)), trace := s.trace + [Opened(k)])
  }

  /** What a command's turn begins with: its interlock is asked unless the client is closed. */
  function Beginning(s: State, cmd: Command, blocked: bool): seq<Mark> {
    if cmd.interlocked && !s.closed then [Began(cmd.id), InterlockAsked(cmd.id, blocked)] else [Began(cmd.id)]
  }

  /** The head of the queue starts: closed check, interlock check, connect. */
  function StartRun(s: State, blocked: bool): State
    requires s.book.queue != []
  {
    var cmd := s.book.queue[0];
    var t := s.(book := s.book.(queue := s.book.queue[1..]), trace := s.trace + Beginning(s, cmd, blocked));
    if s.closed || (cmd.interlocked && blocked) then t.(book := Settled(t.book, cmd.id, Rejected)) else Connect(t, cmd)
  }

  function SetStage(b: Book, stage: Stage): Book
    requires b.running.Some?
  {
    b.(running := Some(b.running.value.(stage := stage)))
  }

  /** The settled attempt's finally callback. */
  function FinallyRuns(s: State): State
    requires s.book.running.Some? && s.book.running.value.stage.AwaitFinally?
  {
    s.(conn := Conn(s.conn.socket, false, None, false),
       book := SetStage(s.book, Resuming(s.book.running.value.stage.ok)))
  }

  /** The command resumes after its connect: it writes, or rejects. */
  function Resume(s: State): State
    requires s.book.running.Some? && s.book.running.value.stage.Resuming?
  {
    var Running(cmd, stage) := s.book.running.value;
    if !stage.ok || s.conn.socket.None? then s.(book := Settled(s.book, cmd.id, Rejected))
    else
      s.(buffer := "", request := Request(Some(cmd.id), [], Max1(cmd.expectedLines), true),
         book := SetStage(s.book, AwaitReply), trace := s.trace + [Wrote(cmd)],
         net := Ask(s.net, s.conn.socket.value, cmd))
  }

  /** Bytes written to an open socket reach the server. */
  function Ask(n: Net, k: SockId, cmd: Command): Net {
    if k < |n.socks| && n.socks[k].phase.Open? then SetSock(n, k, n.socks[k].(asked := Some(cmd))) else n
  }

  /** The attempt on socket `k` settles, if a command is suspended in it. */
  function AttemptSettles(b: Book, k: SockId, ok: bool): Book {
    if b.running.Some? && b.running.value.stage == AwaitConnect(k) then SetStage(b, AwaitFinally(ok)) else b
  }

  function OnConnect(s: State, k: SockId): State
    requires k < |s.net.socks|
  {
    s.(net := SetPhase(s.net, k, Open), conn := Conn(Some(k), s.conn.connecting, None, false),
       book := AttemptSettles(s.book, k, true))
  }

  function OnError(s: State, k: SockId): State
    requires k < |s.net.socks|
  {
    var t := FailPending(s);
    t.(net := SetPhase(s.net, k, Dying),
       book := if s.net.socks[k].phase.Connecting? then AttemptSettles(t.book, k, false) else t.book)
  }

  function OnConnectTimeout(s: State, k: SockId): State
    requires k < |s.net.socks|
  {
    s.(net := SetPhase(s.net, k, Dying), book := AttemptSettles(s.book, k, false))
  }

  function OnClose(s: State, k: SockId): State
    requires k < |s.net.socks|
  {
    FailPending(s).(
      net := SetPhase(s.net, k, Gone), buffer := "",
      conn := s.conn.(socket := if s.conn.socket == Some(k) then None else s.conn.socket,
                      connectingSocket := if s.conn.connectingSocket == Some(k) then None else s.conn.connectingSocket))
  }

  datatype Drained = Drained(buffer: string, lines: seq<string>, complete: bool)

  /** onData's loop: take whole lines off the buffer until the reply is complete. */
  function Drain(buffer: string, lines: seq<string>, expected: nat): Drained
    decreases |buffer|
  {
    var i := NewlineIn(buffer);
    if i == |buffer| then Drained(buffer, lines, false)
    else
      var more := lines + [TrimEnd(buffer[..i])];
      if |more| >= expected then Drained(buffer[i + 1..], more, true)
      else Drain(buffer[i + 1..], more, expected)
  }

  function OnData(s: State, data: string): State {
    var r := s.request;
    if r.id.None? then s.(buffer := s.buffer + data)
    else
      var d := Drain(s.buffer + data, r.lines, r.expected);
      if d.complete
      then s.(buffer := d.buffer, request := NOREQUEST,
              book := Settled(s.book, r.id.value, Resolved(Trim(JoinLines(d.lines)))))
      else s.(buffer := d.buffer, request := r.(lines := d.lines))
  }

  /** `n` bytes of what the server sent on socket `k` arrive. */
  function Deliver(s: State, k: SockId, n: nat): State
    requires k < |s.net.socks| && n <= |s.net.socks[k].wire|
  {
    var x := s.net.socks[k];
    OnData(s.(net := SetSock(s.net, k, x.(wire := x.wire[n..]))), x.wire[..n])
  }

  /** The server answers the command it was asked on socket `k`. */
  function ServerAnswers(n: Net, k: SockId, lines: seq<string>): Net
    requires k < |n.socks| && n.socks[k].asked.Some?
  {
    var x := n.socks[k];
    SetSock(n, k, x.(asked := None, wire := x.wire + Encode(lines))).(answers := n.answers[x.asked.value.id := lines])
  }

  /** shutdown(): closed for good; a command waiting for a connection is rejected through its reject
      function when that is still held. */
  function Shutdown(s: State): State {
    CloseSocket(s.(closed := true,
                   book := if s.conn.connectingReject && s.conn.connectingSocket.Some?
                           then AttemptSettles(s.book, s.conn.connectingSocket.value, false) else s.book))
  }

  /** command(): rejected at once when closed, otherwise queued. */
  function Call(s: State, expectedLines: int, interlocked: bool): State {
    var b := s.book.(nextId := s.book.nextId + 1);
    s.(book := if s.closed then b.(outcomes := b.outcomes[s.book.nextId := Rejected])
               else b.(queue := b.queue + [Command(s.book.nextId, expectedLines, interlocked)]))
  }

  datatype Event =
    | Calls(expectedLines: int, interlocked: bool)
    | Starts(blocked: bool)
    | Finally
    | Resumes
    | Connects(k: SockId)
    | Errors(k: SockId)
    | ConnectTimesOut(k: SockId)
    | Closes(k: SockId)
    | Data(k: SockId, n: nat)
    | Answers(k: SockId, lines: seq<string>)
    | CommandTimesOut
    | PollFails                    // the catch branch of poll() closes the socket
    | ShutsDown

  /** A socket whose events still reach the client. */
  predicate Live(n: Net, k: SockId) { k < |n.socks| && n.socks[k].listening && !n.socks[k].phase.Gone? }

  /** A reply of exactly the expected number of lines. */
  predicate Conforming(cmd: Command, lines: seq<string>) {
    |lines| == Max1(cmd.expectedLines) && Lines(lines)
  }

  /** Node delivers the close of a socket that died before a later socket connects. */
  predicate NoneDying(n: Net) {
    forall j | 0 <= j < |n.socks| :: Live(n, j) ==> !n.socks[j].phase.Dying?
  }

  predicate Enabled(s: State, e: Event) {
    match e
    case Starts(_) => s.book.running.None? && s.book.queue != []
    case Finally => s.book.running.Some? && s.book.running.value.stage.AwaitFinally?
    case Resumes => s.book.running.Some? && s.book.running.value.stage.Resuming?
    case Connects(k) => Live(s.net, k) && s.net.socks[k].phase.Connecting? && NoneDying(s.net)
    case Errors(k) => Live(s.net, k) && (s.net.socks[k].phase.Connecting? || s.net.socks[k].phase.Open?)
    case ConnectTimesOut(k) => Live(s.net, k) && s.net.socks[k].phase.Connecting?
    case Closes(k) => Live(s.net, k) && (s.net.socks[k].phase.Open? || s.net.socks[k].phase.Dying?)
    case Data(k, n) => Live(s.net, k) && s.net.socks[k].phase.Open? && 0 < n <= |s.net.socks[k].wire|
    case Answers(k, lines) =>
      k < |s.net.socks| && s.net.socks[k].asked.Some? && Conforming(s.net.socks[k].asked.value, lines)
    case CommandTimesOut => s.request.timer
    case _ => true
  }

  function Next(s: State, e: Event): State
    requires Enabled(s, e)
  {
    match e
    case Calls(n, interlocked) => Call(s, n, interlocked)
    case Starts(blocked) => StartRun(s, blocked)
    case Finally => FinallyRuns(s)
    case Resumes => Resume(s)
    case Connects(k) => OnConnect(s, k)
    case Errors(k) => OnError(s, k)
    case ConnectTimesOut(k) => OnConnectTimeout(s, k)
    case Closes(k) => OnClose(s, k)
    case Data(k, n) => Deliver(s, k, n)
    case Answers(k, lines) => s.(net := ServerAnswers(s.net, k, lines))
    case CommandTimesOut => CloseSocket(s.(request := s.request.(timer := false)))
    case PollFails => CloseSocket(s)
    case ShutsDown => Shutdown(s)
  }

  function Step(s: State, e: Event): State {
    if Enabled(s, e) then Next(s, e) else s
  }

  function Run(s: State, es: seq<Event>): State
    decreases es
  {
    if es == [] then s else Run(Step(s, es[0]), es[1..])
  }

  // ---------------------------------------------------------------- framing

  predicate Lines(lines: seq<string>) {
    forall i | 0 <= i < |lines| :: '\n' !in lines[i]
  }

  lemma {:induction false} FirstNewline(line: string, rest: string)
    requires '\n' !in line
    ensures NewlineIn(line + "\n" + rest) == |line|
  {
    if line != "" {
      assert (line + "\n" + rest)[1..] == line[1..] + "\n" + rest;
      FirstNewline(line[1..], rest);
    }
  }

  /** The first whole line held is the first line of the reply. */
  lemma TakeLine(held: string, i: nat, coming: string, line: string, later: string)
    requires held + coming == line + "\n" + later && '\n' !in line
    requires i < |held| && held[i] == '\n' && '\n' !in held[..i]
    ensures held[..i] == line && held[i + 1..] + coming == later
  {
    Reassemble(held, i, coming);
    SameFirstLine(held[..i], held[i + 1..] + coming, line, later);
  }

  lemma Reassemble(held: string, i: nat, coming: string)
    requires i < |held| && held[i] == '\n'
    ensures held + coming == held[..i] + "\n" + (held[i + 1..] + coming)
  {
  }

  lemma SameFirstLine(a: string, x: string, b: string, y: string)
    requires a + "\n" + x == b + "\n" + y && '\n' !in a && '\n' !in b
    ensures a == b && x == y
  {
    FirstNewline(a, x);
    FirstNewline(b, y);
    Cut(a + "\n" + x, a, x);
    Cut(b + "\n" + y, b, y);
  }

  lemma Cut(all: string, line: string, rest: string)
    requires all == line + "\n" + rest
    ensures all[..|line|] == line && all[|line| + 1..] == rest
  {
  }

  /** However a reply is cut, the loop keeps what it has taken, what it holds and what is still to come
      in step with the reply, and completes exactly with its last byte. */
  lemma {:induction false} DrainReply(held: string, coming: string, tail: seq<string>, lines: seq<string>,
                                      expected: nat)
    requires held + coming == Encode(tail) && Lines(tail)
    requires tail != [] && |lines| + |tail| == expected
    ensures var d := Drain(held, lines, expected);
            var m := |d.lines| - |lines|;
            && 0 <= m <= |tail|
            && d.lines == lines + TrimEnds(tail[..m])
            && d.buffer + coming == Encode(tail[m..])
            && (d.complete <==> m == |tail|)
            && (!d.complete ==> '\n' !in d.buffer)
    decreases |held|
  {
    var i := NewlineIn(held);
    if i == |held| {
      assert held[..i] == held;
      assert tail[0..] == tail && lines + TrimEnds(tail[..0]) == lines;
      return;
    }
    TakeLine(held, i, coming, tail[0], Encode(tail[1..]));
    var more := lines + [TrimEnd(tail[0])];
    assert TrimEnds(tail[..1]) == [TrimEnd(tail[0])];
    if |more| < expected {
      DrainReply(held[i + 1..], coming, tail[1..], more, expected);
      var m := |Drain(held, lines, expected).lines| - |lines|;
      Joined(tail, lines, m);
    }
  }

  lemma Joined(tail: seq<string>, lines: seq<string>, m: nat)
    requires 1 <= m <= |tail|
    ensures lines + [TrimEnd(tail[0])] + TrimEnds(tail[1..][..m - 1]) == lines + TrimEnds(tail[..m])
    ensures tail[1..][m - 1..] == tail[m..]
  {
  }

  // ---------------------------------------------------------------- socket invariant

  predicate Suspended(b: Book, stage: Stage) {
    b.running.Some? && b.running.value.stage == stage
  }

  /** At most one socket can still be heard from once there is a connected one; a connecting one belongs
      to the suspended command; after shutdown there is neither. */
  ghost predicate SockInv(s: State) {
    && (forall k: SockId :: Live(s.net, k) ==>
          && (s.conn.socket.Some? ==> s.conn.socket.value == k)
          && (s.net.socks[k].phase.Open? ==> s.conn.socket == Some(k))
          && (s.net.socks[k].phase.Connecting? ==>
                s.conn.connectingSocket == Some(k) && Suspended(s.book, AwaitConnect(k)))
          && (s.closed ==> s.net.socks[k].phase.Dying?))
    && (s.conn.socket.Some? ==>
          && Live(s.net, s.conn.socket.value) && !s.net.socks[s.conn.socket.value].phase.Connecting? && !s.closed
          && !(s.book.running.Some? && s.book.running.value.stage.AwaitConnect?))
    && (s.conn.connectingSocket.Some? ==> s.conn.connectingSocket.value < |s.net.socks|)
    && (s.conn.connectingReject && s.conn.connectingSocket.Some? ==> Live(s.net, s.conn.connectingSocket.value))
    && (s.conn.connecting ==>
          s.book.running.Some?
          && (s.book.running.value.stage.AwaitConnect? || s.book.running.value.stage.AwaitFinally?))
    && (s.book.running.Some? && s.book.running.value.stage.AwaitConnect? ==>
          && s.book.running.value.stage.sock < |s.net.socks|
          && (Live(s.net, s.book.running.value.stage.sock) ==>
                s.net.socks[s.book.running.value.stage.sock].phase.Connecting?))
    && (s.request.id.Some? ==> Suspended(s.book, AwaitReply))
  }

  lemma CloseSock(s: State)
    requires SockInv(s)
    ensures SockInv(CloseSocket(s))
  {
  }

  lemma CallBackSock(s: State, e: Event)
    requires SockInv(s) && Enabled(s, e) && (e.Connects? || e.Errors? || e.ConnectTimesOut? || e.Closes?)
    ensures SockInv(Next(s, e))
  {
  }

  lemma ShutdownSock(s: State)
    requires SockInv(s)
    ensures SockInv(Shutdown(s))
  {
  }

  lemma TalkSock(s: State, e: Event)
    requires SockInv(s) && Enabled(s, e) && (e.Data? || e.Answers? || e.Resumes?)
    ensures SockInv(Next(s, e))
  {
  }

  lemma NextSock(s: State, e: Event)
    requires SockInv(s) && Enabled(s, e)
    ensures SockInv(Next(s, e))
  {
    match e
    case CommandTimesOut => CloseSock(s.(request := s.request.(timer := false)));
    case PollFails => CloseSock(s);
    case ShutsDown => ShutdownSock(s);
    case Calls(_, _) =>
    case Starts(_) =>
    case Finally =>
    case Data(_, _) => TalkSock(s, e);
    case Answers(_, _) => TalkSock(s, e);
    case Resumes => TalkSock(s, e);
    case _ => CallBackSock(s, e);
  }

  // ---------------------------------------------------------------- command invariant

  /** A command is queued, running or settled, never two of these, and they run in the order called. */
  ghost predicate BookInv(b: Book) {
    && (forall i, j | 0 <= i < j < |b.queue| :: b.queue[i].id < b.queue[j].id)
    && (forall i | 0 <= i < |b.queue| ::
          && b.queue[i].id < b.nextId && b.queue[i].id !in b.outcomes
          && (b.running.Some? ==> b.running.value.cmd.id < b.queue[i].id))
    && (b.running.Some? ==> b.running.value.cmd.id < b.nextId && b.running.value.cmd.id !in b.outcomes)
    && (forall id | id in b.outcomes :: id < b.nextId)
  }

  predicate RequestInv(s: State) {
    && (s.request.id.Some? <==> Suspended(s.book, AwaitReply))
    && (s.request.id.Some? ==>
          && s.request.id.value == s.book.running.value.cmd.id
          && s.request.expected == Max1(s.book.running.value.cmd.expectedLines))
  }

  /** Settled promises stay as they settled. */
  predicate Extends(a: map<CmdId, Outcome>, b: map<CmdId, Outcome>) {
    forall id | id in a :: id in b && b[id] == a[id]
  }

  predicate Known(s: State, id: CmdId) {
    id in s.book.outcomes || s.request.id == Some(id)
  }

  ghost predicate BookStep(s: State, t: State) {
    && BookInv(t.book) && RequestInv(t)
    && Extends(s.book.outcomes, t.book.outcomes)
    && (s.request.id.Some? ==> Known(t, s.request.id.value))
  }

  lemma CloseBook(s: State)
    requires BookInv(s.book) && RequestInv(s)
    ensures BookStep(s, CloseSocket(s))
  {
  }

  lemma ShutdownBook(s: State)
    requires BookInv(s.book) && RequestInv(s)
    ensures BookStep(s, Shutdown(s))
  {
  }

  lemma CallBackBook(s: State, e: Event)
    requires BookInv(s.book) && RequestInv(s) && Enabled(s, e)
    requires e.Connects? || e.Errors? || e.ConnectTimesOut? || e.Closes?
    ensures BookStep(s, Next(s, e))
  {
  }

  lemma StartBook(s: State, blocked: bool)
    requires BookInv(s.book) && RequestInv(s) && Enabled(s, Starts(blocked))
    ensures BookStep(s, StartRun(s, blocked))
  {
  }

  lemma CallBook(s: State, e: Event)
    requires BookInv(s.book) && RequestInv(s) && Enabled(s, e) && (e.Calls? || e.Finally?)
    ensures BookStep(s, Next(s, e))
  {
  }

  lemma TalkBook(s: State, e: Event)
    requires BookInv(s.book) && RequestInv(s) && Enabled(s, e) && (e.Resumes? || e.Data?)
    ensures BookStep(s, Next(s, e))
  {
  }

  lemma NextBook(s: State, e: Event)
    requires BookInv(s.book) && RequestInv(s) && Enabled(s, e)
    ensures BookStep(s, Next(s, e))
  {
    match e
    case CommandTimesOut => CloseBook(s.(request := s.request.(timer := false)));
    case PollFails => CloseBook(s);
    case ShutsDown => ShutdownBook(s);
    case Calls(_, _) => CallBook(s, e);
    case Starts(blocked) => StartBook(s, blocked);
    case Finally => CallBook(s, e);
    case Data(_, _) => TalkBook(s, e);
    case Answers(_, _) =>
    case Resumes => TalkBook(s, e);
    case _ => CallBackBook(s, e);
  }

  // ---------------------------------------------------------------- request and response

  /** Only a written command is asked or answered, and each is asked on one socket and answered once. */
  ghost predicate AskedInv(s: State) {
    && (forall k | 0 <= k < |s.net.socks| && s.net.socks[k].asked.Some? ::
          s.net.socks[k].asked.value.id !in s.net.answers && Known(s, s.net.socks[k].asked.value.id))
    && (forall j, k | 0 <= j < k < |s.net.socks| && s.net.socks[j].asked.Some? && s.net.socks[k].asked.Some? ::
          s.net.socks[j].asked.value.id != s.net.socks[k].asked.value.id)
    && (forall id | id in s.net.answers :: Known(s, id))
    && (forall i | 0 <= i < |s.trace| && s.trace[i].Wrote? :: Known(s, s.trace[i].cmd.id))
    && (forall k | 0 <= k < |s.net.socks| && s.net.socks[k].phase.Connecting? ::
          s.net.socks[k].asked.None? && s.net.socks[k].wire == "")
  }

  /** Nothing new is asked, answered or written. */
  ghost predicate Silent(s: State, t: State) {
    && |s.net.socks| <= |t.net.socks| && t.net.answers == s.net.answers
    && s.trace <= t.trace && (forall i | |s.trace| <= i < |t.trace| :: !t.trace[i].Wrote?)
    && (forall k | 0 <= k < |s.net.socks| ::
          && t.net.socks[k].asked == s.net.socks[k].asked
          && (t.net.socks[k].phase.Connecting? ==> s.net.socks[k] == t.net.socks[k]))
    && (forall k | |s.net.socks| <= k < |t.net.socks| :: t.net.socks[k].asked.None? && t.net.socks[k].wire == "")
  }

  lemma SilentAsked(s: State, t: State)
    requires AskedInv(s) && Silent(s, t) && BookStep(s, t)
    ensures AskedInv(t)
  {
    forall id | Known(s, id) ensures Known(t, id) {}
  }

  lemma CallBackSilent(s: State, e: Event)
    requires Enabled(s, e) && (e.Connects? || e.Errors? || e.ConnectTimesOut? || e.Closes?)
    ensures Silent(s, Next(s, e))
  {
  }

  lemma CloseSilent(s: State)
    ensures Silent(s, CloseSocket(s))
  {
  }

  lemma EventSilent(s: State, e: Event)
    requires Enabled(s, e) && !e.Resumes? && !e.Answers?
    ensures Silent(s, Next(s, e))
  {
    if e.Connects? || e.Errors? || e.ConnectTimesOut? || e.Closes? { CallBackSilent(s, e); }
    else if e.PollFails? { CloseSilent(s); }
  }

  lemma ResumeAsked(s: State)
    requires AskedInv(s) && BookInv(s.book) && RequestInv(s) && Enabled(s, Resumes)
    ensures AskedInv(Resume(s))
  {
  }

  lemma AnswerAsked(s: State, e: Event)
    requires AskedInv(s) && Enabled(s, e) && e.Answers?
    ensures AskedInv(Next(s, e))
  {
  }

  /** Part of the reply is taken, part held, part still to come, and the three make up the reply. */
  predicate InStep(reply: seq<string>, r: Request, held: string, coming: string) {
    && |r.lines| < |reply| == r.expected && Lines(reply)
    && r.lines == TrimEnds(reply[..|r.lines|])
    && held + coming == Encode(reply[|r.lines|..])
  }

  /** The connected socket carries the request in flight and nothing else. */
  predicate Conversing(s: State, x: Sock) {
    match s.request.id
    case None => x.asked.None? && x.wire == ""
    case Some(id) =>
      || (x.asked.Some? && x.asked.value.id == id && s.request.expected == Max1(x.asked.value.expectedLines)
          && s.buffer == "" && s.request.lines == [] && x.wire == "")
      || (x.asked.None? && id in s.net.answers && '\n' !in s.buffer
          && InStep(s.net.answers[id], s.request, s.buffer, x.wire))
  }

  ghost predicate TalkInv(s: State) {
    s.conn.socket.Some? && Live(s.net, s.conn.socket.value) && s.net.socks[s.conn.socket.value].phase.Open? ==>
      Conversing(s, s.net.socks[s.conn.socket.value])
  }

  /** A command resolves only with what the client makes of the lines the server answered to it. */
  ghost predicate RepliesInv(s: State) {
    forall id | id in s.book.outcomes && s.book.outcomes[id].Resolved? ::
      id in s.net.answers && s.book.outcomes[id].response == ResponseOf(s.net.answers[id])
  }

  ghost predicate Inv(s: State) {
    SockInv(s) && BookInv(s.book) && RequestInv(s) && AskedInv(s) && TalkInv(s) && RepliesInv(s)
  }

  /** A piece of any size keeps the reply in step, or completes it with nothing left over. */
  lemma PieceInStep(reply: seq<string>, r: Request, held: string, coming: string)
    requires InStep(reply, r, held, coming)
    ensures var d := Drain(held, r.lines, r.expected);
            if d.complete then d.lines == TrimEnds(reply) && coming == ""
            else InStep(reply, r.(lines := d.lines), d.buffer, coming) && '\n' !in d.buffer
  {
    var tail := reply[|r.lines|..];
    DrainReply(held, coming, tail, r.lines, r.expected);
    var d := Drain(held, r.lines, r.expected);
    var m := |d.lines| - |r.lines|;
    TrimmedPrefix(reply, |r.lines|, m);
    if d.complete { assert reply[..|d.lines|] == reply; }
  }

  lemma TrimmedPrefix(reply: seq<string>, n: nat, m: nat)
    requires n + m <= |reply|
    ensures TrimEnds(reply[..n]) + TrimEnds(reply[n..][..m]) == TrimEnds(reply[..n + m])
    ensures reply[n..][m..] == reply[n + m..]
  {
  }

  lemma DataTalk(s: State, k: SockId, n: nat)
    requires Inv(s) && Enabled(s, Data(k, n))
    ensures TalkInv(Deliver(s, k, n)) && RepliesInv(Deliver(s, k, n))
  {
    var x, r := s.net.socks[k], s.request;
    assert s.conn.socket == Some(k) && Conversing(s, x);
    assert s.buffer + x.wire == s.buffer + x.wire[..n] + x.wire[n..];
    PieceInStep(s.net.answers[r.id.value], r, s.buffer + x.wire[..n], x.wire[n..]);
  }

  lemma AnswerTalk(s: State, k: SockId, lines: seq<string>)
    requires Inv(s) && Enabled(s, Answers(k, lines))
    ensures TalkInv(Next(s, Answers(k, lines))) && RepliesInv(Next(s, Answers(k, lines)))
  {
    assert lines[0..] == lines && "" + Encode(lines) == Encode(lines);
  }

  /** Closing a socket, or opening one, leaves no request in flight on it. */
  lemma CallBackTalk(s: State, e: Event)
    requires Inv(s) && Enabled(s, e) && (e.Connects? || e.Errors? || e.ConnectTimesOut? || e.Closes?)
    ensures TalkInv(Next(s, e)) && RepliesInv(Next(s, e))
  {
  }

  lemma OtherTalk(s: State, e: Event)
    requires Inv(s) && Enabled(s, e) && !e.Data? && !e.Answers?
    requires !e.Connects? && !e.Errors? && !e.ConnectTimesOut? && !e.Closes?
    ensures TalkInv(Next(s, e)) && RepliesInv(Next(s, e))
  {
  }

  lemma NextTalk(s: State, e: Event)
    requires Inv(s) && Enabled(s, e)
    ensures TalkInv(Next(s, e)) && RepliesInv(Next(s, e))
  {
    if e.Data? { DataTalk(s, e.k, e.n); }
    else if e.Answers? { AnswerTalk(s, e.k, e.lines); }
    else if e.Connects? || e.Errors? || e.ConnectTimesOut? || e.Closes? { CallBackTalk(s, e); }
    else { OtherTalk(s, e); }
  }

  lemma NextAsked(s: State, e: Event)
    requires Inv(s) && Enabled(s, e)
    ensures AskedInv(Next(s, e))
  {
    if e.Resumes? { ResumeAsked(s); }
    else if e.Answers? { AnswerAsked(s, e); }
    else { EventSilent(s, e); NextBook(s, e); SilentAsked(s, Next(s, e)); }
  }

  lemma StepInv(s: State, e: Event)
    requires Inv(s)
    ensures Inv(Step(s, e)) && Extends(s.book.outcomes, Step(s, e).book.outcomes)
  {
    if Enabled(s, e) {
      NextSock(s, e);
      NextBook(s, e);
      NextAsked(s, e);
      NextTalk(s, e);
    }
  }

  lemma {:induction false} RunInv(s: State, es: seq<Event>)
    requires Inv(s)
    ensures Inv(Run(s, es)) && Extends(s.book.outcomes, Run(s, es).book.outcomes)
    decreases es
  {
    if es != [] {
      StepInv(s, es[0]);
      RunInv(Step(s, es[0]), es[1..]);
    }
  }

  // ---------------------------------------------------------------- main results

  ghost predicate Reachable(s: State) {
    exists es :: s == Run(INITIAL, es)
  }

  lemma ReachableInv(s: State)
    requires Reachable(s)
    ensures Inv(s)
  {
    var es :| s == Run(INITIAL, es);
    RunInv(INITIAL, es);
  }

  /** Whatever the pieces, errors, timeouts and closes, a command that resolved did so with the reply the
      server gave to that command; so a late reply is never given to another command. */
  lemma ReplyBelongsToItsCommand(s: State, id: CmdId)
    requires Reachable(s) && id in s.book.outcomes && s.book.outcomes[id].Resolved?
    ensures id in s.net.answers && s.book.outcomes[id] == Resolved(ResponseOf(s.net.answers[id]))
  {
    ReachableInv(s);
  }

  /** Every written command has settled or is the one request in flight, and how a command settled never
      changes: it settles once. */
  lemma WrittenSettlesOnce(s: State, i: nat, es: seq<Event>, id: CmdId)
    requires Reachable(s) && i < |s.trace| && s.trace[i].Wrote?
    ensures s.trace[i].cmd.id in s.book.outcomes || s.request.id == Some(s.trace[i].cmd.id)
    ensures id in s.book.outcomes ==>
              id in Run(s, es).book.outcomes && Run(s, es).book.outcomes[id] == s.book.outcomes[id]
  {
    ReachableInv(s);
    assert Known(s, s.trace[i].cmd.id);
    RunInv(s, es);
  }

  // ---------------------------------------------------------------- a whole reply resolves its command

  /** Command id was written on the connected socket k and answered there; its reply is coming in. */
  predicate Awaits(s: State, k: SockId, id: CmdId) {
    && s.request.id == Some(id) && s.conn.socket == Some(k)
    && Live(s.net, k) && s.net.socks[k].phase.Open? && s.net.socks[k].asked.None?
  }

  predicate ResolvedBy(s: State, id: CmdId, lines: seq<string>) {
    id in s.book.outcomes && s.book.outcomes[id] == Resolved(ResponseOf(lines))
  }

  /** A reply that has all come in does not stay in the buffer. */
  lemma NothingHeldBack(held: string, coming: string, lines: seq<string>)
    requires '\n' !in held && lines != [] && held + coming == Encode(lines)
    ensures coming != ""
  {
    assert Encode(lines)[|lines[0]|] == '\n';
  }

  /** A piece that leaves some of the reply to come keeps the command waiting for it; the last piece resolves it. */
  lemma PieceArrives(s: State, k: SockId, id: CmdId, n: nat)
    requires Inv(s) && Awaits(s, k, id) && Enabled(s, Data(k, n))
    ensures Step(s, Data(k, n)).net.answers == s.net.answers && id in s.net.answers
    ensures n == |s.net.socks[k].wire| ==> ResolvedBy(Step(s, Data(k, n)), id, s.net.answers[id])
    ensures n < |s.net.socks[k].wire| ==>
              Awaits(Step(s, Data(k, n)), k, id) && Step(s, Data(k, n)).net.socks[k].wire == s.net.socks[k].wire[n..]
  {
    var x, r := s.net.socks[k], s.request;
    assert Conversing(s, x);
    var reply, held, coming := s.net.answers[id], s.buffer + x.wire[..n], x.wire[n..];
    assert s.buffer + x.wire == held + coming;
    PieceInStep(reply, r, held, coming);
    var d := Drain(held, r.lines, r.expected);
    if !d.complete { NothingHeldBack(d.buffer, coming, reply[|d.lines|..]); }
  }

  /** Pieces of what the server sent on socket k, and commands called meanwhile. */
  predicate Pieces(es: seq<Event>, k: SockId) {
    forall i | 0 <= i < |es| :: es[i].Calls? || (es[i].Data? && es[i].k == k && es[i].n > 0)
  }

  function Size(es: seq<Event>): nat {
    if es == [] then 0 else Size(es[1..]) + if es[0].Data? then es[0].n else 0
  }

  lemma CallsKeepAwaiting(s: State, k: SockId, id: CmdId, e: Event)
    requires Inv(s) && Awaits(s, k, id) && e.Calls?
    ensures Awaits(Step(s, e), k, id) && Step(s, e).net == s.net
  {
  }

  /** A written and answered command resolves with its reply, in whatever pieces the reply comes. */
  lemma {:induction false} AnyPiecesResolve(s: State, k: SockId, id: CmdId, es: seq<Event>)
    requires Inv(s) && Awaits(s, k, id) && Pieces(es, k) && Size(es) == |s.net.socks[k].wire|
    ensures id in s.net.answers && ResolvedBy(Run(s, es), id, s.net.answers[id])
    decreases es
  {
    if es == [] {
      assert Conversing(s, s.net.socks[k]);
      NothingHeldBack(s.buffer, s.net.socks[k].wire, s.net.answers[id][|s.request.lines|..]);
      assert false;
    } else {
      var t := Step(s, es[0]);
      StepInv(s, es[0]);
      if es[0].Calls? {
        CallsKeepAwaiting(s, k, id, es[0]);
        AnyPiecesResolve(t, k, id, es[1..]);
      } else {
        PieceArrives(s, k, id, es[0].n);
        if es[0].n < |s.net.socks[k].wire| {
          AnyPiecesResolve(t, k, id, es[1..]);
        } else {
          RunInv(t, es[1..]);
        }
      }
    }
  }

  /** A written command whose server answers with its expected lines, in pieces of any size, resolves with
      exactly that answer. */
  lemma AnsweredResolves(s: State, k: SockId, id: CmdId, lines: seq<string>, es: seq<Event>)
    requires Reachable(s) && s.request.id == Some(id) && s.conn.socket == Some(k)
    requires Live(s.net, k) && s.net.socks[k].phase.Open? && Enabled(s, Answers(k, lines))
    requires Pieces(es, k) && Size(es) == |Encode(lines)|
    ensures ResolvedBy(Run(s, [Answers(k, lines)] + es), id, lines)
  {
    ReachableInv(s);
    var t := Step(s, Answers(k, lines));
    StepInv(s, Answers(k, lines));
    assert Conversing(s, s.net.socks[k]);
    assert "" + Encode(lines) == Encode(lines);
    AnyPiecesResolve(t, k, id, es);
    assert ([Answers(k, lines)] + es)[1..] == es;
  }

  // ---------------------------------------------------------------- the interlock

  /** At m the command's turn began, it is the last to have begun, and if it is interlocked its interlock was
      asked at once, before anything was opened for it, and let it pass. */
  predicate BeganAt(trace: seq<Mark>, m: int, cmd: Command) {
    && 0 <= m < |trace| && trace[m] == Began(cmd.id)
    && (cmd.interlocked ==> m + 1 < |trace| && trace[m + 1] == InterlockAsked(cmd.id, false))
    && forall l | m < l < |trace| :: !trace[l].Began?
  }

  ghost predicate TraceInv(s: State) {
    && (s.book.running.Some? ==> exists m :: BeganAt(s.trace, m, s.book.running.value.cmd))
    && forall j | 0 <= j < |s.trace| && s.trace[j].Wrote? :: exists m :: BeganAt(s.trace[..j], m, s.trace[j].cmd)
  }

  /** Marks that begin nothing and write nothing. */
  lemma TraceGrows(trace: seq<Mark>, more: seq<Mark>, m: int, cmd: Command)
    requires BeganAt(trace, m, cmd) && forall i | 0 <= i < |more| :: !more[i].Began?
    ensures BeganAt(trace + more, m, cmd)
  {
  }

  lemma WritesStay(trace: seq<Mark>, more: seq<Mark>)
    requires forall j | 0 <= j < |trace| && trace[j].Wrote? :: exists m :: BeganAt(trace[..j], m, trace[j].cmd)
    requires forall j | 0 <= j < |more| && more[j].Wrote? :: exists m :: BeganAt(trace + more[..j], m, more[j].cmd)
    ensures var all := trace + more;
            forall j | 0 <= j < |all| && all[j].Wrote? :: exists m :: BeganAt(all[..j], m, all[j].cmd)
  {
    var all := trace + more;
    forall j | 0 <= j < |all| && all[j].Wrote?
      ensures exists m :: BeganAt(all[..j], m, all[j].cmd)
    {
      if j < |trace| {
        assert all[..j] == trace[..j];
      } else {
        assert all[..j] == trace + more[..j - |trace|];
        assert more[j - |trace|].Wrote?;
      }
    }
  }

  lemma StartTrace(s: State, blocked: bool)
    requires TraceInv(s) && Enabled(s, Starts(blocked))
    ensures TraceInv(StartRun(s, blocked))
  {
    var t, cmd := StartRun(s, blocked), s.book.queue[0];
    var more := t.trace[|s.trace|..];
    assert t.trace == s.trace + more;
    WritesStay(s.trace, more);
    if t.book.running.Some? { assert BeganAt(t.trace, |s.trace|, cmd); }
  }

  lemma ResumeTrace(s: State)
    requires TraceInv(s) && Enabled(s, Resumes)
    ensures TraceInv(Resume(s))
  {
    var cmd := s.book.running.value.cmd;
    var m :| BeganAt(s.trace, m, cmd);
    assert s.trace + [Wrote(cmd)][..0] == s.trace;
    WritesStay(s.trace, [Wrote(cmd)]);
    TraceGrows(s.trace, [Wrote(cmd)], m, cmd);
  }

  lemma SameTrace(s: State, e: Event)
    requires Enabled(s, e) && !e.Starts? && !e.Resumes?
    ensures Next(s, e).trace == s.trace
    ensures Next(s, e).book.running.Some? ==>
              s.book.running.Some? && Next(s, e).book.running.value.cmd == s.book.running.value.cmd
  {
  }

  lemma {:induction false} RunTrace(s: State, es: seq<Event>)
    requires TraceInv(s)
    ensures TraceInv(Run(s, es))
    decreases es
  {
    if es != [] {
      if Enabled(s, es[0]) {
        if es[0].Starts? { StartTrace(s, es[0].blocked); }
        else if es[0].Resumes? { ResumeTrace(s); }
        else { SameTrace(s, es[0]); }
      }
      RunTrace(Step(s, es[0]), es[1..]);
    }
  }

  /** The command's turn began at m, its interlock was asked next and let it pass, and up to j no other turn began. */
  predicate ClearedFrom(trace: seq<Mark>, m: int, j: int, id: CmdId) {
    && 0 <= m < m + 1 < j <= |trace| && trace[m] == Began(id) && trace[m + 1] == InterlockAsked(id, false)
    && forall l | m < l < j :: !trace[l].Began?
  }

  /** Every move or stop that was written had its interlock asked at the very beginning of its own turn, before
      any socket was opened for it, with no other command's turn beginning in between, and the interlock let it
      pass. */
  lemma WrittenWasCleared(s: State, j: nat)
    requires Reachable(s) && j < |s.trace| && s.trace[j].Wrote? && s.trace[j].cmd.interlocked
    ensures exists m :: ClearedFrom(s.trace, m, j, s.trace[j].cmd.id)
  {
    var es :| s == Run(INITIAL, es);
    RunTrace(INITIAL, es);
    var m :| BeganAt(s.trace[..j], m, s.trace[j].cmd);
    forall l | m < l < j
      ensures !s.trace[l].Began?
    {
      assert s.trace[..j][l] == s.trace[l];
    }
    assert ClearedFrom(s.trace, m, j, s.trace[j].cmd.id);
  }

  // ---------------------------------------------------------------- shutdown

  /** From s to t no socket was opened and nothing was written. */
  predicate Quiet(s: State, t: State) {
    && s.trace <= t.trace && |t.net.socks| == |s.net.socks|
    && forall i | |s.trace| <= i < |t.trace| :: !t.trace[i].Wrote? && !t.trace[i].Opened?
  }

  lemma ClosedStep(s: State, e: Event)
    requires Inv(s) && s.closed
    ensures Step(s, e).closed && Quiet(s, Step(s, e))
  {
  }

  /** After shutdown no socket is opened and nothing is written, wherever a command was suspended. */
  lemma {:induction false} NothingAfterShutdown(s: State, es: seq<Event>)
    requires Inv(s) && s.closed
    ensures Run(s, es).closed && Quiet(s, Run(s, es))
    decreases es
  {
    if es != [] {
      ClosedStep(s, es[0]);
      StepInv(s, es[0]);
      NothingAfterShutdown(Step(s, es[0]), es[1..]);
    }
  }

  // ---------------------------------------------------------------- the attempt that never settles

  /** The running command waits for a connection attempt whose socket was silenced. */
  predicate Stranded(s: State) {
    s.book.running.Some? && s.book.running.value.stage.AwaitConnect? && !Live(s.net, s.book.running.value.stage.sock)
  }

  /** The running command stays, what is queued stays queued, and all that settles is a later call that is rejected
      at once. */
  predicate Stuck(b: Book, c: Book) {
    && c.running == b.running && b.queue <= c.queue && b.nextId <= c.nextId && Extends(b.outcomes, c.outcomes)
    && forall id | id in c.outcomes && id !in b.outcomes :: id >= b.nextId && c.outcomes[id] == Rejected
  }

  lemma StrandedStep(s: State, e: Event)
    requires Inv(s) && Stranded(s)
    ensures Stranded(Step(s, e)) && Stuck(s.book, Step(s, e).book)
  {
  }

  lemma StuckOn(a: Book, b: Book, c: Book)
    requires Stuck(a, b) && Stuck(b, c)
    ensures Stuck(a, c)
  {
  }

  /** A stranded command never settles, and neither does any command queued behind it, whatever follows. */
  lemma {:induction false} StrandedForever(s: State, es: seq<Event>)
    requires Inv(s) && Stranded(s)
    ensures Inv(Run(s, es)) && Stranded(Run(s, es)) && Stuck(s.book, Run(s, es).book)
    ensures s.book.running.value.cmd.id !in Run(s, es).book.outcomes
    ensures forall i | 0 <= i < |s.book.queue| :: s.book.queue[i].id !in Run(s, es).book.outcomes
    decreases es
  {
    if es != [] {
      StrandedStep(s, es[0]);
      StepInv(s, es[0]);
      StrandedForever(Step(s, es[0]), es[1..]);
      StuckOn(s.book, Step(s, es[0]).book, Run(s, es).book);
    }
  }

  ghost predicate CanSettle(s: State, id: CmdId) {
    exists es :: id in Run(s, es).book.outcomes
  }

  /** A command waiting for its connection can still settle exactly while its attempt's socket is heard;
      otherwise no continuation, not even shutdown, ever settles it or starts another. */
  lemma WaitingSettlesIffHeard(s: State)
    requires Reachable(s) && s.book.running.Some? && s.book.running.value.stage.AwaitConnect?
    ensures CanSettle(s, s.book.running.value.cmd.id) <==> !Stranded(s)
  {
    ReachableInv(s);
    var r := s.book.running.value;
    if Stranded(s) {
      forall es
        ensures r.cmd.id !in Run(s, es).book.outcomes
      {
        StrandedForever(s, es);
      }
    } else {
      var k := r.stage.sock;
      var es := [ConnectTimesOut(k), Finally, Resumes];
      ThreeSteps(s, es);
      assert r.cmd.id in Run(s, es).book.outcomes;
    }
  }

  lemma ThreeSteps(s: State, es: seq<Event>)
    requires |es| == 3
    ensures Run(s, es) == Step(Step(Step(s, es[0]), es[1]), es[2])
  {
    assert es[1..][1..] == es[2..] && es[2..][1..] == [];
    var t := Step(s, es[0]);
    assert Run(Step(t, es[1]), es[2..]) == Step(Step(t, es[1]), es[2]);
  }

  lemma {:induction false} RunThenStep(s: State, es: seq<Event>, e: Event)
    ensures Run(s, es + [e]) == Step(Run(s, es), e)
    decreases es
  {
    if es == [] {
      assert [e][1..] == [];
    } else {
      assert (es + [e])[1..] == es[1..] + [e];
      RunThenStep(Step(s, es[0]), es[1..], e);
    }
  }

  lemma Performs(s: State, e: Event) returns (t: State)
    requires Reachable(s) && Enabled(s, e)
    ensures Reachable(t) && t == Next(s, e)
  {
    var es :| s == Run(INITIAL, es);
    RunThenStep(INITIAL, es, e);
    t := Next(s, e);
  }

  /** The running command waits for a connection attempt that is still heard. */
  predicate Waits(s: State) {
    s.book.running.Some? && s.book.running.value.stage.AwaitConnect? && !Stranded(s)
  }

  /** A command timer belongs to a request; a command that waits can be rejected through its attempt's reject. */
  ghost predicate WaitInv(s: State) {
    && (s.request.timer ==> s.request.id.Some?)
    && (Waits(s) ==> s.conn.connectingReject && s.conn.connectingSocket == Some(s.book.running.value.stage.sock))
  }

  lemma CallBackWait(s: State, e: Event)
    requires Inv(s) && WaitInv(s) && Enabled(s, e) && (e.Connects? || e.Errors? || e.ConnectTimesOut? || e.Closes?)
    ensures WaitInv(Next(s, e))
    ensures !Stranded(s) ==> !Stranded(Next(s, e))
  {
  }

  lemma OtherWait(s: State, e: Event)
    requires Inv(s) && WaitInv(s) && Enabled(s, e)
    requires !e.Connects? && !e.Errors? && !e.ConnectTimesOut? && !e.Closes?
    ensures WaitInv(Next(s, e))
    ensures Waits(s) ==> (Stranded(Next(s, e)) <==> e.PollFails?)
    ensures !Waits(s) && !Stranded(s) ==> !Stranded(Next(s, e))
  {
  }

  lemma WaitStep(s: State, e: Event)
    requires Inv(s) && WaitInv(s)
    ensures WaitInv(Step(s, e))
    ensures Stranded(Step(s, e)) <==> Stranded(s) || (Waits(s) && e.PollFails?)
  {
    if !Enabled(s, e) { return; }
    StepInv(s, e);
    if Stranded(s) { StrandedStep(s, e); }
    if e.Connects? || e.Errors? || e.ConnectTimesOut? || e.Closes? { CallBackWait(s, e); } else { OtherWait(s, e); }
  }

  lemma {:induction false} RunWait(s: State, es: seq<Event>)
    requires Inv(s) && WaitInv(s)
    ensures Inv(Run(s, es)) && WaitInv(Run(s, es))
    decreases es
  {
    if es != [] {
      WaitStep(s, es[0]);
      StepInv(s, es[0]);
      RunWait(Step(s, es[0]), es[1..]);
    }
  }

  lemma ReachableWait(s: State)
    requires Reachable(s)
    ensures Inv(s) && WaitInv(s)
  {
    var es :| s == Run(INITIAL, es);
    RunWait(INITIAL, es);
  }

  /** A command that waits for its connection gets stranded by exactly one kind of event: a failed poll's error
      handler closing the sockets. Its guard is a poll that fails while another command waits. */
  lemma StrandsIffPollFails(s: State, e: Event)
    requires Reachable(s) && Waits(s)
    ensures Stranded(Step(s, e)) <==> e.PollFails?
  {
    ReachableWait(s);
    WaitStep(s, e);
  }

  /** At its i-th event a poll failed while a command waited. */
  predicate PollFailedAt(es: seq<Event>, i: nat) {
    i < |es| && es[i].PollFails? && Waits(Run(INITIAL, es[..i]))
  }

  lemma PollFailedInit(es: seq<Event>, i: nat)
    requires es != []
    ensures PollFailedAt(es, i)
            <==> || PollFailedAt(es[..|es| - 1], i)
                 || (i == |es| - 1 && es[i].PollFails? && Waits(Run(INITIAL, es[..|es| - 1])))
  {
    if i < |es| - 1 { assert es[..|es| - 1][..i] == es[..i]; }
  }

  /** Over a whole run: a command is stranded at its end if and only if at some point a poll failed while a
      command waited. */
  lemma {:induction false} StrandedIffPollFailed(es: seq<Event>)
    ensures Stranded(Run(INITIAL, es)) <==> exists i: nat :: PollFailedAt(es, i)
    decreases |es|
  {
    if es != [] {
      var init, e := es[..|es| - 1], es[|es| - 1];
      StrandedIffPollFailed(init);
      RunWait(INITIAL, init);
      RunThenStep(INITIAL, init, e);
      assert init + [e] == es;
      WaitStep(Run(INITIAL, init), e);
      forall i: nat
        ensures PollFailedAt(es, i)
                <==> PollFailedAt(init, i) || (i == |init| && e.PollFails? && Waits(Run(INITIAL, init)))
      {
        PollFailedInit(es, i);
      }
      if e.PollFails? && Waits(Run(INITIAL, init)) { assert PollFailedAt(es, |init|); }
    }
  }

  /** Shutdown rejects a command that waits on an attempt still heard. */
  lemma ShutdownRejectsWaiting(s: State)
    requires Reachable(s) && Waits(s)
    ensures var t := Run(s, [ShutsDown, Finally, Resumes]);
            var id := s.book.running.value.cmd.id;
            id in t.book.outcomes && t.book.outcomes[id] == Rejected
  {
    ReachableWait(s);
    ThreeSteps(s, [ShutsDown, Finally, Resumes]);
  }

  /** It happens: a poll fails to connect, the move queued behind it starts its own attempt, and then the
      poll's error handler closes that attempt's socket. */
  lemma MoveStranded() returns (s: State)
    ensures Reachable(s) && Stranded(s) && s.book.running.value.cmd.interlocked
  {
    s := PollConnects();
    s := Performs(s, ConnectTimesOut(0));
    s := Performs(s, Finally);
    s := MoveConnects(s);
    StrandsIffPollFails(s, PollFails);
    s := Performs(s, PollFails);
  }

  /** A poll and a move are called, and the poll's command opens a socket. */
  lemma PollConnects() returns (s: State)
    ensures Reachable(s) && s.book.running == Some(Running(Command(0, 2, false), AwaitConnect(0)))
    ensures s.book.queue == [Command(1, 1, true)] && !s.closed && s.request == NOREQUEST
    ensures s.conn == Conn(None, true, Some(0), true) && s.net.socks == [Sock(Connecting, true, None, "")]
  {
    s := INITIAL;
    assert s == Run(s, []);
    s := Performs(s, Calls(2, false));
    s := Performs(s, Calls(1, true));
    s := Performs(s, Starts(false));
  }

  /** The failed poll's command is rejected, and the move behind it opens a socket of its own. */
  lemma MoveConnects(s: State) returns (t: State)
    requires Reachable(s) && s.book.running == Some(Running(Command(0, 2, false), Resuming(false)))
    requires s.book.queue == [Command(1, 1, true)] && !s.closed && s.conn == NOCONN && |s.net.socks| == 1
    ensures Reachable(t) && t.book.running == Some(Running(Command(1, 1, true), AwaitConnect(1)))
    ensures Waits(t)
  {
    t := Performs(s, Resumes);
    t := Performs(t, Starts(false));
  }

  // ---------------------------------------------------------------- the controller

  class RotorController {
    var socket: Option<SockId>
    var connecting: bool
    var connectingSocket: Option<SockId>
    var connectingReject: bool
    var responseBuffer: string
    var pendingId: Option<CmdId>         // pendingResolve and pendingReject, set and cleared together
    var pendingLines: seq<string>
    var expectedLines: nat
    var commandTimer: bool               // armed
    var closed: bool
    var queue: PromiseChain.PromiseId    // the tail of the promise chain
    var loop: PromiseChain.Loop<Command>
    var book: Book                       // what the chain's promises stand for
    var net: Net
    ghost var log: PromiseChain.Log<Command>
    ghost var trace: seq<Mark>

    ghost function Chain(): PromiseChain.Chain<Command>
      reads `loop, `queue, `log
    {
      PromiseChain.Chain(loop, queue, log)
    }

    /** The specification's queue is what hangs on the promise chain and has not begun, its running command the
        one under way there. */
    ghost predicate Linked()
      reads `loop, `queue, `log, `book, `pendingId
    {
      && PromiseChain.Inv(Chain()) && |log.began| <= |log.enqueued| && book.queue == log.enqueued[|log.began|..]
      && (if book.running.None? then loop.active == []
          else |loop.active| == 1 && loop.active[0].op == book.running.value.cmd)
      && (pendingId.Some? ==> book.running.Some?)
    }

    ghost function Now(): State
      reads this
    {
      State(Conn(socket, connecting, connectingSocket, connectingReject), responseBuffer,
            Request(pendingId, pendingLines, expectedLines, commandTimer), book, closed, net, trace)
    }

    constructor ()
      ensures Linked() && Now() == INITIAL
    {
      var initial: PromiseChain.Chain<Command> := PromiseChain.Initial();
      loop, queue, log := initial.loop, initial.tail, initial.log;
      socket, connecting, connectingSocket, connectingReject := None, false, None, false;
      responseBuffer, pendingId, pendingLines, expectedLines, commandTimer := "", None, [], 1, false;
      closed, book, net, trace := false, INITIAL.book, INITIAL.net, [];
      new;
      assert PromiseChain.Stands(Chain(), 0, PromiseChain.Idle);
    }

    method ResetPending()
      modifies `pendingId, `pendingLines, `expectedLines, `commandTimer
      ensures Now() == old(Now()).(request := NOREQUEST)
    {
      commandTimer := false;
      pendingId := None;
      pendingLines := [];
      expectedLines := 1;
    }

    /** The running command's promise settles, and the chain goes on. */
    method SettleCommand(id: CmdId, outcome: Outcome)
      requires PromiseChain.Inv(Chain()) && loop.active != []
      modifies `book, `loop, `log
      ensures PromiseChain.Inv(Chain()) && loop.active == []
      ensures log.enqueued == old(log.enqueued) && log.began == old(log.began)
      ensures book == Settled(old(book), id, outcome)
    {
      PromiseChain.SettleKeeps(Chain(), outcome.Resolved?);
      ghost var next := PromiseChain.Next(Chain(), PromiseChain.Settles(0, outcome.Resolved?));
      loop := PromiseChain.OperationSettles(loop, 0, outcome.Resolved?);
      log := next.log;
      assert Chain() == next;
      book := Settled(book, id, outcome);
    }

    method FailPendingRequest()
      requires Linked()
      modifies `pendingId, `pendingLines, `expectedLines, `commandTimer, `book, `loop, `log
      ensures Linked() && Now() == FailPending(old(Now()))
    {
      var rejector := pendingId;
      ResetPending();
      if rejector.Some? { SettleCommand(rejector.value, Rejected); }
    }

    method DiscardSockets()
      modifies `connecting, `connectingSocket, `connectingReject, `socket, `net
      ensures Now() == old(Now()).(conn := NOCONN,
                                   net := Discard(Discard(old(net), old(connectingSocket)), old(socket)))
    {
      connecting := false;
      if connectingSocket.Some? {
        net := Discard(net, connectingSocket);
        connectingSocket := None;
      }
      connectingReject := false;
      if socket.Some? {
        net := Discard(net, socket);
        socket := None;
      }
    }

    method CloseSockets()
      requires Linked()
      modifies `connecting, `connectingSocket, `connectingReject, `socket, `net, `responseBuffer,
               `pendingId, `pendingLines, `expectedLines, `commandTimer, `book, `loop, `log
      ensures Linked() && Now() == CloseSocket(old(Now()))
    {
      DiscardSockets();
      FailPendingRequest();
      responseBuffer := "";
    }

    /** command(): rejected at once when closed; otherwise the command hangs on the tail, its result follows the
        tail however that settles, and the new tail swallows the result. */
    method EnqueueCommand(expected: int, interlocked: bool)
      requires Linked()
      modifies `book, `loop, `queue, `log
      ensures Linked() && Now() == Next(old(Now()), Calls(expected, interlocked))
    {
      var id := book.nextId;
      book := book.(nextId := id + 1);
      if closed {
        book := book.(outcomes := book.outcomes[id := Rejected]);
        return;
      }
      Hang(Command(id, expected, interlocked));
    }

    /** result = queue.then(run, run), queue = result.then(noop, noop). */
    method Hang(cmd: Command)
      requires Linked()
      modifies `book, `loop, `queue, `log
      ensures Linked() && book == old(book).(queue := old(book.queue) + [cmd])
    {
      PromiseChain.EnqueueKeeps(Chain(), cmd);
      ghost var next := PromiseChain.Enqueue(Chain(), cmd);
      var run := Some(PromiseChain.Runs(cmd));
      var (hung, result) := PromiseChain.Then(loop, queue, run, run);
      var noop: Option<PromiseChain.Handler<Command>> := Some(PromiseChain.Ignores);
      var (chained, tail) := PromiseChain.Then(hung, result, noop, noop);
      loop, queue := chained, tail;
      log := log.(enqueued := log.enqueued + [cmd]);
      assert Chain() == next;
      book := book.(queue := book.queue + [cmd]);
    }

    /** A queued job runs: one that calls a command is the specification's start step, which then is enabled; any
        other changes nothing that shows. `reason` is what the interlock returns. */
    method RunJob(reason: Option<string>)
      requires Linked() && loop.jobs != []
      modifies this
      ensures Linked()
      ensures if old(PromiseChain.IsStart(loop.jobs[0]))
              then Enabled(old(Now()), Starts(reason.Some?)) && Now() == Next(old(Now()), Starts(reason.Some?))
              else Now() == old(Now())
    {
      PromiseChain.JobKeeps(Chain());
      var job := loop.jobs[0];
      ghost var next := PromiseChain.Next(Chain(), PromiseChain.JobRuns);
      loop, log := PromiseChain.RunJob(loop), next.log;
      assert Chain() == next;
      if PromiseChain.IsStart(job) { StartNextCommand(reason); }
    }

    /** Whenever the specification can start a command, a job is queued that gets to it. */
    lemma StartIsQueued()
      requires Linked() && Enabled(Now(), Starts(false))
      ensures loop.jobs != []
    {
      PromiseChain.JobQueued(Chain());
    }

    /** The queued command's turn, up to `await this.connect()`. */
    method StartNextCommand(reason: Option<string>)
      requires book.running.None? && book.queue != [] && pendingId.None?
      requires PromiseChain.Inv(Chain()) && 0 < |log.began| <= |log.enqueued|
      requires book.queue == log.enqueued[|log.began| - 1..]
      requires |loop.active| == 1 && loop.active[0].op == book.queue[0]
      modifies `connecting, `connectingSocket, `connectingReject, `net, `book, `trace, `loop, `log
      ensures Linked() && Now() == StartRun(old(Now()), reason.Some?)
    {
      var cmd := book.queue[0];
      trace := trace + Beginning(Now(), cmd, reason.Some?);
      book := book.(queue := book.queue[1..]);
      if closed {
        SettleCommand(cmd.id, Rejected);
        return;
      }
      if cmd.interlocked && reason.Some? {
        SettleCommand(cmd.id, Rejected);
        return;
      }
      ConnectFor(cmd);
    }

    /** connect(), and the command suspended in what it returns. */
    method ConnectFor(cmd: Command)
      modifies `connecting, `connectingSocket, `connectingReject, `net, `book, `trace
      ensures Now() == Connect(old(Now()), cmd) && book.running.Some? && book.running.value.cmd == cmd
    {
      if socket.Some? {
        book := Runs(book, cmd, Resuming(true));
      } else if connecting && connectingSocket.Some? {
        book := Runs(book, cmd, AwaitConnect(connectingSocket.value));
      } else {
        var sock := |net.socks|;
        net := net.(socks := net.socks + [Sock(Connecting, true, None, "")]);
        trace := trace + [Opened(sock)];
        connectingSocket, connectingReject, connecting := Some(sock), true, true;
        book := Runs(book, cmd, AwaitConnect(sock));
      }
    }

    method AttemptFinally()
      requires Linked() && Enabled(Now(), Finally)
      modifies `connecting, `connectingSocket, `connectingReject, `book
      ensures Linked() && Now() == Next(old(Now()), Finally)
    {
      connecting, connectingSocket, connectingReject := false, None, false;
      book := SetStage(book, Resuming(book.running.value.stage.ok));
    }

    /** After the await: the write, or the rejection. */
    method ResumeCommand()
      requires Linked() && Enabled(Now(), Resumes) && pendingId.None?
      modifies `pendingId, `responseBuffer, `pendingLines, `expectedLines, `commandTimer, `book, `net, `trace,
               `loop, `log
      ensures Linked() && Now() == Next(old(Now()), Resumes)
    {
      var Running(cmd, stage) := book.running.value;
      if !stage.ok || socket.None? {
        SettleCommand(cmd.id, Rejected);
        return;
      }
      WriteCommand(cmd);
      book := SetStage(book, AwaitReply);
    }

    /** write(): from a connected socket to the suspended reply promise. */
    method WriteCommand(cmd: Command)
      requires socket.Some?
      modifies `pendingId, `responseBuffer, `pendingLines, `expectedLines, `commandTimer, `net, `trace
      ensures Now() == old(Now()).(
                         buffer := "", request := Request(Some(cmd.id), [], Max1(cmd.expectedLines), true),
                         net := Ask(old(net), socket.value, cmd), trace := old(trace) + [Wrote(cmd)])
    {
      pendingId := Some(cmd.id);
      responseBuffer := "";
      pendingLines := [];
      expectedLines := Max1(cmd.expectedLines);
      commandTimer := true;
      net := Ask(net, socket.value, cmd);
      trace := trace + [Wrote(cmd)];
    }

    /** The promise of the attempt on socket k settles, if a command waits for it. */
    method SettleAttempt(k: SockId, ok: bool)
      requires Linked()
      modifies `book
      ensures Linked() && book == AttemptSettles(old(book), k, ok)
    {
      book := AttemptSettles(book, k, ok);
    }

    method OnSocketConnect(k: SockId)
      requires Linked() && k < |net.socks|
      modifies `net, `socket, `connectingSocket, `connectingReject, `book
      ensures Linked() && Now() == OnConnect(old(Now()), k)
    {
      AdoptSocket(k);
      SettleAttempt(k, true);
    }

    /** The connecting socket becomes the socket. */
    method AdoptSocket(k: SockId)
      requires k < |net.socks|
      modifies `net, `socket, `connectingSocket, `connectingReject
      ensures net == SetPhase(old(net), k, Open)
      ensures socket == Some(k) && connectingSocket == None && !connectingReject
    {
      net := SetPhase(net, k, Open);
      socket, connectingSocket, connectingReject := Some(k), None, false;
    }

    method OnSocketError(k: SockId)
      requires Linked() && Enabled(Now(), Errors(k))
      modifies `net, `pendingId, `pendingLines, `expectedLines, `commandTimer, `book, `loop, `log
      ensures Linked() && Now() == Next(old(Now()), Errors(k))
    {
      var connected := !net.socks[k].phase.Connecting?;
      net := SetPhase(net, k, Dying);
      FailPendingRequest();
      if !connected { SettleAttempt(k, false); }
    }

    method OnSocketTimeout(k: SockId)
      requires Linked() && Enabled(Now(), ConnectTimesOut(k))
      modifies `net, `book
      ensures Linked() && Now() == Next(old(Now()), ConnectTimesOut(k))
    {
      net := SetPhase(net, k, Dying);
      SettleAttempt(k, false);
    }

    method ForgetSocket(k: SockId)
      requires k < |net.socks|
      modifies `net, `socket, `connectingSocket
      ensures net == SetPhase(old(net), k, Gone)
      ensures socket == (if old(socket) == Some(k) then None else old(socket))
      ensures connectingSocket == (if old(connectingSocket) == Some(k) then None else old(connectingSocket))
    {
      net := SetPhase(net, k, Gone);
      if socket == Some(k) { socket := None; }
      if connectingSocket == Some(k) { connectingSocket := None; }
    }

    method OnSocketClose(k: SockId)
      requires Linked() && k < |net.socks|
      modifies `net, `socket, `connectingSocket, `responseBuffer,
               `pendingId, `pendingLines, `expectedLines, `commandTimer, `book, `loop, `log
      ensures Linked() && Now() == OnClose(old(Now()), k)
    {
      ForgetSocket(k);
      FailPendingRequest();
      responseBuffer := "";
    }

    method ResolvePending(response: string)
      requires Linked() && pendingId.Some?
      modifies `pendingId, `pendingLines, `expectedLines, `commandTimer, `book, `loop, `log
      ensures Linked() && Now() == old(Now()).(request := NOREQUEST,
                                               book := Settled(old(book), old(pendingId.value), Resolved(response)))
    {
      var resolver := pendingId.value;
      ResetPending();
      SettleCommand(resolver, Resolved(response));
    }

    /** Takes whole lines off the buffer until the pending reply is complete. */
    method TakeLines() returns (complete: bool)
      modifies `responseBuffer, `pendingLines
      ensures Drained(responseBuffer, pendingLines, complete)
              == Drain(old(responseBuffer), old(pendingLines), expectedLines)
    {
      var newlineIndex := NewlineIn(responseBuffer);
      while newlineIndex < |responseBuffer|
        invariant newlineIndex == NewlineIn(responseBuffer)
        invariant Drain(responseBuffer, pendingLines, expectedLines)
                  == Drain(old(responseBuffer), old(pendingLines), expectedLines)
        decreases |responseBuffer|
      {
        pendingLines := pendingLines + [TrimEnd(responseBuffer[..newlineIndex])];
        responseBuffer := responseBuffer[newlineIndex + 1..];
        if |pendingLines| >= expectedLines { return true; }
        newlineIndex := NewlineIn(responseBuffer);
      }
      return false;
    }

    /** The data handler: a complete reply resolves the pending command. */
    method ReceiveData(data: string)
      requires Linked()
      modifies `responseBuffer, `pendingId, `pendingLines, `expectedLines, `commandTimer, `book, `loop, `log
      ensures Linked() && Now() == OnData(old(Now()), data)
    {
      responseBuffer := responseBuffer + data;
      if pendingId.None? { return; }
      var complete := TakeLines();
      if complete { ResolvePending(Trim(JoinLines(pendingLines))); }
    }

    method CommandTimerFires()
      requires Linked() && commandTimer
      modifies this
      ensures Linked() && Now() == Next(old(Now()), CommandTimesOut)
    {
      commandTimer := false;
      CloseSockets();
    }

    /** The attempt's reject function is called if it is still held. */
    method RejectWaiting()
      requires Linked()
      modifies `connectingReject, `book
      ensures Linked() && !connectingReject
      ensures book == if old(connectingReject) && connectingSocket.Some?
                      then AttemptSettles(old(book), connectingSocket.value, false) else old(book)
    {
      if connectingReject {
        connectingReject := false;
        if connectingSocket.Some? { SettleAttempt(connectingSocket.value, false); }
      }
    }

    method ShutDown()
      requires Linked()
      modifies `closed, `connecting, `connectingSocket, `connectingReject, `socket, `net, `responseBuffer,
               `pendingId, `pendingLines, `expectedLines, `commandTimer, `book, `loop, `log
      ensures Linked() && Now() == Shutdown(old(Now()))
    {
      closed := true;
      RejectWaiting();
      CloseSockets();
    }
  }
}
