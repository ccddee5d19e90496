/** The manual-PTT safety controller of the radio bridge: queued operations over a fallible hardware driver,
    a maximum key-down timer, a release retry timer, a lockout flag and a client owner. */
module PttSafety {
  import opened Common
  import PromiseChain

  // `State` and the step functions are the specification; `PttSafetyController` is the
  // class that updates its fields in place and is proved to take exactly those steps.
  // A step is one uninterrupted stretch of the controller's code: a call that queues an operation,
  // the start of the next queued operation up to its driver call, the return of the driver
  // call up to the end of the operation, or a timer callback. That operations start one by one
  // and in order is what the class's promise chain is proved to do.

  type ClientId = string

  datatype Operation =
    | SetManualPtt(client: ClientId, enabled: bool)
    | Release
    | ReleaseIfOwnedBy(client: ClientId)
    | Configure(lockout: bool)

  /** The driver command the running operation is waiting for. */
  datatype Drive = KeyDown(client: ClientId) | KeyUp | ReleaseOff {
    predicate IsOff() { !KeyDown? }
  }

  datatype Outcome = Done | Released | NotReleased | Rejected

  /** One observable event of a run. */
  datatype Mark =
    | Enqueued(op: Operation)
    | Started(op: Operation)
    | LockoutSet(on: bool)
    | Called(drive: Drive)
    | Returned(drive: Drive, ok: bool)
    | Settled(outcome: Outcome)
  {
    /** The driver confirmed that the radio stopped transmitting. */
    predicate OffSucceeded() { Returned? && drive.IsOff() && ok }
  }

  datatype Running = Running(op: Operation, drive: Drive)

  datatype State = State(
    lockout: bool,
    owner: Option<ClientId>,
    maxKeyDownArmed: bool,
    releaseRetryArmed: bool,
    releasePending: bool,
    running: Option<Running>,
    queue: seq<Operation>)

  const INITIAL := State(false, None, false, false, false, None, [])

  // ---------------------------------------------------------------- steps

  /** The state a step leaves and the last mark it adds to the trace. */
  datatype Effect = Effect(next: State, last: Mark)

  function Enqueue(s: State, op: Operation): Effect {
    Effect(s.(queue := s.queue + [op]), Enqueued(op))
  }

  /** What an operation does when its turn comes: finish without the driver, or command it. */
  datatype Plan = Finish(outcome: Outcome) | Command(drive: Drive)

  function PlanFor(s: State, op: Operation): Plan {
    match op
    case SetManualPtt(c, enabled) =>
      if !enabled then Command(KeyUp)
      else if s.lockout || s.releasePending || (s.owner.Some? && s.owner.value != c) then Finish(Rejected)
      else Command(KeyDown(c))
    case Release => ReleasePlan(s, op)
    case ReleaseIfOwnedBy(c) => if s.owner != Some(c) then Finish(NotReleased) else ReleasePlan(s, op)
    case Configure(lockout) => if !lockout then Finish(Done) else ReleasePlan(s, op)
  }

  /** What releaseNow does. */
  function ReleasePlan(s: State, op: Operation): Plan {
    if s.owner.None? then Finish(if op.Configure? then Done else NotReleased) else Command(ReleaseOff)
  }

  /** The owner is recorded before a key-down is commanded, and a release is pending from its command on. */
  function Carry(s: State, op: Operation, plan: Plan): Effect {
    match plan
    case Finish(outcome) => Effect(s, Settled(outcome))
    case Command(d) =>
      Effect(s.(owner := if d.KeyDown? then Some(d.client) else s.owner,
                releasePending := s.releasePending || d.ReleaseOff?,
                running := Some(Running(op, d))),
             Called(d))
  }

  /** The state in which the operation at the head of the queue is planned. */
  function Dequeued(s: State): State
    requires s.queue != []
  {
    s.(queue := s.queue[1..], lockout := if s.queue[0].Configure? then s.queue[0].lockout else s.lockout)
  }

  /** The start of the operation at the head of the queue, up to its driver call or its end. */
  function StartNext(s: State): Effect
    requires s.running.None? && s.queue != []
  {
    Carry(Dequeued(s), s.queue[0], PlanFor(Dequeued(s), s.queue[0]))
  }

  /** What a confirmed PTT-off leaves behind. */
  function Cleared(s: State): State {
    s.(owner := None, releasePending := false, maxKeyDownArmed := false, releaseRetryArmed := false)
  }

  /** The driver call of the running operation resolves (`ok`) or throws. */
  function DriverReturns(s: State, ok: bool): Effect
    requires s.running.Some?
  {
    var Running(op, drive) := s.running.value;
    var t := s.(running := None);
    match drive
    case KeyDown(c) =>
      if ok then Effect(t.(maxKeyDownArmed := true, releaseRetryArmed := false), Settled(Done))
      else Effect(if t.owner == Some(c) then t.(owner := None) else t, Settled(Rejected))
    case KeyUp =>
      if ok then Effect(Cleared(t), Settled(Done)) else Effect(t, Settled(Rejected))
    case ReleaseOff =>
      if ok then Effect(Cleared(t), Settled(if op.Configure? then Done else Released))
      else Effect(t.(releaseRetryArmed := t.releaseRetryArmed || t.owner.Some?), Settled(Rejected))
  }

  datatype Event = Call(op: Operation) | Start | Return(ok: bool) | MaxKeyDownFires | ReleaseRetryFires

  predicate Enabled(s: State, e: Event) {
    match e
    case Call(_) => true
    case Start => s.running.None? && s.queue != []
    case Return(_) => s.running.Some?
    case MaxKeyDownFires => s.maxKeyDownArmed
    case ReleaseRetryFires => s.releaseRetryArmed
  }

  function Next(s: State, e: Event): Effect
    requires Enabled(s, e)
  {
    match e
    case Call(op) => Enqueue(s, op)
    case Start => StartNext(s)
    case Return(ok) => DriverReturns(s, ok)
    case MaxKeyDownFires => Enqueue(s.(maxKeyDownArmed := false), Release)
    case ReleaseRetryFires => Enqueue(s.(releaseRetryArmed := false), Release)
  }

  /** The marks a step adds before its last one. */
  function EarlierMarks(s: State, e: Event): seq<Mark>
    requires Enabled(s, e)
  {
    match e
    case Start =>
      if s.queue[0].Configure? then [Started(s.queue[0]), LockoutSet(s.queue[0].lockout)] else [Started(s.queue[0])]
    case Return(ok) => [Returned(s.running.value.drive, ok)]
    case _ => []
  }

  datatype World = World(s: State, trace: seq<Mark>)

  /** One step of a run; an event that cannot happen now changes nothing. */
  function Step(w: World, e: Event): World {
    if Enabled(w.s, e) then World(Next(w.s, e).next, w.trace + EarlierMarks(w.s, e) + [Next(w.s, e).last]) else w
  }

  /** An operation that was called goes as far as it goes at once. */
  function Carried(w: World, op: Operation): World {
    var e := Carry(w.s, op, PlanFor(w.s, op));
    World(e.next, w.trace + [e.last])
  }

  /** An operation that is called begins, and goes as far as it goes at once. */
  function Begins(w: World, op: Operation): World {
    if op.Configure?
    then Carried(World(w.s.(lockout := op.lockout), w.trace + [Started(op)] + [LockoutSet(op.lockout)]), op)
    else Carried(World(w.s, w.trace + [Started(op)]), op)
  }

  lemma StartIsBegins(w: World)
    requires Enabled(w.s, Start)
    ensures Step(w, Start) == Begins(World(w.s.(queue := w.s.queue[1..]), w.trace), w.s.queue[0])
  {
    var op := w.s.queue[0];
    if op.Configure? {
      assert w.trace + EarlierMarks(w.s, Start) == w.trace + [Started(op)] + [LockoutSet(op.lockout)];
    }
  }

  function Run(w: World, es: seq<Event>): World
    decreases es
  {
    if es == [] then w else Run(Step(w, es[0]), es[1..])
  }

  // ---------------------------------------------------------------- watching a trace

  /** Where a trace stands in the shape  (Started LockoutSet? (Called Returned)? Settled)*  . */
  datatype Cursor = Between | Inside | Driving(drive: Drive) | Broken

  /** Are operations and driver calls strictly one after the other, and in which order? */
  datatype Order = Order(cursor: Cursor, enqueued: seq<Operation>, started: seq<Operation>)

  function NextCursor(c: Cursor, m: Mark): Cursor {
    match m
    case Enqueued(_) => c
    case Started(_) => if c == Between then Inside else Broken
    case LockoutSet(_) => if c == Inside then Inside else Broken
    case Called(d) => if c == Inside then Driving(d) else Broken
    case Returned(d, _) => if c == Driving(d) then Inside else Broken
    case Settled(_) => if c == Inside then Between else Broken
  }

  function Advance(o: Order, m: Mark): Order {
    Order(NextCursor(o.cursor, m),
          if m.Enqueued? then o.enqueued + [m.op] else o.enqueued,
          if m.Started? then o.started + [m.op] else o.started)
  }

  function Ordered(trace: seq<Mark>): Order {
    if trace == [] then Order(Between, [], []) else Advance(Ordered(trace[..|trace| - 1]), trace[|trace| - 1])
  }

  /** A running account of who may transmit, kept from the trace alone. */
  datatype Watch = Watch(
    releaseOwed: bool,            // a release began and no PTT-off has succeeded since
    lockedOut: bool,              // the last lockout setting
    holder: Option<ClientId>,     // last client to key down with neither an off nor its own throw since
    keyed: Option<ClientId>,      // the client of the last confirmed key-down with no PTT-off since
    threw: bool,                  // a key-down threw since the last confirmed key-down or PTT-off
    guarded: bool,                // every key-down so far was issued with nothing against it
    offCalls: nat,
    offFailures: nat)

  function Observe(w: Watch, m: Mark): Watch {
    match m
    case LockoutSet(on) => w.(lockedOut := on)
    case Called(KeyDown(c)) =>
      w.(holder := Some(c),
         guarded := w.guarded && !w.releaseOwed && !w.lockedOut && (w.holder.None? || w.holder == Some(c)))
    case Called(d) => w.(releaseOwed := w.releaseOwed || d.ReleaseOff?, offCalls := w.offCalls + 1)
    case Returned(KeyDown(c), ok) =>
      if ok then w.(keyed := Some(c), threw := false)
      else w.(holder := if w.holder == Some(c) then None else w.holder, threw := true)
    case Returned(_, ok) =>
      if ok then w.(releaseOwed := false, holder := None, keyed := None, threw := false)
      else w.(offFailures := w.offFailures + 1)
    case _ => w
  }

  function Watched(trace: seq<Mark>): Watch {
    if trace == [] then Watch(false, false, None, None, false, true, 0, 0)
    else Observe(Watched(trace[..|trace| - 1]), trace[|trace| - 1])
  }

  lemma Append(trace: seq<Mark>, m: Mark)
    ensures Watched(trace + [m]) == Observe(Watched(trace), m)
    ensures Ordered(trace + [m]) == Advance(Ordered(trace), m)
  {
    assert (trace + [m])[..|trace|] == trace;
  }

  // ---------------------------------------------------------------- the invariant

  /** The driver command in progress, if an operation is running. */
  function Busy(s: State): Option<Drive> {
    if s.running.None? then None else Some(s.running.value.drive)
  }

  predicate KeyingDown(s: State) {
    s.running.Some? && s.running.value.drive.KeyDown?
  }

  /** A release will still be attempted: a timer is armed or a release is queued. */
  predicate ReleaseDue(s: State) {
    s.maxKeyDownArmed || s.releaseRetryArmed || Release in s.queue
  }

  /** The dead-man rule and its companions, on the controller's fields alone. */
  predicate OwnerSafe(s: State) {
    && (s.owner.Some? ==> ReleaseDue(s) || (s.running.Some? && Busy(s) != Some(KeyUp)))
    && (s.releasePending ==>
          && s.owner.Some?
          && (s.releaseRetryArmed || Release in s.queue || Busy(s) == Some(ReleaseOff)))
    && (KeyingDown(s) ==> s.owner == Some(s.running.value.drive.client) && !s.releasePending)
    && (Busy(s) == Some(ReleaseOff) ==> s.releasePending)
  }

  /** Operations run one at a time in the order they were queued. */
  predicate InOrder(s: State, o: Order) {
    && o.cursor == (if s.running.None? then Between else Driving(s.running.value.drive))
    && o.enqueued == o.started + s.queue
  }

  /** The controller's fields agree with what the trace shows. */
  predicate Agrees(s: State, w: Watch) {
    && w.guarded
    && w.releaseOwed == s.releasePending
    && w.lockedOut == s.lockout
    && w.holder == s.owner
    && (w.keyed.Some? && !w.threw ==> s.owner == w.keyed)
    && (w.threw ==> s.owner.None? || KeyingDown(s))
  }

  ghost predicate Inv(w: World) {
    OwnerSafe(w.s) && InOrder(w.s, Ordered(w.trace)) && Agrees(w.s, Watched(w.trace))
  }

  /** What the marks a step adds before its last one do to the account. */
  function Earlier(s: State, e: Event, w: Watch): Watch
    requires Enabled(s, e)
  {
    match e
    case Start => if s.queue[0].Configure? then Observe(w, LockoutSet(s.queue[0].lockout)) else w
    case Return(ok) => Observe(w, Returned(s.running.value.drive, ok))
    case _ => w
  }

  function EarlierOrder(s: State, e: Event, o: Order): Order
    requires Enabled(s, e)
  {
    match e
    case Start =>
      var p := Advance(o, Started(s.queue[0]));
      if s.queue[0].Configure? then Advance(p, LockoutSet(s.queue[0].lockout)) else p
    case Return(ok) => Advance(o, Returned(s.running.value.drive, ok))
    case _ => o
  }

  lemma StepTrace(w: World, e: Event)
    requires Enabled(w.s, e)
    ensures var t, last := Step(w, e).trace, Next(w.s, e).last;
            && Watched(t) == Observe(Earlier(w.s, e, Watched(w.trace)), last)
            && Ordered(t) == Advance(EarlierOrder(w.s, e, Ordered(w.trace)), last)
  {
    Append(w.trace + EarlierMarks(w.s, e), Next(w.s, e).last);
    match e
    case Start =>
      Append(w.trace, Started(w.s.queue[0]));
      if w.s.queue[0].Configure? {
        Append(w.trace + [Started(w.s.queue[0])], LockoutSet(w.s.queue[0].lockout));
        assert w.trace + EarlierMarks(w.s, e) == w.trace + [Started(w.s.queue[0])] + [LockoutSet(w.s.queue[0].lockout)];
      }
    case Return(ok) => Append(w.trace, Returned(w.s.running.value.drive, ok));
    case _ => assert w.trace + [] == w.trace;
  }

  lemma StartOrder(s: State, o: Order)
    requires InOrder(s, o) && Enabled(s, Start)
    ensures InOrder(StartNext(s).next, Advance(EarlierOrder(s, Start, o), StartNext(s).last))
  {
    assert o.started + s.queue == o.started + [s.queue[0]] + s.queue[1..];
  }

  lemma StartOwner(s: State)
    requires OwnerSafe(s) && Enabled(s, Start)
    ensures OwnerSafe(StartNext(s).next)
  {
    assert s.queue == [s.queue[0]] + s.queue[1..];
    assert Release in s.queue ==> s.queue[0] == Release || Release in s.queue[1..];
  }

  lemma CarryAgrees(s: State, op: Operation, w: Watch)
    requires s.running.None? && Agrees(s, w)
    ensures var e := Carry(s, op, PlanFor(s, op)); Agrees(e.next, Observe(w, e.last))
  {
  }

  lemma StartAgrees(s: State, w: Watch)
    requires Agrees(s, w) && Enabled(s, Start)
    ensures Agrees(StartNext(s).next, Observe(Earlier(s, Start, w), StartNext(s).last))
  {
    CarryAgrees(Dequeued(s), s.queue[0], Earlier(s, Start, w));
  }

  lemma ReturnOrder(s: State, ok: bool, o: Order)
    requires InOrder(s, o) && Enabled(s, Return(ok))
    ensures InOrder(DriverReturns(s, ok).next, Advance(EarlierOrder(s, Return(ok), o), DriverReturns(s, ok).last))
  {
  }

  lemma ReturnOwner(s: State, ok: bool)
    requires OwnerSafe(s) && Enabled(s, Return(ok))
    ensures OwnerSafe(DriverReturns(s, ok).next)
  {
  }

  lemma ReturnAgrees(s: State, ok: bool, w: Watch)
    requires OwnerSafe(s) && Agrees(s, w) && Enabled(s, Return(ok))
    ensures Agrees(DriverReturns(s, ok).next, Observe(Earlier(s, Return(ok), w), DriverReturns(s, ok).last))
  {
  }

  lemma EnqueueInv(s: State, op: Operation, o: Order, w: Watch)
    requires InOrder(s, o) && Agrees(s, w)
    ensures OwnerSafe(s) ==> OwnerSafe(Enqueue(s, op).next)
    ensures InOrder(Enqueue(s, op).next, Advance(o, Enqueued(op)))
    ensures Agrees(Enqueue(s, op).next, Observe(w, Enqueued(op)))
  {
  }

  lemma StepInv(w: World, e: Event)
    requires Inv(w)
    ensures Inv(Step(w, e))
  {
    if !Enabled(w.s, e) { return; }
    StepTrace(w, e);
    var o, v := Ordered(w.trace), Watched(w.trace);
    match e
    case Start => StartOrder(w.s, o); StartOwner(w.s); StartAgrees(w.s, v);
    case Return(ok) => ReturnOrder(w.s, ok, o); ReturnOwner(w.s, ok); ReturnAgrees(w.s, ok, v);
    case Call(op) => EnqueueInv(w.s, op, o, v);
    case MaxKeyDownFires => EnqueueInv(w.s.(maxKeyDownArmed := false), Release, o, v);
    case ReleaseRetryFires => EnqueueInv(w.s.(releaseRetryArmed := false), Release, o, v);
  }

  lemma {:induction false} RunInv(w: World, es: seq<Event>)
    requires Inv(w)
    ensures Inv(Run(w, es))
    decreases es
  {
    if es != [] {
      StepInv(w, es[0]);
      RunInv(Step(w, es[0]), es[1..]);
    }
  }

  // ---------------------------------------------------------------- dead-man rule

  ghost predicate Reachable(w: World) {
    exists es :: w == Run(World(INITIAL, []), es)
  }

  lemma ReachableInv(w: World)
    requires Reachable(w)
    ensures Inv(w)
  {
    var es :| w == Run(World(INITIAL, []), es);
    RunInv(World(INITIAL, []), es);
  }

  /** In every reachable state an idle controller with an owner owes a release, and a pending
      release is owned and on its way. */
  lemma DeadMan(w: World)
    requires Reachable(w)
    ensures w.s.running.None? && w.s.owner.Some? ==> ReleaseDue(w.s)
    ensures w.s.releasePending ==>
              w.s.owner.Some? && (w.s.releaseRetryArmed || Release in w.s.queue || Busy(w.s) == Some(ReleaseOff))
  {
    ReachableInv(w);
  }

  /** A radio whose key-down was confirmed is still owned by the client that keyed it exactly
      while no later key-down has thrown; after such a throw an idle controller owns nothing. */
  lemma KeyedRadioIsOwned(w: World)
    requires Reachable(w) && w.s.running.None? && Watched(w.trace).keyed.Some?
    ensures w.s.owner == Watched(w.trace).keyed <==> !Watched(w.trace).threw
    ensures Watched(w.trace).threw ==> w.s.owner.None?
  {
    ReachableInv(w);
  }

  lemma {:induction false} RunThenStep(w: World, es: seq<Event>, e: Event)
    ensures Run(w, es + [e]) == Step(Run(w, es), e)
    decreases es
  {
    if es == [] {
      assert [e][1..] == [];
    } else {
      assert (es + [e])[1..] == es[1..] + [e];
      RunThenStep(Step(w, es[0]), es[1..], e);
    }
  }

  lemma ReachableStep(w: World, e: Event)
    requires Reachable(w)
    ensures Reachable(Step(w, e))
  {
    var es :| w == Run(World(INITIAL, []), es);
    RunThenStep(World(INITIAL, []), es, e);
  }

  lemma Performs(w: World, e: Event) returns (r: World)
    requires Reachable(w) && Enabled(w.s, e)
    ensures Reachable(r) && r.s == Next(w.s, e).next
    ensures Watched(r.trace) == Observe(Earlier(w.s, e, Watched(w.trace)), Next(w.s, e).last)
  {
    ReachableStep(w, e);
    StepTrace(w, e);
    r := Step(w, e);
  }

  /** The failing family is not empty: the owner keys down twice and the second command throws.
      The radio stays keyed, its timer finds no owner, and no PTT-off was ever commanded. */
  lemma KeyedRadioAbandoned(c: ClientId) returns (w: World)
    ensures Reachable(w) && w.s == INITIAL
    ensures Watched(w.trace).keyed == Some(c) && Watched(w.trace).offCalls == 0
  {
    w := World(INITIAL, []);
    assert w == Run(w, []);
    w := Performs(w, Call(SetManualPtt(c, true)));
    w := Performs(w, Start);
    w := Performs(w, Return(true));
    w := Performs(w, Call(SetManualPtt(c, true)));
    w := Performs(w, Start);
    w := Performs(w, Return(false));
    w := Performs(w, MaxKeyDownFires);
    w := Performs(w, Start);
  }

  // ---------------------------------------------------------------- trace safety

  lemma {:induction false} OwedPersists(trace: seq<Mark>, i: nat)
    requires i < |trace| && trace[i] == Called(ReleaseOff)
    ensures Watched(trace).releaseOwed || exists k :: i < k < |trace| && trace[k].OffSucceeded()
  {
    if i < |trace| - 1 {
      OwedPersists(trace[..|trace| - 1], i);
    }
  }

  lemma {:induction false} LockoutPersists(trace: seq<Mark>, i: nat)
    requires i < |trace| && trace[i] == LockoutSet(true)
    ensures Watched(trace).lockedOut || exists k :: i < k < |trace| && trace[k] == LockoutSet(false)
  {
    if i < |trace| - 1 {
      LockoutPersists(trace[..|trace| - 1], i);
    }
  }

  /** Ends the hold client `c` took by keying down. */
  predicate EndsHold(m: Mark, c: ClientId) {
    m.OffSucceeded() || m == Returned(KeyDown(c), false)
  }

  lemma {:induction false} HoldPersists(trace: seq<Mark>, i: nat, c: ClientId)
    requires Watched(trace).guarded
    requires i < |trace| && trace[i] == Called(KeyDown(c))
    ensures Watched(trace).holder == Some(c) || exists k :: i < k < |trace| && EndsHold(trace[k], c)
  {
    if i < |trace| - 1 {
      HoldPersists(trace[..|trace| - 1], i, c);
    }
  }

  lemma {:induction false} KeyDownWasGuarded(trace: seq<Mark>, j: nat, c: ClientId)
    requires Watched(trace).guarded && j < |trace| && trace[j] == Called(KeyDown(c))
    ensures var w := Watched(trace[..j]);
            w.guarded && !w.releaseOwed && !w.lockedOut && (w.holder.None? || w.holder == Some(c))
  {
    var last := |trace| - 1;
    if j < last {
      KeyDownWasGuarded(trace[..last], j, c);
      assert trace[..last][..j] == trace[..j];
    }
  }

  /** In any run, once a release has been commanded there is no key-down until a PTT-off succeeds. */
  lemma NoKeyDownWhileReleaseOwed(w: World, i: nat, j: nat, c: ClientId)
    requires Reachable(w) && i < j < |w.trace|
    requires w.trace[i] == Called(ReleaseOff) && w.trace[j] == Called(KeyDown(c))
    ensures exists k :: i < k < j && w.trace[k].OffSucceeded()
  {
    ReachableInv(w);
    KeyDownWasGuarded(w.trace, j, c);
    OwedPersists(w.trace[..j], i);
  }

  /** In any run, once lockout has been set there is no key-down until it is cleared. */
  lemma NoKeyDownWhileLockedOut(w: World, i: nat, j: nat, c: ClientId)
    requires Reachable(w) && i < j < |w.trace|
    requires w.trace[i] == LockoutSet(true) && w.trace[j] == Called(KeyDown(c))
    ensures exists k :: i < k < j && w.trace[k] == LockoutSet(false)
  {
    ReachableInv(w);
    KeyDownWasGuarded(w.trace, j, c);
    LockoutPersists(w.trace[..j], i);
  }

  /** In any run, a client keys down after another only once a PTT-off succeeded or a key-down of
      that other client threw. */
  lemma OneClientAtATime(w: World, i: nat, j: nat, a: ClientId, b: ClientId)
    requires Reachable(w) && i < j < |w.trace| && a != b
    requires w.trace[i] == Called(KeyDown(a)) && w.trace[j] == Called(KeyDown(b))
    ensures exists k :: i < k < j && EndsHold(w.trace[k], a)
  {
    ReachableInv(w);
    KeyDownWasGuarded(w.trace, j, b);
    HoldPersists(w.trace[..j], i, a);
  }

  lemma {:induction false} CallInProgress(trace: seq<Mark>, i: nat, d: Drive)
    requires Ordered(trace).cursor != Broken && i < |trace| && trace[i] == Called(d)
    ensures Ordered(trace).cursor == Driving(d)
            || exists k :: i < k < |trace| && trace[k].Returned? && trace[k].drive == d
  {
    if i < |trace| - 1 {
      CallInProgress(trace[..|trace| - 1], i, d);
    }
  }

  lemma {:induction false} PrefixUnbroken(trace: seq<Mark>, j: nat)
    requires Ordered(trace).cursor != Broken && j <= |trace|
    ensures Ordered(trace[..j]).cursor != Broken
  {
    if j < |trace| {
      PrefixUnbroken(trace[..|trace| - 1], j);
      assert trace[..|trace| - 1][..j] == trace[..j];
    } else {
      assert trace[..j] == trace;
    }
  }

  /** In any run, driver calls never overlap. */
  lemma DriverCallsAreSerial(w: World, i: nat, j: nat)
    requires Reachable(w) && i < j < |w.trace| && w.trace[i].Called? && w.trace[j].Called?
    ensures exists k :: i < k < j && w.trace[k].Returned? && w.trace[k].drive == w.trace[i].drive
  {
    ReachableInv(w);
    PrefixUnbroken(w.trace, j + 1);
    assert w.trace[..j + 1][..j] == w.trace[..j];
    CallInProgress(w.trace[..j], i, w.trace[i].drive);
  }

  lemma {:induction false} OperationInProgress(trace: seq<Mark>, i: nat)
    requires Ordered(trace).cursor != Broken && i < |trace| && trace[i].Started?
    ensures Ordered(trace).cursor != Between || exists k :: i < k < |trace| && trace[k].Settled?
  {
    if i < |trace| - 1 {
      OperationInProgress(trace[..|trace| - 1], i);
    }
  }

  /** In any run, operations start in the order they were queued, each after the one before it settled, whatever
      was rejected. */
  lemma OperationsAreSerial(w: World, i: nat, j: nat)
    requires Reachable(w) && i < j < |w.trace| && w.trace[i].Started? && w.trace[j].Started?
    ensures exists k :: i < k < j && w.trace[k].Settled?
    ensures Ordered(w.trace).enqueued == Ordered(w.trace).started + w.s.queue
  {
    ReachableInv(w);
    PrefixUnbroken(w.trace, j + 1);
    assert w.trace[..j + 1][..j] == w.trace[..j];
    OperationInProgress(w.trace[..j], i);
  }

  // ---------------------------------------------------------------- bounded recovery

  predicate Recovered(s: State) {
    s.owner.None? && !s.releasePending && !s.maxKeyDownArmed && !s.releaseRetryArmed
  }

  function InFlight(s: State): nat {
    if s.running.Some? then 1 else 0
  }

  lemma StartWhilePending(s: State, w: Watch)
    requires OwnerSafe(s) && s.releasePending && Enabled(s, Start)
    ensures StartNext(s).next.releasePending
    ensures Observe(Earlier(s, Start, w), StartNext(s).last).offFailures == w.offFailures
    ensures Observe(Earlier(s, Start, w), StartNext(s).last).offCalls == w.offCalls + InFlight(StartNext(s).next)
    ensures StartNext(s).next.running.None? ==> s.queue[0] != Release
  {
    var plan := PlanFor(Dequeued(s), s.queue[0]);
    assert plan.Command? ==> !plan.drive.KeyDown?;
  }

  lemma ReturnWhilePending(s: State, ok: bool, w: Watch)
    requires OwnerSafe(s) && s.releasePending && Enabled(s, Return(ok))
    ensures ok ==> Recovered(DriverReturns(s, ok).next)
    ensures !ok ==> DriverReturns(s, ok).next.releasePending
    ensures var v := Observe(Earlier(s, Return(ok), w), DriverReturns(s, ok).last);
            v.offCalls == w.offCalls && v.offFailures == w.offFailures + if ok then 0 else 1
  {
  }

  /** While a release is pending every driver call is a PTT-off, and the first that succeeds recovers. */
  lemma RecoveryStep(w: World, e: Event)
    requires Inv(w) && w.s.releasePending
    ensures var r := Step(w, e);
            Recovered(r.s) ||
            (r.s.releasePending && Watched(r.trace).offCalls - Watched(w.trace).offCalls ==
             Watched(r.trace).offFailures - Watched(w.trace).offFailures + InFlight(r.s) - InFlight(w.s))
  {
    if !Enabled(w.s, e) { return; }
    StepTrace(w, e);
    match e
    case Start => StartWhilePending(w.s, Watched(w.trace));
    case Return(ok) => ReturnWhilePending(w.s, ok, Watched(w.trace));
    case _ =>
  }

  /** From the moment a release has failed, until the controller has recovered at most one more
      PTT-off is commanded than the driver rejects: with n rejections left, n + 1 commands. */
  lemma {:induction false} BoundedRecovery(w: World, es: seq<Event>)
    requires Inv(w) && w.s.releasePending
    requires forall k :: 0 <= k <= |es| ==> !Recovered(Run(w, es[..k]).s)
    ensures var r := Run(w, es);
            && r.s.releasePending
            && Watched(r.trace).offCalls - Watched(w.trace).offCalls ==
               Watched(r.trace).offFailures - Watched(w.trace).offFailures + InFlight(r.s) - InFlight(w.s)
    decreases es
  {
    if es != [] {
      var v := Step(w, es[0]);
      assert Run(w, es[..1]) == v by { assert es[..1][1..] == []; }
      RecoveryStep(w, es[0]);
      StepInv(w, es[0]);
      forall k | 0 <= k <= |es[1..]|
        ensures !Recovered(Run(v, es[1..][..k]).s)
      {
        assert es[..k + 1][1..] == es[1..][..k];
        assert !Recovered(Run(w, es[..k + 1]).s);
      }
      BoundedRecovery(v, es[1..]);
    }
  }

  lemma ObserveGrows(w: Watch, m: Mark)
    ensures Observe(w, m).offCalls >= w.offCalls
  {
  }

  lemma OffCallsStep(w: World, e: Event)
    ensures Watched(Step(w, e).trace).offCalls >= Watched(w.trace).offCalls
  {
    if Enabled(w.s, e) {
      StepTrace(w, e);
      ObserveGrows(Earlier(w.s, e, Watched(w.trace)), Next(w.s, e).last);
    }
  }

  lemma {:induction false} OffCallsGrow(w: World, es: seq<Event>)
    ensures Watched(Run(w, es).trace).offCalls >= Watched(w.trace).offCalls
    decreases es
  {
    if es != [] {
      OffCallsStep(w, es[0]);
      OffCallsGrow(Step(w, es[0]), es[1..]);
    }
  }

  /** A pending release, at place i of the queue, with no operation running. */
  ghost predicate Waits(w: World, i: nat) {
    Inv(w) && w.s.releasePending && w.s.running.None? && i < |w.s.queue| && w.s.queue[i] == Release
  }

  lemma WaitingStarts(w: World, i: nat)
    requires Waits(w, i) && Enabled(w.s, Start)
    ensures var v := Step(w, Start);
            && |Ordered(v.trace).started| == |Ordered(w.trace).started| + 1
            && if v.s.running.Some? then Watched(v.trace).offCalls > Watched(w.trace).offCalls
               else i > 0 && Waits(v, i - 1) && Watched(v.trace).offCalls == Watched(w.trace).offCalls
  {
    StepTrace(w, Start);
    StepInv(w, Start);
    StartWhilePending(w.s, Watched(w.trace));
  }

  lemma WaitingStays(w: World, e: Event, i: nat)
    requires Waits(w, i) && Enabled(w.s, e) && !e.Start?
    ensures var v := Step(w, e);
            Waits(v, i) && Ordered(v.trace).started == Ordered(w.trace).started
            && Watched(v.trace).offCalls == Watched(w.trace).offCalls
  {
    StepTrace(w, e);
    StepInv(w, e);
  }

  /** A pending release makes progress: with a release at place i of the queue, no i + 1 operations
      can start before a PTT-off is commanded. */
  lemma {:induction false} QueuedReleaseRunsInTurn(w: World, es: seq<Event>, i: nat)
    requires Waits(w, i)
    requires |Ordered(Run(w, es).trace).started| > |Ordered(w.trace).started| + i
    ensures Watched(Run(w, es).trace).offCalls > Watched(w.trace).offCalls
    decreases es
  {
    if es == [] { return; }
    var e, v := es[0], Step(w, es[0]);
    if !Enabled(w.s, e) {
      QueuedReleaseRunsInTurn(v, es[1..], i);
    } else if e.Start? {
      WaitingStarts(w, i);
      if v.s.running.Some? { OffCallsGrow(v, es[1..]); } else { QueuedReleaseRunsInTurn(v, es[1..], i - 1); }
    } else {
      WaitingStays(w, e, i);
      QueuedReleaseRunsInTurn(v, es[1..], i);
    }
  }

  // ---------------------------------------------------------------- the controller

  class PttSafetyController {
    var isLockedOut: bool
    var ownerClientId: Option<ClientId>
    var maxKeyDownTimer: bool            // armed
    var releaseRetryTimer: bool          // armed
    var releasePending: bool
    var operationTail: PromiseChain.PromiseId
    var loop: PromiseChain.Loop<Operation>
    var running: Option<Running>         // suspended in its driver call
    ghost var log: PromiseChain.Log<Operation>
    ghost var trace: seq<Mark>

    ghost function Chain(): PromiseChain.Chain<Operation>
      reads this
    {
      PromiseChain.Chain(loop, operationTail, log)
    }

    /** The operation under way on the promise chain is the one that waits for the driver. */
    ghost predicate Valid()
      reads this
    {
      && PromiseChain.Inv(Chain()) && |log.began| <= |log.enqueued|
      && if running.None? then loop.active == []
         else |loop.active| == 1 && loop.active[0].op == running.value.op
    }

    /** The queue of the specification: what hangs on the chain and has not begun. */
    ghost function Now(): World
      reads this
      requires |log.began| <= |log.enqueued|
    {
      World(State(isLockedOut, ownerClientId, maxKeyDownTimer, releaseRetryTimer, releasePending, running,
                  log.enqueued[|log.began|..]), trace)
    }

    constructor ()
      ensures Valid() && Now() == World(INITIAL, [])
    {
      isLockedOut, ownerClientId, maxKeyDownTimer, releaseRetryTimer := false, None, false, false;
      releasePending, running, trace := false, None, [];
      var initial: PromiseChain.Chain<Operation> := PromiseChain.Initial();
      loop, operationTail, log := initial.loop, initial.tail, initial.log;
      new;
      assert PromiseChain.Stands(Chain(), 0, PromiseChain.Idle);
    }

    /** setManualPtt, release, releaseIfOwnedBy and configure all hang their operation on the tail: its result
        follows the tail however that settles, and the new tail swallows the result. */
    method Enqueue(op: Operation)
      requires Valid()
      modifies `loop, `operationTail, `log, `trace
      ensures Valid() && Now() == Step(old(Now()), Call(op))
    {
      PromiseChain.EnqueueKeeps(Chain(), op);
      ghost var next := PromiseChain.Enqueue(Chain(), op);
      var operation := Some(PromiseChain.Runs(op));
      var (hung, result) := PromiseChain.Then(loop, operationTail, operation, operation);
      var noop: Option<PromiseChain.Handler<Operation>> := Some(PromiseChain.Ignores);
      var (chained, tail) := PromiseChain.Then(hung, result, noop, noop);
      loop, operationTail := chained, tail;
      log := log.(enqueued := log.enqueued + [op]);
      assert Chain() == next;
      trace := trace + [] + [Enqueued(op)];
    }

    method ClearTimers()
      modifies `maxKeyDownTimer, `releaseRetryTimer
      ensures !maxKeyDownTimer && !releaseRetryTimer
    {
      maxKeyDownTimer := false;
      releaseRetryTimer := false;
    }

    method ScheduleReleaseRetry()
      modifies `releaseRetryTimer
      ensures releaseRetryTimer == (old(releaseRetryTimer) || ownerClientId.Some?)
    {
      if releaseRetryTimer || ownerClientId.None? { return; }
      releaseRetryTimer := true;
    }

    method CallDriver(op: Operation, drive: Drive)
      modifies `running, `trace
      ensures running == Some(Running(op, drive)) && trace == old(trace) + [Called(drive)]
    {
      running := Some(Running(op, drive));
      trace := trace + [Called(drive)];
    }

    /** The operation's promise settles, and the chain goes on. */
    method Settle(outcome: Outcome)
      requires PromiseChain.Inv(Chain()) && loop.active != []
      modifies `loop, `log, `trace
      ensures PromiseChain.Inv(Chain()) && loop.active == []
      ensures trace == old(trace) + [Settled(outcome)]
      ensures log == old(log).(ended := old(log.ended) + [!outcome.Rejected?])
    {
      PromiseChain.SettleKeeps(Chain(), !outcome.Rejected?);
      ghost var next := PromiseChain.Next(Chain(), PromiseChain.Settles(0, !outcome.Rejected?));
      loop := PromiseChain.OperationSettles(loop, 0, !outcome.Rejected?);
      log := log.(ended := log.ended + [!outcome.Rejected?]);
      assert Chain() == next;
      trace := trace + [Settled(outcome)];
    }

    /** An operation is under way on the chain and has not come to the driver. */
    ghost predicate Begun(op: Operation)
      reads this
    {
      && PromiseChain.Inv(Chain()) && |log.began| <= |log.enqueued| && running.None?
      && |loop.active| == 1 && loop.active[0].op == op
    }

    /** releaseNow up to its driver call. */
    method ReleaseNow(op: Operation)
      requires Begun(op) && PlanFor(Now().s, op) == ReleasePlan(Now().s, op)
      modifies `releasePending, `running, `trace, `loop, `log
      ensures Valid() && Now() == Carried(old(Now()), op)
    {
      var hadOwner := ownerClientId.Some?;
      if !hadOwner {
        Settle(if op.Configure? then Done else NotReleased);
        return;
      }
      releasePending := true;
      CallDriver(op, ReleaseOff);
    }

    /** setManualPtt's operation up to its driver call. */
    method ManualPtt(clientId: ClientId, enabled: bool)
      requires Begun(SetManualPtt(clientId, enabled))
      modifies `ownerClientId, `running, `trace, `loop, `log
      ensures Valid() && Now() == Carried(old(Now()), SetManualPtt(clientId, enabled))
    {
      if enabled && isLockedOut {
        Settle(Rejected);
        return;
      }
      if enabled && releasePending {
        Settle(Rejected);
        return;
      }
      if enabled && ownerClientId.Some? && ownerClientId != Some(clientId) {
        Settle(Rejected);
        return;
      }
      if enabled { ownerClientId := Some(clientId); }
      CallDriver(SetManualPtt(clientId, enabled), if enabled then KeyDown(clientId) else KeyUp);
    }

    /** Whenever the specification can start an operation, a job is queued that gets to it. */
    lemma StartIsQueued()
      requires Valid() && Enabled(Now().s, Start)
      ensures loop.jobs != []
    {
      PromiseChain.JobQueued(Chain());
    }

    /** A queued job runs: one that calls an operation is the specification's start step, which then is enabled;
        any other changes nothing that shows. */
    method RunJob()
      requires Valid() && loop.jobs != []
      modifies this
      ensures Valid()
      ensures if old(PromiseChain.IsStart(loop.jobs[0]))
              then Enabled(old(Now()).s, Start) && Now() == Step(old(Now()), Start)
              else Now() == old(Now())
    {
      PromiseChain.JobKeeps(Chain());
      if PromiseChain.IsStart(loop.jobs[0]) { StartIsBegins(Now()); }
      var job := loop.jobs[0];
      ghost var next := PromiseChain.Next(Chain(), PromiseChain.JobRuns);
      loop, log := PromiseChain.RunJob(loop), next.log;
      assert Chain() == next;
      if PromiseChain.IsStart(job) { BeginOperation(job.handler.value.op); }
    }

    /** An operation was called: it runs up to its driver call, or to its end. */
    method BeginOperation(op: Operation)
      requires Begun(op)
      modifies this
      ensures Valid() && Now() == Begins(old(Now()), op)
    {
      trace := trace + [Started(op)];
      match op {
        case SetManualPtt(clientId, enabled) => ManualPtt(clientId, enabled);
        case Release => ReleaseNow(op);
        case ReleaseIfOwnedBy(clientId) =>
          if ownerClientId != Some(clientId) {
            Settle(NotReleased);
          } else {
            ReleaseNow(op);
          }
        case Configure(lockout) =>
          isLockedOut := lockout;
          trace := trace + [LockoutSet(lockout)];
          if lockout { ReleaseNow(op); } else { Settle(Done); }
      }
    }

    /** The awaited driver call resolves or throws and the operation runs to its end. */
    method DriverReturns(ok: bool)
      requires Valid() && Enabled(Now().s, Return(ok))
      modifies this
      ensures Valid() && Now() == Step(old(Now()), Return(ok))
    {
      var Running(op, drive) := running.value;
      running := None;
      trace := trace + [Returned(drive, ok)];
      match drive {
        case KeyDown(clientId) => KeyDownReturns(clientId, ok);
        case KeyUp => KeyUpReturns(ok);
        case ReleaseOff => ReleaseReturns(op, ok);
      }
    }

    method KeyDownReturns(clientId: ClientId, ok: bool)
      requires PromiseChain.Inv(Chain()) && loop.active != []
      modifies `ownerClientId, `maxKeyDownTimer, `releaseRetryTimer, `loop, `log, `trace
      ensures PromiseChain.Inv(Chain()) && loop.active == []
      ensures log.enqueued == old(log.enqueued) && log.began == old(log.began)
      ensures trace == old(trace) + [Settled(if ok then Done else Rejected)]
      ensures ownerClientId == if !ok && old(ownerClientId) == Some(clientId) then None else old(ownerClientId)
      ensures maxKeyDownTimer == (ok || old(maxKeyDownTimer)) && releaseRetryTimer == (!ok && old(releaseRetryTimer))
    {
      if !ok {
        if ownerClientId == Some(clientId) { ownerClientId := None; }
        Settle(Rejected);
        return;
      }
      ClearTimers();
      maxKeyDownTimer := true;
      Settle(Done);
    }

    method KeyUpReturns(ok: bool)
      requires PromiseChain.Inv(Chain()) && loop.active != []
      modifies `ownerClientId, `maxKeyDownTimer, `releaseRetryTimer, `releasePending, `loop, `log, `trace
      ensures PromiseChain.Inv(Chain()) && loop.active == []
      ensures log.enqueued == old(log.enqueued) && log.began == old(log.began)
      ensures trace == old(trace) + [Settled(if ok then Done else Rejected)]
      ensures if ok then ownerClientId.None? && !releasePending && !maxKeyDownTimer && !releaseRetryTimer
              else unchanged(`ownerClientId, `maxKeyDownTimer, `releaseRetryTimer, `releasePending)
    {
      if !ok {
        Settle(Rejected);
        return;
      }
      ClearTimers();
      ownerClientId, releasePending := None, false;
      Settle(Done);
    }

    method ReleaseReturns(op: Operation, ok: bool)
      requires PromiseChain.Inv(Chain()) && loop.active != []
      modifies `ownerClientId, `maxKeyDownTimer, `releaseRetryTimer, `releasePending, `loop, `log, `trace
      ensures PromiseChain.Inv(Chain()) && loop.active == []
      ensures log.enqueued == old(log.enqueued) && log.began == old(log.began)
      ensures trace == old(trace) + [Settled(if !ok then Rejected else if op.Configure? then Done else Released)]
      ensures ok ==> ownerClientId.None? && !releasePending && !maxKeyDownTimer && !releaseRetryTimer
      ensures !ok ==>
                && unchanged(`ownerClientId, `maxKeyDownTimer, `releasePending)
                && releaseRetryTimer == (old(releaseRetryTimer) || ownerClientId.Some?)
    {
      if !ok {
        ScheduleReleaseRetry();
        Settle(Rejected);
        return;
      }
      ownerClientId, releasePending := None, false;
      ClearTimers();
      Settle(if op.Configure? then Done else Released);
    }

    method MaxKeyDownTimerFires()
      requires Valid() && maxKeyDownTimer
      modifies this
      ensures Valid() && Now() == Step(old(Now()), MaxKeyDownFires)
    {
      maxKeyDownTimer := false;
      Enqueue(Release);
    }

    method ReleaseRetryTimerFires()
      requires Valid() && releaseRetryTimer
      modifies this
      ensures Valid() && Now() == Step(old(Now()), ReleaseRetryFires)
    {
      releaseRetryTimer := false;
      Enqueue(Release);
    }
  }
}
