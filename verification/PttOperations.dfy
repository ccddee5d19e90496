/** What each operation of the PTT safety controller does, from its start to its settling, read off the traces of
    its runs: which driver call it makes, how it settles, and what it leaves behind. */
module PttOperations {
  import opened Common
  import opened PttSafety

  // ---------------------------------------------------------------- what an operation owes

  /** One driver call, and the outcome that follows its answer. */
  predicate Drove(marks: seq<Mark>, drive: Drive, outcome: Outcome, success: Outcome) {
    || (marks == [Called(drive), Returned(drive, true)] && outcome == success)
    || (marks == [Called(drive), Returned(drive, false)] && outcome == Rejected)
  }

  /** Nothing may stand against a key-down: lockout, a release owed, another client's hold. */
  predicate MayKeyDown(c: ClientId, at: Watch) {
    !at.lockedOut && !at.releaseOwed && (at.holder.None? || at.holder == Some(c))
  }

  /** What an operation shows between its start and its settling, and how it settles, by the account of the trace
      at its start. */
  predicate Does(op: Operation, at: Watch, marks: seq<Mark>, outcome: Outcome) {
    match op
    case SetManualPtt(c, enabled) =>
      if !enabled then Drove(marks, KeyUp, outcome, Done)
      else if MayKeyDown(c, at) then Drove(marks, KeyDown(c), outcome, Done)
      else marks == [] && outcome == Rejected
    case Release =>
      if at.holder.Some? then Drove(marks, ReleaseOff, outcome, Released) else marks == [] && outcome == NotReleased
    case ReleaseIfOwnedBy(c) =>
      if at.holder == Some(c) then Drove(marks, ReleaseOff, outcome, Released)
      else marks == [] && outcome == NotReleased
    case Configure(lockout) =>
      && marks != [] && marks[0] == LockoutSet(lockout)
      && if lockout && at.holder.Some? then Drove(marks[1..], ReleaseOff, outcome, Done)
         else marks[1..] == [] && outcome == Done
  }

  // ---------------------------------------------------------------- reading a trace

  /** The operation under way, where it started, the account then, and what it has shown since. */
  datatype Turn = NoTurn | Turn(start: nat, op: Operation, at: Watch, marks: seq<Mark>)

  function TurnOf(trace: seq<Mark>): Turn {
    if trace == [] then NoTurn
    else
      var init, m := trace[..|trace| - 1], trace[|trace| - 1];
      var t := TurnOf(init);
      match m
      case Started(op) => Turn(|init|, op, Watched(init), [])
      case Settled(_) => NoTurn
      case Enqueued(_) => t
      case _ => if t.Turn? then t.(marks := t.marks + [m]) else t
  }

  /** Every operation that settled did what it owes. */
  predicate AllDid(trace: seq<Mark>) {
    trace != [] ==>
      var init, m := trace[..|trace| - 1], trace[|trace| - 1];
      && AllDid(init)
      && (m.Settled? ==> TurnOf(init).Turn? && Does(TurnOf(init).op, TurnOf(init).at, TurnOf(init).marks, m.outcome))
  }

  lemma OneMore(trace: seq<Mark>, m: Mark)
    ensures TurnOf(trace + [m])
            == match m
               case Started(op) => Turn(|trace|, op, Watched(trace), [])
               case Settled(_) => NoTurn
               case Enqueued(_) => TurnOf(trace)
               case _ =>
                 if TurnOf(trace).Turn? then TurnOf(trace).(marks := TurnOf(trace).marks + [m]) else TurnOf(trace)
    ensures AllDid(trace + [m]) <==>
              && AllDid(trace)
              && (m.Settled? ==>
                    var t := TurnOf(trace); t.Turn? && Does(t.op, t.at, t.marks, m.outcome))
  {
    assert (trace + [m])[..|trace|] == trace;
  }

  /** What the running operation has shown so far, the driver call in progress included. */
  predicate Doing(op: Operation, at: Watch, marks: seq<Mark>, drive: Drive) {
    match op
    case SetManualPtt(c, enabled) =>
      drive == (if enabled then KeyDown(c) else KeyUp) && (enabled ==> MayKeyDown(c, at)) && marks == [Called(drive)]
    case Release => drive.ReleaseOff? && at.holder.Some? && marks == [Called(drive)]
    case ReleaseIfOwnedBy(c) => drive.ReleaseOff? && at.holder == Some(c) && marks == [Called(drive)]
    case Configure(lockout) =>
      drive.ReleaseOff? && lockout && at.holder.Some? && marks == [LockoutSet(lockout), Called(drive)]
  }

  predicate TurnAgrees(s: State, t: Turn) {
    if s.running.None? then t.NoTurn?
    else t.Turn? && t.op == s.running.value.op && Doing(t.op, t.at, t.marks, s.running.value.drive)
  }

  ghost predicate DoesInv(w: World) {
    AllDid(w.trace) && TurnAgrees(w.s, TurnOf(w.trace))
  }

  lemma OtherDoes(w: World, e: Event)
    requires DoesInv(w) && Enabled(w.s, e) && !e.Start? && !e.Return?
    ensures DoesInv(Step(w, e))
  {
    OneMore(w.trace, Next(w.s, e).last);
    assert w.trace + [] == w.trace;
  }

  /** The driver answers: the call and its answer are all that was still to be shown. */
  lemma AnsweredDoes(op: Operation, at: Watch, marks: seq<Mark>, drive: Drive, ok: bool, outcome: Outcome)
    requires Doing(op, at, marks, drive)
    requires outcome == if !ok then Rejected
                        else if drive.ReleaseOff? && !op.Configure? then Released else Done
    ensures Does(op, at, marks + [Returned(drive, ok)], outcome)
  {
    if op.Configure? {
      assert (marks + [Returned(drive, ok)])[1..] == [Called(drive), Returned(drive, ok)];
    }
  }

  lemma ReturnDoes(w: World, ok: bool)
    requires DoesInv(w) && Enabled(w.s, Return(ok))
    ensures DoesInv(Step(w, Return(ok)))
  {
    var Running(op, drive) := w.s.running.value;
    var t, last := TurnOf(w.trace), Next(w.s, Return(ok)).last;
    OneMore(w.trace, Returned(drive, ok));
    OneMore(w.trace + [Returned(drive, ok)], last);
    AnsweredDoes(op, t.at, t.marks, drive, ok, last.outcome);
  }

  /** An operation that has just been called: it settles at once, as it owes, or is at its driver call. */
  lemma PlannedDoes(s: State, op: Operation, at: Watch, marks: seq<Mark>)
    requires s.running.None? && marks == (if op.Configure? then [LockoutSet(op.lockout)] else [])
    requires at.holder == s.owner && at.releaseOwed == s.releasePending
    requires at.lockedOut == s.lockout || op.Configure?
    ensures var e := Carry(s, op, PlanFor(s, op));
            if e.last.Settled? then e.next.running.None? && Does(op, at, marks, e.last.outcome)
            else
              && e.last.Called? && e.next.running == Some(Running(op, e.last.drive))
              && Doing(op, at, marks + [e.last], e.last.drive)
  {
  }

  lemma StartDoes(w: World)
    requires Inv(w) && DoesInv(w) && Enabled(w.s, Start)
    ensures DoesInv(Step(w, Start))
  {
    var op, s := w.s.queue[0], Dequeued(w.s);
    var earlier, last := w.trace + EarlierMarks(w.s, Start), Next(w.s, Start).last;
    OneMore(w.trace, Started(op));
    if op.Configure? {
      OneMore(w.trace + [Started(op)], LockoutSet(op.lockout));
      assert earlier == w.trace + [Started(op)] + [LockoutSet(op.lockout)];
    }
    PlannedDoes(s, op, Watched(w.trace), if op.Configure? then [LockoutSet(op.lockout)] else []);
    OneMore(earlier, last);
  }

  lemma {:induction false} RunDoes(w: World, es: seq<Event>)
    requires Inv(w) && DoesInv(w)
    ensures DoesInv(Run(w, es))
    decreases es
  {
    if es != [] {
      var e := es[0];
      if Enabled(w.s, e) {
        if e.Start? { StartDoes(w); } else if e.Return? { ReturnDoes(w, e.ok); } else { OtherDoes(w, e); }
      }
      StepInv(w, e);
      RunDoes(Step(w, e), es[1..]);
    }
  }

  lemma ReachableDoes(w: World)
    requires Reachable(w)
    ensures DoesInv(w)
  {
    var es :| w == Run(World(INITIAL, []), es);
    RunInv(World(INITIAL, []), []);
    RunDoes(World(INITIAL, []), es);
  }

  // ---------------------------------------------------------------- from a start to its settling

  /** The marks in a stretch of a trace, calls of operations left out. */
  function Shown(marks: seq<Mark>): seq<Mark> {
    if marks == [] then []
    else Shown(marks[..|marks| - 1]) + if marks[|marks| - 1].Enqueued? then [] else [marks[|marks| - 1]]
  }

  /** The operation started at i and has not settled before j. */
  predicate Under(trace: seq<Mark>, i: int, j: int) {
    && 0 <= i < j <= |trace| && trace[i].Started?
    && forall k | i < k < j :: !trace[k].Settled? && !trace[k].Started?
  }

  lemma {:induction false} TurnUnder(trace: seq<Mark>, i: nat, j: nat)
    requires Under(trace, i, j)
    ensures TurnOf(trace[..j]) == Turn(i, trace[i].op, Watched(trace[..i]), Shown(trace[i + 1..j]))
    decreases j
  {
    if j == i + 1 {
      assert trace[..j] == trace[..i] + [trace[i]] && trace[i + 1..j] == [];
      OneMore(trace[..i], trace[i]);
    } else {
      TurnUnder(trace, i, j - 1);
      assert trace[..j] == trace[..j - 1] + [trace[j - 1]];
      OneMore(trace[..j - 1], trace[j - 1]);
      assert trace[i + 1..j][..j - 1 - (i + 1)] == trace[i + 1..j - 1];
      assert Shown(trace[i + 1..j - 1]) + [] == Shown(trace[i + 1..j - 1]);
    }
  }

  lemma {:induction false} DidAt(trace: seq<Mark>, j: nat)
    requires AllDid(trace) && j < |trace| && trace[j].Settled?
    ensures var t := TurnOf(trace[..j]); t.Turn? && Does(t.op, t.at, t.marks, trace[j].outcome)
  {
    if j == |trace| - 1 {
    } else {
      DidAt(trace[..|trace| - 1], j);
      assert trace[..|trace| - 1][..j] == trace[..j];
    }
  }

  /** In every run, from the start of an operation to its settling: a key-up calls PTT off, and so does a release
      with an owner, a release by the owner, and a lockout with an owner; a key-down is called if and only if nothing
      stands against it; nothing else is called; and the outcome is that of the driver's answer. */
  lemma OperationDoes(w: World, i: nat, j: nat)
    requires Reachable(w) && i < j < |w.trace| && w.trace[i].Started? && w.trace[j].Settled?
    requires forall k | i < k < j :: !w.trace[k].Settled?
    ensures Does(w.trace[i].op, Watched(w.trace[..i]), Shown(w.trace[i + 1..j]), w.trace[j].outcome)
  {
    ReachableDoes(w);
    forall k | i < k < j
      ensures !w.trace[k].Started?
    {
      if w.trace[k].Started? { OperationsAreSerial(w, i, k); }
    }
    TurnUnder(w.trace, i, j);
    DidAt(w.trace, j);
  }

  lemma {:induction false} ShownIn(marks: seq<Mark>, m: Mark)
    requires m in Shown(marks)
    ensures m in marks
  {
    if marks != [] && m in Shown(marks[..|marks| - 1]) { ShownIn(marks[..|marks| - 1], m); }
  }

  /** A key-up always reaches the driver, and it is done if and only if the driver confirmed it. */
  lemma KeyUpReachesTheDriver(w: World, i: nat, j: nat, c: ClientId)
    requires Reachable(w) && i < j < |w.trace| && w.trace[j].Settled?
    requires w.trace[i] == Started(SetManualPtt(c, false)) && forall k | i < k < j :: !w.trace[k].Settled?
    ensures Called(KeyUp) in w.trace[i + 1..j]
    ensures w.trace[j].outcome == Done <==> Returned(KeyUp, true) in w.trace[i + 1..j]
    ensures w.trace[j].outcome == Done || w.trace[j].outcome == Rejected
  {
    OperationDoes(w, i, j);
    var marks := Shown(w.trace[i + 1..j]);
    assert marks[0] in marks && marks[1] in marks;
    ShownIn(w.trace[i + 1..j], marks[0]);
    ShownIn(w.trace[i + 1..j], marks[1]);
    if Returned(KeyUp, true) in w.trace[i + 1..j] { InShown(w.trace[i + 1..j], Returned(KeyUp, true)); }
  }

  lemma {:induction false} InShown(marks: seq<Mark>, m: Mark)
    requires m in marks && !m.Enqueued?
    ensures m in Shown(marks)
  {
    var init := marks[..|marks| - 1];
    assert marks == init + [marks[|marks| - 1]];
    if m in init { InShown(init, m); }
  }

  // ---------------------------------------------------------------- what an operation leaves

  /** What the controller holds right after an operation that called the driver has settled. */
  predicate Leaves(s: State, drive: Drive, ok: bool) {
    match drive
    case KeyDown(c) =>
      if ok then s.owner == Some(c) && s.maxKeyDownArmed && !s.releaseRetryArmed && !s.releasePending
      else s.owner.None? && !s.releasePending
    case KeyUp => ok ==> s.owner.None? && !s.releasePending && !s.maxKeyDownArmed && !s.releaseRetryArmed
    case ReleaseOff =>
      if ok then s.owner.None? && !s.releasePending && !s.maxKeyDownArmed && !s.releaseRetryArmed
      else s.owner.Some? && s.releasePending && s.releaseRetryArmed
  }

  /** The last two marks are the driver's answer and the settling. */
  predicate JustSettled(trace: seq<Mark>) {
    |trace| >= 2 && trace[|trace| - 1].Settled? && trace[|trace| - 2].Returned?
  }

  predicate LeavesInv(w: World) {
    && (w.trace != [] && w.trace[|w.trace| - 1].Settled? ==> |w.trace| >= 2 && !w.trace[|w.trace| - 2].Enqueued?)
    && (JustSettled(w.trace) ==> Leaves(w.s, w.trace[|w.trace| - 2].drive, w.trace[|w.trace| - 2].ok))
  }

  lemma ReturnLeaves(s: State, ok: bool)
    requires OwnerSafe(s) && Enabled(s, Return(ok))
    ensures Leaves(DriverReturns(s, ok).next, s.running.value.drive, ok)
  {
  }

  lemma StepLeaves(w: World, e: Event)
    requires Inv(w) && LeavesInv(w)
    ensures LeavesInv(Step(w, e))
  {
    if Enabled(w.s, e) {
      var t := Step(w, e).trace;
      match e
      case Return(ok) =>
        ReturnLeaves(w.s, ok);
        assert t[|t| - 2] == Returned(w.s.running.value.drive, ok);
      case Start => assert t[|t| - 2].Started? || t[|t| - 2].LockoutSet?;
      case _ => assert !t[|t| - 1].Settled?;
    }
  }

  lemma {:induction false} RunLeaves(w: World, es: seq<Event>)
    requires Inv(w) && LeavesInv(w)
    ensures LeavesInv(Run(w, es))
    decreases es
  {
    if es != [] {
      StepLeaves(w, es[0]);
      StepInv(w, es[0]);
      RunLeaves(Step(w, es[0]), es[1..]);
    }
  }

  /** In every run, right after an operation that called the driver: a confirmed PTT-off leaves no owner, no pending
      release and both timers clear; a confirmed key-down leaves its client as owner with the key-down timer armed;
      a failed release leaves owner and pending release, and the retry timer armed. */
  lemma SettlingLeaves(w: World)
    requires Reachable(w) && JustSettled(w.trace)
    ensures Leaves(w.s, w.trace[|w.trace| - 2].drive, w.trace[|w.trace| - 2].ok)
  {
    ReachableLeaves(w);
  }

  lemma ReachableLeaves(w: World)
    requires Reachable(w)
    ensures LeavesInv(w)
  {
    var es :| w == Run(World(INITIAL, []), es);
    RunLeaves(World(INITIAL, []), es);
  }

  /** A key-up that is done leaves the radio released: no owner, nothing pending, no timer armed. */
  lemma KeyUpReleases(w: World, i: nat, c: ClientId)
    requires Reachable(w) && i < |w.trace| - 1 && w.trace[|w.trace| - 1] == Settled(Done)
    requires w.trace[i] == Started(SetManualPtt(c, false)) && forall k | i < k < |w.trace| - 1 :: !w.trace[k].Settled?
    ensures w.s.owner.None? && !w.s.releasePending && !w.s.maxKeyDownArmed && !w.s.releaseRetryArmed
  {
    var j := |w.trace| - 1;
    OperationDoes(w, i, j);
    ReachableLeaves(w);
    LastShown(w.trace[i + 1..j]);
  }

  lemma LastShown(marks: seq<Mark>)
    requires marks != [] && !marks[|marks| - 1].Enqueued?
    ensures Shown(marks) != [] && Shown(marks)[|Shown(marks)| - 1] == marks[|marks| - 1]
  {
  }

  /** The timers move only so: a call or a start leaves them, and one that fires disarms itself and queues a
      release behind everything else. */
  lemma TimersMove(w: World, e: Event)
    requires Enabled(w.s, e) && !e.Return?
    ensures var t := Step(w, e).s;
            && t.maxKeyDownArmed == (w.s.maxKeyDownArmed && !e.MaxKeyDownFires?)
            && t.releaseRetryArmed == (w.s.releaseRetryArmed && !e.ReleaseRetryFires?)
            && (e.MaxKeyDownFires? || e.ReleaseRetryFires? ==>
                  t == w.s.(queue := w.s.queue + [Release], maxKeyDownArmed := t.maxKeyDownArmed,
                            releaseRetryArmed := t.releaseRetryArmed))
  {
  }
}
