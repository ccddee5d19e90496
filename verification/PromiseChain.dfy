/** The promise chain with which the bridge's controllers run their operations one after the other. Promises,
    reactions and the job queue behave as ECMAScript's. */
module PromiseChain {
  import opened Common

  // An operation is hung on a tail promise with `then(operation, operation)`, and the new tail
  // on its result with `then(noop, noop)`.

  type PromiseId = nat

  datatype Status = Pending | Fulfilled | Rejected

  /** A callback given to `then`: it starts an operation, or returns undefined. */
  datatype Handler<Op> = Runs(op: Op) | Ignores

  datatype Reaction<Op> =
    Reaction(onFulfilled: Option<Handler<Op>>, onRejected: Option<Handler<Op>>, derived: PromiseId)

  datatype Promise<Op> = Promise(status: Status, reactions: seq<Reaction<Op>>)

  /** A queued reaction; without a handler the derived promise settles as the first one did. */
  datatype Job<Op> = Job(handler: Option<Handler<Op>>, fulfilled: bool, derived: PromiseId)

  /** An operation that was started and has not settled; its result promise settles with it. */
  datatype Active<Op> = Active(op: Op, result: PromiseId)

  datatype Loop<Op> = Loop(promises: seq<Promise<Op>>, jobs: seq<Job<Op>>, active: seq<Active<Op>>)

  // ---------------------------------------------------------------- promises

  function JobOf<Op>(r: Reaction<Op>, fulfilled: bool): Job<Op> {
    Job(if fulfilled then r.onFulfilled else r.onRejected, fulfilled, r.derived)
  }

  function JobsOf<Op>(rs: seq<Reaction<Op>>, fulfilled: bool): seq<Job<Op>> {
    if rs == [] then [] else [JobOf(rs[0], fulfilled)] + JobsOf(rs[1..], fulfilled)
  }

  /** promise.then: the reaction waits for the promise, or is queued at once if that has settled. */
  function Then<Op>(l: Loop<Op>, p: PromiseId, onFulfilled: Option<Handler<Op>>, onRejected: Option<Handler<Op>>):
    (Loop<Op>, PromiseId)
    requires p < |l.promises|
  {
    var derived := |l.promises|;
    var r, q := Reaction(onFulfilled, onRejected, derived), l.promises[p];
    var promises := l.promises + [Promise(Pending, [])];
    if q.status.Pending? then (l.(promises := promises[p := q.(reactions := q.reactions + [r])]), derived)
    else (l.(promises := promises, jobs := l.jobs + [JobOf(r, q.status.Fulfilled?)]), derived)
  }

  /** A pending promise settles and its reactions are queued. */
  function Settle<Op>(l: Loop<Op>, p: PromiseId, ok: bool): Loop<Op>
    requires p < |l.promises|
  {
    var q := l.promises[p];
    if !q.status.Pending? then l
    else l.(promises := l.promises[p := Promise(if ok then Fulfilled else Rejected, [])],
            jobs := l.jobs + JobsOf(q.reactions, ok))
  }

  /** The first queued job runs. */
  function RunJob<Op>(l: Loop<Op>): Loop<Op>
    requires l.jobs != [] && l.jobs[0].derived < |l.promises|
  {
    var job, rest := l.jobs[0], l.(jobs := l.jobs[1..]);
    match job.handler
    case None => Settle(rest, job.derived, job.fulfilled)
    case Some(Ignores) => Settle(rest, job.derived, true)
    case Some(Runs(op)) => rest.(active := l.active + [Active(op, job.derived)])
  }

  /** An operation under way settles, and its result with it. */
  function OperationSettles<Op>(l: Loop<Op>, i: nat, ok: bool): Loop<Op>
    requires i < |l.active| && l.active[i].result < |l.promises|
  {
    Settle(l.(active := l.active[..i] + l.active[i + 1..]), l.active[i].result, ok)
  }

  // ---------------------------------------------------------------- the chain

  /** The operations hung on the chain, those begun, and how those that ended did. */
  datatype Log<Op> = Log(enqueued: seq<Op>, began: seq<Op>, ended: seq<bool>)

  datatype Chain<Op> = Chain(loop: Loop<Op>, tail: PromiseId, log: Log<Op>)

  function Initial<Op>(): Chain<Op> { Chain(Loop([Promise(Fulfilled, [])], [], []), 0, Log([], [], [])) }

  /** enqueue: result = tail.then(op, op); tail = result.then(noop, noop). */
  function Enqueue<Op>(c: Chain<Op>, op: Op): Chain<Op>
    requires c.tail < |c.loop.promises|
  {
    var (hung, result) := Then(c.loop, c.tail, Some(Runs(op)), Some(Runs(op)));
    var (loop, tail) := Then(hung, result, Some(Ignores), Some(Ignores));
    Chain(loop, tail, c.log.(enqueued := c.log.enqueued + [op]))
  }

  datatype Event<Op> = Enqueues(op: Op) | JobRuns | Settles(i: nat, ok: bool)

  predicate Enabled<Op>(c: Chain<Op>, e: Event<Op>) {
    match e
    case Enqueues(_) => c.tail < |c.loop.promises|
    case JobRuns => c.loop.jobs != [] && c.loop.jobs[0].derived < |c.loop.promises|
    case Settles(i, _) => i < |c.loop.active| && c.loop.active[i].result < |c.loop.promises|
  }

  /** The job calls an operation. */
  predicate IsStart<Op>(j: Job<Op>) { j.handler.Some? && j.handler.value.Runs? }

  function Next<Op>(c: Chain<Op>, e: Event<Op>): Chain<Op>
    requires Enabled(c, e)
  {
    match e
    case Enqueues(op) => Enqueue(c, op)
    case JobRuns =>
      var began := if IsStart(c.loop.jobs[0]) then [c.loop.jobs[0].handler.value.op] else [];
      c.(loop := RunJob(c.loop), log := c.log.(began := c.log.began + began))
    case Settles(i, ok) => c.(loop := OperationSettles(c.loop, i, ok), log := c.log.(ended := c.log.ended + [ok]))
  }

  function Step<Op>(c: Chain<Op>, e: Event<Op>): Chain<Op> { if Enabled(c, e) then Next(c, e) else c }

  function Run<Op>(c: Chain<Op>, es: seq<Event<Op>>): Chain<Op>
    decreases es
  {
    if es == [] then c else Run(Step(c, es[0]), es[1..])
  }

  // ---------------------------------------------------------------- the invariant

  /** Where the chain stands: nothing to do; the next operation's job queued; an operation under way; its result
      settled and the job of its tail queued. */
  datatype Stand = Idle | Ready | Busy | Settling

  /** The p-th promise when d operations are behind: even ones are tails, odd ones results. */
  ghost predicate InPlace<Op>(q: Promise<Op>, p: nat, ops: seq<Op>, d: nat, settled: bool) {
    var i := p / 2;
    if p % 2 == 0 then
      if i <= d then q.status.Fulfilled?
      else q == Promise(Pending, if i < |ops| then [Reaction(Some(Runs(ops[i])), Some(Runs(ops[i])), p + 1)] else [])
    else if i < d || (i == d && settled) then !q.status.Pending?
    else q == Promise(Pending, [Reaction(Some(Ignores), Some(Ignores), p + 1)])
  }

  ghost predicate Promises<Op>(ps: seq<Promise<Op>>, ops: seq<Op>, d: nat, settled: bool) {
    |ps| == 2 * |ops| + 1 && forall p | 0 <= p < |ps| :: InPlace(ps[p], p, ops, d, settled)
  }

  ghost predicate Stands<Op>(c: Chain<Op>, d: nat, at: Stand) {
    var ops, l := c.log.enqueued, c.loop;
    && c.tail == 2 * |ops| && d <= |ops| && c.log.began <= ops
    && Promises(l.promises, ops, d, at.Settling?)
    && match at
       case Idle => d == |ops| && |c.log.began| == |c.log.ended| == d && l.jobs == [] && l.active == []
       case Ready =>
         && d < |ops| && |c.log.began| == |c.log.ended| == d && l.active == []
         && l.jobs == [Job(Some(Runs(ops[d])), true, 2 * d + 1)]
       case Busy =>
         && d < |ops| && |c.log.began| == d + 1 && |c.log.ended| == d && l.jobs == []
         && l.active == [Active(ops[d], 2 * d + 1)]
       case Settling =>
         && d < |ops| && |c.log.began| == |c.log.ended| == d + 1 && l.active == []
         && l.jobs == [Job(Some(Ignores), c.log.ended[d], 2 * d + 2)]
  }

  ghost predicate Inv<Op>(c: Chain<Op>) {
    exists d: nat, at: Stand :: Stands(c, d, at)
  }

  lemma EnqueueStands<Op>(c: Chain<Op>, d: nat, at: Stand, op: Op)
    requires Stands(c, d, at)
    ensures Stands(Enqueue(c, op), d, if at.Idle? then Ready else at)
  {
  }

  lemma JobsOfOne<Op>(rs: seq<Reaction<Op>>, ok: bool)
    requires |rs| <= 1
    ensures JobsOf(rs, ok) == if rs == [] then [] else [JobOf(rs[0], ok)]
  {
  }

  lemma JobStands<Op>(c: Chain<Op>, d: nat, at: Stand)
    requires Stands(c, d, at) && Enabled(c, JobRuns)
    ensures at.Ready? || at.Settling?
    ensures at.Ready? ==> Stands(Next(c, JobRuns), d, Busy)
    ensures at.Settling? ==> Stands(Next(c, JobRuns), d + 1, if d + 1 < |c.log.enqueued| then Ready else Idle)
  {
    if at.Settling? {
      var p := 2 * (d + 1);
      assert InPlace(c.loop.promises[p], p, c.log.enqueued, d, true);
      JobsOfOne(c.loop.promises[p].reactions, true);
    }
  }

  lemma SettleStands<Op>(c: Chain<Op>, d: nat, at: Stand, i: nat, ok: bool)
    requires Stands(c, d, at) && Enabled(c, Settles(i, ok))
    ensures at.Busy? && i == 0 && Stands(Next(c, Settles(i, ok)), d, Settling)
  {
    var p := 2 * d + 1;
    assert InPlace(c.loop.promises[p], p, c.log.enqueued, d, false);
    JobsOfOne(c.loop.promises[p].reactions, ok);
  }

  // ---------------------------------------------------------------- what a user of the chain sees

  lemma EnqueueKeeps<Op>(c: Chain<Op>, op: Op)
    requires Inv(c)
    ensures Enabled(c, Enqueues(op)) && Inv(Enqueue(c, op)) && Enqueue(c, op).loop.active == c.loop.active
    ensures |c.log.began| <= |c.log.enqueued|
  {
    var d: nat, at: Stand :| Stands(c, d, at);
    EnqueueStands(c, d, at, op);
  }

  /** A queued job either begins the operation that is next, none being under way, or nothing that shows. */
  lemma JobKeeps<Op>(c: Chain<Op>)
    requires Inv(c) && c.loop.jobs != []
    ensures Enabled(c, JobRuns) && Inv(Next(c, JobRuns)) && c.loop.active == []
    ensures var t, b := Next(c, JobRuns), |c.log.began|;
            if IsStart(c.loop.jobs[0]) then
              && b < |c.log.enqueued| && c.loop.jobs[0].handler.value.op == c.log.enqueued[b]
              && t.log == c.log.(began := c.log.began + [c.log.enqueued[b]])
              && |t.loop.active| == 1 && t.loop.active[0].op == c.log.enqueued[b]
            else t.log == c.log && t.loop.active == []
  {
    var d: nat, at: Stand :| Stands(c, d, at);
    assert at.Ready? || at.Settling?;
    JobStands(c, d, at);
  }

  lemma SettleKeeps<Op>(c: Chain<Op>, ok: bool)
    requires Inv(c) && c.loop.active != []
    ensures Enabled(c, Settles(0, ok)) && Inv(Next(c, Settles(0, ok))) && Next(c, Settles(0, ok)).loop.active == []
  {
    var d: nat, at: Stand :| Stands(c, d, at);
    assert at.Busy?;
    SettleStands(c, d, at, 0, ok);
  }

  /** While an operation waits and none is under way, a job is queued. */
  lemma JobQueued<Op>(c: Chain<Op>)
    requires Inv(c) && c.loop.active == [] && |c.log.began| < |c.log.enqueued|
    ensures c.loop.jobs != []
  {
  }

  lemma StepStands<Op>(c: Chain<Op>, e: Event<Op>)
    requires Inv(c)
    ensures Inv(Step(c, e))
  {
    if Enabled(c, e) {
      var d: nat, at: Stand :| Stands(c, d, at);
      match e
      case Enqueues(op) => EnqueueStands(c, d, at, op);
      case JobRuns => JobStands(c, d, at);
      case Settles(i, ok) => SettleStands(c, d, at, i, ok);
    }
  }

  lemma {:induction false} RunStands<Op>(c: Chain<Op>, es: seq<Event<Op>>)
    requires Inv(c)
    ensures Inv(Run(c, es))
    decreases es
  {
    if es != [] {
      StepStands(c, es[0]);
      RunStands(Step(c, es[0]), es[1..]);
    }
  }

  ghost predicate Reachable<Op(!new)>(c: Chain<Op>) {
    exists es :: c == Run(Initial(), es)
  }

  lemma ReachableStands<Op(!new)>(c: Chain<Op>)
    requires Reachable(c)
    ensures Inv(c)
  {
    var es :| c == Run(Initial(), es);
    assert Stands(Initial<Op>(), 0, Idle);
    RunStands(Initial<Op>(), es);
  }

  // ---------------------------------------------------------------- main results

  /** Operations begin in the order they were enqueued, and none begins before the one before it has settled: in
      every reachable state at most one has begun and not ended, and it is the last begun. */
  lemma OneAtATime<Op(!new)>(c: Chain<Op>)
    requires Reachable(c)
    ensures c.log.began <= c.log.enqueued
    ensures |c.log.ended| <= |c.log.began| <= |c.log.ended| + 1
    ensures |c.loop.active| == |c.log.began| - |c.log.ended|
    ensures c.loop.active != [] ==> c.loop.active[0].op == c.log.began[|c.log.began| - 1]
  {
    ReachableStands(c);
  }

  /** No tail is ever rejected, whatever the operations do: each operation is started by its tail's fulfilment, and
      the second callback of then(operation, operation) is never called. */
  lemma TailsNeverReject<Op(!new)>(c: Chain<Op>, i: nat)
    requires Reachable(c) && 2 * i < |c.loop.promises|
    ensures !c.loop.promises[2 * i].status.Rejected?
    ensures forall j | 0 <= j < |c.loop.jobs| :: IsStart(c.loop.jobs[j]) ==> c.loop.jobs[j].fulfilled
  {
    ReachableStands(c);
    var d: nat, at: Stand :| Stands(c, d, at);
    assert InPlace(c.loop.promises[2 * i], 2 * i, c.log.enqueued, d, at.Settling?);
  }

  /** Nothing stops the chain: while an operation waits and none is under way a job is queued, and after at most two
      jobs the next operation has begun, however the ones before it ended. */
  lemma NextBegins<Op(!new)>(c: Chain<Op>)
    requires Reachable(c) && c.loop.active == [] && |c.log.began| < |c.log.enqueued|
    ensures Enabled(c, JobRuns)
    ensures var t, b := Step(c, JobRuns), |c.log.began|;
            || t.log.began == c.log.enqueued[..b + 1]
            || (t.log == c.log && Step(t, JobRuns).log.began == c.log.enqueued[..b + 1])
  {
    ReachableStands(c);
    var d: nat, at: Stand :| Stands(c, d, at);
    assert Enabled(c, JobRuns);
    JobStands(c, d, at);
    if at.Settling? { JobStands(Step(c, JobRuns), d + 1, Ready); }
  }
}
