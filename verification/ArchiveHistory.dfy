/** The histories of the archive worker against the run they come from: each thing a worker saw was so in one
    state of that run, in the order in which the worker saw it. */
module ArchiveHistory {
  import opened ArchiveSeal
  import opened Parquet

  /** The state before the q-th event. */
  function StateAt(d: Dataset, s: State, es: seq<Event>, q: nat): State
    requires q <= |es|
  {
    Run(d, s, es[..q])
  }

  /** What a sight says of the state in which it was had. */
  predicate Shows(t: State, x: Sight) {
    match x
    case WatermarksCovered => t.watermarks
    case BoundsSeen(rows) => rows == t.source
    case CountsSeen(rows) => rows == t.source
    case NoCounts => true
    case CoverageSeen(coverage) => coverage == t.coverage
    case FileWritten(rows, _) => rows == t.source
    case ObjectReread(content) => content in t.store.Values
  }

  /** The q-th event is a step of worker w, and what it sees is x. */
  predicate SeenAt(d: Dataset, s: State, es: seq<Event>, w: WorkerId, q: nat, x: Sight) {
    q < |es| && es[q].Advance? && es[q].w == w && Shows(StateAt(d, s, es, q), x)
  }

  /** Worker w saw h, one thing after the other, at these events. */
  predicate Happened(d: Dataset, s: State, es: seq<Event>, w: WorkerId, at: seq<nat>, h: seq<Sight>) {
    && |at| == |h|
    && (forall k | 0 <= k < |at| :: SeenAt(d, s, es, w, at[k], h[k]))
    && (forall j, k | 0 <= j < k < |at| :: at[j] < at[k])
  }

  ghost predicate SawIt(d: Dataset, s: State, es: seq<Event>, w: WorkerId, h: seq<Sight>) {
    exists at: seq<nat> :: Happened(d, s, es, w, at, h)
  }

  lemma SeenStays(d: Dataset, s: State, es: seq<Event>, e: Event, w: WorkerId, q: nat, x: Sight)
    requires SeenAt(d, s, es, w, q, x)
    ensures SeenAt(d, s, es + [e], w, q, x)
  {
    assert (es + [e])[..q] == es[..q];
  }

  lemma SawStays(d: Dataset, s: State, es: seq<Event>, e: Event, w: WorkerId, h: seq<Sight>)
    requires SawIt(d, s, es, w, h)
    ensures SawIt(d, s, es + [e], w, h)
  {
    var at: seq<nat> :| Happened(d, s, es, w, at, h);
    forall k | 0 <= k < |at|
      ensures SeenAt(d, s, es + [e], w, at[k], h[k])
    {
      SeenStays(d, s, es, e, w, at[k], h[k]);
    }
    assert Happened(d, s, es + [e], w, at, h);
  }

  lemma SawMore(d: Dataset, s: State, es: seq<Event>, e: Event, w: WorkerId, h: seq<Sight>, x: Sight)
    requires SawIt(d, s, es, w, h) && e.Advance? && e.w == w && Shows(Run(d, s, es), x)
    ensures SawIt(d, s, es + [e], w, h + [x])
  {
    var at: seq<nat> :| Happened(d, s, es, w, at, h);
    forall k | 0 <= k < |at|
      ensures SeenAt(d, s, es + [e], w, at[k], h[k])
    {
      SeenStays(d, s, es, e, w, at[k], h[k]);
    }
    assert (es + [e])[..|es|] == es;
    assert Happened(d, s, es + [e], w, at + [|es|], h + [x]);
  }

  // ---------------------------------------------------------------- one step

  /** The history a worker inside the lock block has after a step. */
  datatype Growth = Restarted | Same | Grew(sight: Sight)

  predicate Grows(t: State, e: Event, w: WorkerId, k: Worker, g: Growth) {
    match g
    case Restarted => k.history == []
    case Same => w in t.workers && !t.workers[w].pc.Idle? && k.history == t.workers[w].history
    case Grew(x) =>
      && w in t.workers && !t.workers[w].pc.Idle? && k.history == t.workers[w].history + [x]
      && e.Advance? && e.w == w && Shows(t, x)
  }

  /** Of what a worker had seen to what it has seen: nothing, or one thing that is so now. */
  predicate Glimpse(t: State, h: seq<Sight>, g: seq<Sight>) {
    g == h || (|g| == |h| + 1 && g == h + [g[|h|]] && Shows(t, g[|h|]))
  }

  lemma ReadSourceGlimpse(d: Dataset, t: State, k: Worker, io: Input)
    ensures Glimpse(t, k.history, ReadSource(d, t, k, io).history)
  {
  }

  lemma ReadAgainGlimpse(d: Dataset, t: State, k: Worker, io: Input)
    ensures Glimpse(t, k.history, ReadAgain(d, t, k, io).history)
  {
  }

  lemma ReadObjectGlimpse(d: Dataset, t: State, k: Worker)
    ensures Glimpse(t, k.history, ReadObject(d, t, k).history)
  {
  }

  /** A reading step sees nothing, or one thing that is so now. */
  lemma ReadGrows(d: Dataset, t: State, k: Worker, io: Input) returns (g: Growth)
    ensures g == Same || g.Grew?
    ensures Read(d, t, k, io).history == if g.Grew? then k.history + [g.sight] else k.history
    ensures g.Grew? ==> Shows(t, g.sight)
  {
    ReadSourceGlimpse(d, t, k, io);
    ReadAgainGlimpse(d, t, k, io);
    ReadObjectGlimpse(d, t, k);
    var h := Read(d, t, k, io).history;
    assert Glimpse(t, k.history, h);
    g := if h == k.history then Same else Grew(h[|k.history|]);
  }

  lemma ActorGrows(d: Dataset, t: State, e: Event, w: WorkerId) returns (g: Growth)
    requires Enabled(d, t, e) && (e.Advance? || e.AdvanceUnacknowledged?) && e.w == w
    ensures Grows(t, e, w, Next(d, t, e).workers[w], g)
  {
    var k := t.workers[w];
    if e.Advance? && !Writes(k.pc) && !k.pc.AtUnlock? {
      g := ReadGrows(d, t, k, e.io);
    } else {
      if Effect(d, t, k).Some? { EffectFrame(d, t, k); }
      g := Same;
    }
  }

  lemma StepGrows(d: Dataset, t: State, e: Event, w: WorkerId) returns (g: Growth)
    requires w in Step(d, t, e).workers && !Step(d, t, e).workers[w].pc.Idle?
    ensures Grows(t, e, w, Step(d, t, e).workers[w], g)
  {
    if Enabled(d, t, e) && (e.Advance? || e.AdvanceUnacknowledged?) {
      if e.w == w {
        g := ActorGrows(d, t, e, w);
      } else {
        if Effect(d, t, t.workers[e.w]).Some? { EffectFrame(d, t, t.workers[e.w]); }
        g := Same;
      }
    } else {
      g := if Enabled(d, t, e) && e.TakeLock? && e.w == w then Restarted else Same;
    }
  }

  /** A step makes at most one seal, with the history of the worker that makes it. */
  lemma StepSeals(d: Dataset, t: State, e: Event)
    ensures var u := Step(d, t, e);
            || u.seals == t.seals
            || (&& (e.Advance? || e.AdvanceUnacknowledged?) && e.w in t.workers && !t.workers[e.w].pc.Idle?
                && |u.seals| == |t.seals| + 1 && u.seals[..|t.seals|] == t.seals
                && u.seals[|t.seals|].history == t.workers[e.w].history)
  {
  }

  // ---------------------------------------------------------------- whole runs

  ghost predicate WorkersSawIt(d: Dataset, s: State, es: seq<Event>) {
    var t := Run(d, s, es);
    forall w | w in t.workers && !t.workers[w].pc.Idle? :: SawIt(d, s, es, w, t.workers[w].history)
  }

  ghost predicate SomeoneSaw(d: Dataset, s: State, es: seq<Event>, h: seq<Sight>) {
    exists w :: SawIt(d, s, es, w, h)
  }

  ghost predicate SealersSawIt(d: Dataset, s: State, es: seq<Event>) {
    forall i | 0 <= i < |Run(d, s, es).seals| :: SomeoneSaw(d, s, es, Run(d, s, es).seals[i].history)
  }

  lemma WorkersStep(d: Dataset, s: State, es: seq<Event>, e: Event)
    requires WorkersSawIt(d, s, es)
    ensures WorkersSawIt(d, s, es + [e])
  {
    RunThenStep(d, s, es, e);
    var t, u := Run(d, s, es), Run(d, s, es + [e]);
    forall w | w in u.workers && !u.workers[w].pc.Idle?
      ensures SawIt(d, s, es + [e], w, u.workers[w].history)
    {
      var g := StepGrows(d, t, e, w);
      match g
      case Restarted => assert Happened(d, s, es + [e], w, [], []);
      case Same => SawStays(d, s, es, e, w, t.workers[w].history);
      case Grew(x) => SawMore(d, s, es, e, w, t.workers[w].history, x);
    }
  }

  lemma SealersStep(d: Dataset, s: State, es: seq<Event>, e: Event)
    requires WorkersSawIt(d, s, es) && SealersSawIt(d, s, es)
    ensures SealersSawIt(d, s, es + [e])
  {
    RunThenStep(d, s, es, e);
    var t, u := Run(d, s, es), Run(d, s, es + [e]);
    StepSeals(d, t, e);
    forall i | 0 <= i < |u.seals|
      ensures SomeoneSaw(d, s, es + [e], u.seals[i].history)
    {
      if i < |t.seals| {
        assert u.seals[i] == t.seals[i];
        var w :| SawIt(d, s, es, w, t.seals[i].history);
        SawStays(d, s, es, e, w, t.seals[i].history);
      } else {
        SawStays(d, s, es, e, e.w, t.workers[e.w].history);
      }
    }
  }

  lemma {:induction false} RunSaw(d: Dataset, s: State, es: seq<Event>)
    requires Initial(s)
    ensures WorkersSawIt(d, s, es) && SealersSawIt(d, s, es)
    decreases |es|
  {
    if es != [] {
      var init, e := es[..|es| - 1], es[|es| - 1];
      RunSaw(d, s, init);
      WorkersStep(d, s, init, e);
      SealersStep(d, s, init, e);
      assert init + [e] == es;
    }
  }

  /** Every seal of a run was made by a worker to which its whole history happened: ten steps of that worker, in
      order, each of which saw what the state of the run then held. */
  lemma SealHappened(d: Dataset, s: State, es: seq<Event>, i: nat) returns (w: WorkerId, at: seq<nat>)
    requires Injective(d) && Initial(s) && i < |Run(d, s, es).seals|
    ensures Justified(d, Run(d, s, es).seals[i]) && |at| == 10
    ensures Happened(d, s, es, w, at, Run(d, s, es).seals[i].history)
  {
    RunSaw(d, s, es);
    RunInv(d, s, es);
    var h := Run(d, s, es).seals[i].history;
    assert SomeoneSaw(d, s, es, h);
    w :| SawIt(d, s, es, w, h);
    at :| Happened(d, s, es, w, at, h);
  }

  // ---------------------------------------------------------------- a reading and the writes in it

  function SourceAt(d: Dataset, s: State, es: seq<Event>, q: nat): seq<Row>
    requires q <= |es|
  {
    StateAt(d, s, es, q).source
  }

  /** The q-th event writes to the source and changes its grouped counts. */
  predicate CountsMove(d: Dataset, s: State, es: seq<Event>, q: nat) {
    && q < |es| && es[q].SourceWrites?
    && CountsOf(SourceAt(d, s, es, q), true) != CountsOf(SourceAt(d, s, es, q + 1), true)
  }

  lemma OnlyWritesMove(d: Dataset, t: State, e: Event)
    ensures Step(d, t, e).source != t.source ==> e.SourceWrites?
  {
    if Enabled(d, t, e) && (e.Advance? || e.AdvanceUnacknowledged?) {
      var k := t.workers[e.w];
      assert Effect(d, t, k).Some? ==> Effect(d, t, k).value.source == t.source;
    }
  }

  lemma {:induction false} CountsStay(d: Dataset, s: State, es: seq<Event>, p: nat, q: nat)
    requires p <= q <= |es| && forall r: nat | p <= r < q :: !CountsMove(d, s, es, r)
    ensures CountsOf(SourceAt(d, s, es, p), true) == CountsOf(SourceAt(d, s, es, q), true)
    decreases q - p
  {
    if p < q {
      CountsStay(d, s, es, p, q - 1);
      assert es[..q] == es[..q - 1] + [es[q - 1]];
      RunThenStep(d, s, es[..q - 1], es[q - 1]);
      OnlyWritesMove(d, StateAt(d, s, es, q - 1), es[q - 1]);
      assert !CountsMove(d, s, es, q - 1);
    }
  }

  /** The statements of a reading ran at p and q: the source at p had the summary x if and only if it had the same
      grouped counts at q; and if not, a write between the two changed them. */
  predicate ReadingIs(d: Dataset, s: State, es: seq<Event>, x: Summary, p: nat, q: nat)
    requires p < q <= |es|
  {
    var a, b := SourceAt(d, s, es, p), SourceAt(d, s, es, q);
    && (Summarizes(x, a, d.counted) <==> d.counted ==> CountsOf(a, true) == CountsOf(b, true))
    && (!Summarizes(x, a, d.counted) ==> exists r: nat | p < r < q :: CountsMove(d, s, es, r))
  }

  lemma ReadingHappened(d: Dataset, s: State, es: seq<Event>, x: Seal, j: int, w: WorkerId, p: nat, q: nat)
    requires Justified(d, x) && (j == 1 || j == 5) && p < q
    requires SeenAt(d, s, es, w, p, x.history[j]) && SeenAt(d, s, es, w, q, x.history[j + 1])
    ensures ReadingIs(d, s, es, x.manifest.summary, p, q)
  {
    OneStateIff(d, x, j);
    if forall r: nat | p < r < q :: !CountsMove(d, s, es, r) {
      assert !CountsMove(d, s, es, p);
      CountsStay(d, s, es, p, q);
    }
  }

  /** The two readings of a sealed partition's source, as they happened in the run: the summary is that of the
      source at the first statement if and only if the source had the same grouped counts at the second. So it is
      whenever no write between the two statements changed them; and if it is not, there was such a write. */
  lemma ReadingsInRun(d: Dataset, s: State, es: seq<Event>, i: nat) returns (w: WorkerId, at: seq<nat>)
    requires Injective(d) && Initial(s) && i < |Run(d, s, es).seals|
    ensures |at| == 10 && Happened(d, s, es, w, at, Run(d, s, es).seals[i].history)
    ensures at[1] < at[2] <= |es| && ReadingIs(d, s, es, Run(d, s, es).seals[i].manifest.summary, at[1], at[2])
    ensures at[5] < at[6] <= |es| && ReadingIs(d, s, es, Run(d, s, es).seals[i].manifest.summary, at[5], at[6])
  {
    w, at := SealHappened(d, s, es, i);
    var x := Run(d, s, es).seals[i];
    assert SeenAt(d, s, es, w, at[1], x.history[1]) && SeenAt(d, s, es, w, at[2], x.history[2]);
    assert SeenAt(d, s, es, w, at[5], x.history[5]) && SeenAt(d, s, es, w, at[6], x.history[6]);
    ReadingHappened(d, s, es, x, 1, w, at[1], at[2]);
    ReadingHappened(d, s, es, x, 5, w, at[5], at[6]);
  }
}
