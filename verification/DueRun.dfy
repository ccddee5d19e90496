/**
 The scheduled archive run: round after round, the first due partition of every enabled
 dataset is archived, until a limit is reached or a round finds nothing due.
 */
module DueRun {
  import opened Calendar
  import opened Common
  import opened Partitions

  type Partition = (Time, Time)

  datatype Dataset = Dataset(granularity: Granularity, oldest: Option<Time>)

  datatype Receipt = Receipt(dataset: string, partition: Partition)

  datatype RunError = UnsupportedDatasets | ArchiveRaised(dataset: string)

  /** The manifests that count as live, by dataset, beside the source tables. */
  class Archive {
    const datasets: map<string, Dataset>
    var live: map<string, set<Partition>>

    predicate Valid()
      reads this
    {
      && live.Keys == datasets.Keys
      && forall n | n in datasets :: datasets[n].oldest.Some? ==> ValidTime(datasets[n].oldest.value)
    }

    constructor (datasets: map<string, Dataset>, live: map<string, set<Partition>>)
      requires live.Keys == datasets.Keys
      requires forall n | n in datasets :: datasets[n].oldest.Some? ==> ValidTime(datasets[n].oldest.value)
      ensures Valid() && this.datasets == datasets && this.live == live
    {
      this.datasets, this.live := datasets, live;
    }

    predicate DueHere(n: string, s: Time, now: Time, settleMinutes: int)
      requires Valid() && n in datasets
      reads this
    {
      Due(s, datasets[n].oldest, datasets[n].granularity, now, settleMinutes, live[n])
    }

    /** archive_partition as its caller sees it: it returns with a live manifest, or raises and leaves
        the manifests as they were or with this one registered. */
    method ArchivePartition(n: string, p: Partition) returns (ok: bool)
      requires Valid() && n in datasets
      modifies `live
      ensures Valid()
      ensures ok ==> live == old(live)[n := old(live)[n] + {p}]
      ensures !ok ==> live == old(live) || live == old(live)[n := old(live)[n] + {p}]
    {
      var registered: bool;
      ok, registered := *, *;
      if ok || registered { live := live[n := live[n] + {p}]; }
    }
  }

  predicate Distinct(receipts: seq<Receipt>) {
    forall i, j | 0 <= i < j < |receipts| :: receipts[i] != receipts[j]
  }

  /** The receipts are of different partitions, each live now and none live at the start of the run. */
  predicate Account(receipts: seq<Receipt>, start: map<string, set<Partition>>, live: map<string, set<Partition>>) {
    && Distinct(receipts)
    && (forall n | n in start :: n in live && start[n] <= live[n])
    && (forall i | 0 <= i < |receipts| ::
          && receipts[i].dataset in start && receipts[i].dataset in live
          && receipts[i].partition in live[receipts[i].dataset]
          && receipts[i].partition !in start[receipts[i].dataset])
  }

  /** Every receipt is for one whole partition that had closed at `now`. */
  predicate AllClosed(datasets: map<string, Dataset>, receipts: seq<Receipt>, now: Time, settleMinutes: int) {
    forall i | 0 <= i < |receipts| ::
      receipts[i].dataset in datasets
      && Closed(datasets[receipts[i].dataset].granularity, receipts[i].partition, now, settleMinutes)
  }

  predicate Closed(g: Granularity, p: Partition, now: Time, settleMinutes: int) {
    && Aligned(p.0, g) && p.1 == NextPartition(p.0, g)
    && Instant(p.1) <= Instant(ClosedBoundary(now, g, settleMinutes))
  }

  /** The manifests that are live after these receipts. */
  function LiveAfter(start: map<string, set<Partition>>, receipts: seq<Receipt>): map<string, set<Partition>> {
    if receipts == [] then start
    else
      var before, x := LiveAfter(start, receipts[..|receipts| - 1]), receipts[|receipts| - 1];
      if x.dataset in before then before[x.dataset := before[x.dataset] + {x.partition}] else before
  }

  /** Of the dataset's due partitions, the earliest. */
  ghost predicate FirstDue(d: Dataset, p: Partition, now: Time, settleMinutes: int, live: set<Partition>) {
    && Due(p.0, d.oldest, d.granularity, now, settleMinutes, live) && p.1 == NextPartition(p.0, d.granularity)
    && forall s | Due(s, d.oldest, d.granularity, now, settleMinutes, live) :: Instant(p.0) <= Instant(s)
  }

  /** Every receipt is for the partition that was its dataset's earliest due one after the receipts before it. */
  ghost predicate InTurn(datasets: map<string, Dataset>, receipts: seq<Receipt>, start: map<string, set<Partition>>,
                         now: Time, settleMinutes: int) {
    receipts != [] ==>
      var init, x := receipts[..|receipts| - 1], receipts[|receipts| - 1];
      && InTurn(datasets, init, start, now, settleMinutes)
      && x.dataset in datasets && x.dataset in LiveAfter(start, init)
      && FirstDue(datasets[x.dataset], x.partition, now, settleMinutes, LiveAfter(start, init)[x.dataset])
  }

  /** What the receipts of a run say so far. */
  ghost predicate Record(datasets: map<string, Dataset>, receipts: seq<Receipt>, start: map<string, set<Partition>>,
                         live: map<string, set<Partition>>, now: Time, settleMinutes: int) {
    && Account(receipts, start, live) && AllClosed(datasets, receipts, now, settleMinutes)
    && InTurn(datasets, receipts, start, now, settleMinutes) && live == LiveAfter(start, receipts)
  }

  lemma Recorded(receipts: seq<Receipt>, start: map<string, set<Partition>>, live: map<string, set<Partition>>,
                 n: string, p: Partition)
    requires Account(receipts, start, live) && n in start && n in live && p !in live[n]
    ensures Account(receipts + [Receipt(n, p)], start, live[n := live[n] + {p}])
  {
    var more := receipts + [Receipt(n, p)];
    forall i | 0 <= i < |receipts|
      ensures receipts[i] != Receipt(n, p)
    {
    }
  }

  lemma ClosedAppend(datasets: map<string, Dataset>, receipts: seq<Receipt>, x: Receipt, now: Time, settleMinutes: int)
    requires AllClosed(datasets, receipts, now, settleMinutes) && AllClosed(datasets, [x], now, settleMinutes)
    ensures AllClosed(datasets, receipts + [x], now, settleMinutes)
  {
    assert [x][0] == x;
  }

  lemma TurnRecorded(datasets: map<string, Dataset>, receipts: seq<Receipt>, start: map<string, set<Partition>>,
                     live: map<string, set<Partition>>, n: string, p: Partition, now: Time, settleMinutes: int)
    requires Record(datasets, receipts, start, live, now, settleMinutes)
    requires n in datasets && n in start && n in live && FirstDue(datasets[n], p, now, settleMinutes, live[n])
    ensures Record(datasets, receipts + [Receipt(n, p)], start, live[n := live[n] + {p}], now, settleMinutes)
  {
    Recorded(receipts, start, live, n, p);
    ClosedAppend(datasets, receipts, Receipt(n, p), now, settleMinutes);
    assert (receipts + [Receipt(n, p)])[..|receipts|] == receipts;
  }

  datatype Turn = NotDue | Raised | Archived(partition: Partition)

  /** One dataset's turn in a round: its first due partition, if any, is archived. */
  method TakeTurn(a: Archive, n: string, now: Time, settleMinutes: int) returns (t: Turn)
    requires a.Valid() && ValidTime(now) && n in a.datasets
    modifies a`live
    ensures a.Valid()
    ensures t.NotDue? ==> a.live == old(a.live) && forall s :: !a.DueHere(n, s, now, settleMinutes)
    ensures t.Archived? ==>
              && FirstDue(a.datasets[n], t.partition, now, settleMinutes, old(a.live)[n])
              && a.live == old(a.live)[n := old(a.live)[n] + {t.partition}]
  {
    var d := a.datasets[n];
    var partition := FirstDuePartition(d.oldest, d.granularity, now, settleMinutes, a.live[n]);
    if partition.None? { return NotDue; }
    var ok := a.ArchivePartition(n, partition.value);
    return if ok then Archived(partition.value) else Raised;
  }

  /** The first enabled datasets of the round have nothing due. */
  ghost predicate NothingDue(a: Archive, names: seq<string>, now: Time, settleMinutes: int)
    requires a.Valid() && forall n | n in names :: n in a.datasets
    reads a
  {
    forall n, s | n in names :: !a.DueHere(n, s, now, settleMinutes)
  }

  lemma NothingDueHere(a: Archive, enabled: seq<string>, i: nat, now: Time, settleMinutes: int)
    requires a.Valid() && i < |enabled| && forall n | n in enabled :: n in a.datasets
    requires NothingDue(a, enabled[..i], now, settleMinutes)
    requires forall s :: !a.DueHere(enabled[i], s, now, settleMinutes)
    ensures NothingDue(a, enabled[..i + 1], now, settleMinutes)
  {
    assert enabled[..i + 1] == enabled[..i] + [enabled[i]];
  }

  /** Names taken from the enabled ones in their order, each place at most once. */
  predicate InPass(enabled: seq<string>, names: seq<string>) {
    || names == []
    || (&& enabled != []
        && (|| InPass(enabled[..|enabled| - 1], names)
            || (&& enabled[|enabled| - 1] == names[|names| - 1]
                && InPass(enabled[..|enabled| - 1], names[..|names| - 1]))))
  }

  /** One place further, with its name or without. */
  lemma NextPlace(enabled: seq<string>, i: nat, names: seq<string>)
    requires i < |enabled| && InPass(enabled[..i], names)
    ensures InPass(enabled[..i + 1], names) && InPass(enabled[..i + 1], names + [enabled[i]])
  {
    assert enabled[..i + 1][..i] == enabled[..i];
    assert (names + [enabled[i]])[..|names|] == names;
  }

  lemma {:induction false} PassOn(enabled: seq<string>, i: nat, names: seq<string>)
    requires i <= |enabled| && InPass(enabled[..i], names)
    ensures InPass(enabled, names)
    decreases |enabled| - i
  {
    if i < |enabled| {
      assert enabled[..i + 1][..i] == enabled[..i];
      PassOn(enabled, i + 1, names);
    } else {
      assert enabled[..i] == enabled;
    }
  }

  /** The receipts from a place on are of these datasets, in order. */
  predicate Brought(receipts: seq<Receipt>, from: nat, names: seq<string>) {
    |receipts| == from + |names| && forall k | 0 <= k < |names| :: receipts[from + k].dataset == names[k]
  }

  lemma BringsOne(receipts: seq<Receipt>, from: nat, names: seq<string>, x: Receipt)
    requires Brought(receipts, from, names)
    ensures Brought(receipts + [x], from, names + [x.dataset])
  {
  }

  lemma BringsMore(receipts: seq<Receipt>, names: seq<string>, later: seq<Receipt>, more: seq<string>)
    requires Brought(receipts, 0, names) && receipts <= later && Brought(later, |receipts|, more)
    ensures Brought(later, 0, names + more)
  {
    forall k | 0 <= k < |names + more|
      ensures later[0 + k].dataset == (names + more)[k]
    {
      if k >= |names| { assert later[|receipts| + (k - |names|)].dataset == more[k - |names|]; }
    }
  }

  /** All the passes' names, one pass after the other. */
  function Flatten(passes: seq<seq<string>>): seq<string> {
    if passes == [] then [] else Flatten(passes[..|passes| - 1]) + passes[|passes| - 1]
  }

  lemma OnePass(enabled: seq<string>, receipts: seq<Receipt>, passes: seq<seq<string>>, later: seq<Receipt>,
                more: seq<string>)
    requires AllPasses(enabled, receipts, passes) && InPass(enabled, more)
    requires receipts <= later && Brought(later, |receipts|, more)
    ensures AllPasses(enabled, later, passes + [more])
  {
    assert (passes + [more])[..|passes|] == passes;
    BringsMore(receipts, Flatten(passes), later, more);
  }

  /** The receipts came pass by pass, in each the datasets in their order and each place at most once. */
  predicate AllPasses(enabled: seq<string>, receipts: seq<Receipt>, passes: seq<seq<string>>) {
    Brought(receipts, 0, Flatten(passes)) && forall k | 0 <= k < |passes| :: InPass(enabled, passes[k])
  }

  /** One pass over the enabled datasets. */
  method Round(a: Archive, enabled: seq<string>, now: Time, settleMinutes: int, limit: int, receipts: seq<Receipt>,
               ghost start: map<string, set<Partition>>)
    returns (r: Result<seq<Receipt>, RunError>, ghost names: seq<string>)
    requires a.Valid() && ValidTime(now) && |receipts| < limit
    requires forall n | n in enabled :: n in a.datasets
    requires start.Keys == a.datasets.Keys && Record(a.datasets, receipts, start, a.live, now, settleMinutes)
    modifies a`live
    ensures a.Valid()
    ensures r.Ok? ==> receipts <= r.value && |r.value| <= limit
    ensures r.Ok? ==> Record(a.datasets, r.value, start, a.live, now, settleMinutes)
    ensures r.Err? ==> r.error.ArchiveRaised?
    ensures r.Ok? ==> InPass(enabled, names) && Brought(r.value, |receipts|, names)
    ensures r.Ok? && r.value == receipts ==> a.live == old(a.live) && NothingDue(a, enabled, now, settleMinutes)
  {
    var done := receipts;
    names := [];
    for i := 0 to |enabled|
      invariant a.Valid() && receipts <= done && |done| < limit
      invariant InPass(enabled[..i], names) && Brought(done, |receipts|, names)
      invariant Record(a.datasets, done, start, a.live, now, settleMinutes)
      invariant done == receipts ==> a.live == old(a.live) && NothingDue(a, enabled[..i], now, settleMinutes)
    {
      var n := enabled[i];
      NextPlace(enabled, i, names);
      ghost var before := a.live;
      var turn := TakeTurn(a, n, now, settleMinutes);
      if turn.NotDue? {
        if done == receipts { NothingDueHere(a, enabled, i, now, settleMinutes); }
        continue;
      }
      if turn.Raised? { return Err(ArchiveRaised(n)), names; }
      TurnRecorded(a.datasets, done, start, before, n, turn.partition, now, settleMinutes);
      BringsOne(done, |receipts|, names, Receipt(n, turn.partition));
      done := done + [Receipt(n, turn.partition)];
      names := names + [n];
      if |done| >= limit {
        PassOn(enabled, i + 1, names);
        return Ok(done), names;
      }
    }
    assert enabled[..|enabled|] == enabled;
    return Ok(done), names;
  }

  /** _run_due: every receipt is for what was its dataset's earliest due partition at its turn, no partition is
      archived twice, the datasets come pass by pass in their order, at most `maxPartitions` are archived, and the
      run stops short of that only when no enabled dataset has a partition due. */
  method RunDue(a: Archive, enabled: seq<string>, supported: set<string>, now: Time, settleMinutes: int,
                maxPartitions: int)
    returns (r: Result<seq<Receipt>, RunError>, ghost passes: seq<seq<string>>)
    requires a.Valid() && ValidTime(now)
    requires supported == a.datasets.Keys
    modifies a`live
    ensures a.Valid()
    ensures r == Err(UnsupportedDatasets) <==> exists n :: n in enabled && n !in supported
    ensures r == Err(UnsupportedDatasets) ==> a.live == old(a.live)
    ensures r.Ok? ==> Record(a.datasets, r.value, old(a.live), a.live, now, settleMinutes)
    ensures r.Ok? ==> |r.value| <= if maxPartitions < 0 then 0 else maxPartitions
    ensures r.Ok? ==> AllPasses(enabled, r.value, passes)
    ensures r.Ok? && |r.value| < maxPartitions ==> NothingDue(a, enabled, now, settleMinutes)
  {
    passes := [];
    if exists n :: n in enabled && n !in supported { return Err(UnsupportedDatasets), passes; }
    var receipts: seq<Receipt> := [];
    while |receipts| < maxPartitions
      invariant a.Valid() && Record(a.datasets, receipts, old(a.live), a.live, now, settleMinutes)
      invariant |receipts| <= if maxPartitions < 0 then 0 else maxPartitions
      invariant AllPasses(enabled, receipts, passes)
      decreases maxPartitions - |receipts|
    {
      var round, names := Round(a, enabled, now, settleMinutes, maxPartitions, receipts, old(a.live));
      if round.Err? { return Err(round.error), passes; }
      var progressed := |round.value| > |receipts|;
      if !progressed {
        assert round.value == receipts;
        return Ok(receipts), passes;
      }
      OnePass(enabled, receipts, passes, round.value, names);
      receipts, passes := round.value, passes + [names];
    }
    return Ok(receipts), passes;
  }
}
