/** What a run of the archive worker can still reach: when a partition on which nobody works can be sealed, and
    what a seal does not say about a source that changes between the two statements of one reading. */
module ArchiveRestart {
  import opened ArchiveSeal
  import opened Common
  import opened Parquet

  /** The event leaves the source, the watermarks, the coverage and everybody else's objects alone. */
  predicate IsCalm(e: Event) {
    !e.SourceWrites? && !e.WatermarksMove? && !e.CoverageMoves? && !e.ObjectAppears? && !e.ManifestRestored?
  }

  predicate Calm(es: seq<Event>) {
    forall i | 0 <= i < |es| :: IsCalm(es[i])
  }

  /** Some run leads from s to t; a calm one, if that is asked. */
  ghost predicate Leads(d: Dataset, s: State, t: State, calm: bool) {
    exists es :: t == Run(d, s, es) && (calm ==> Calm(es))
  }

  lemma LeadsOn(d: Dataset, s: State, t: State, e: Event, calm: bool)
    requires Leads(d, s, t, calm) && (calm ==> IsCalm(e))
    ensures Leads(d, s, Step(d, t, e), calm)
  {
    var es :| t == Run(d, s, es) && (calm ==> Calm(es));
    RunThenStep(d, s, es, e);
    assert Step(d, t, e) == Run(d, s, es + [e]);
  }

  // ---------------------------------------------------------------- one worker, step by step

  /** Worker w holds the lock and stands at k. */
  function At(t: State, w: WorkerId, k: Worker): State {
    Put(t.(lock := Some(w)), w, k)
  }

  function Now(t: State, rows: seq<Row>): State { t.(source := rows) }

  lemma SourceMoves(d: Dataset, s: State, t: State, w: WorkerId, k: Worker, rows: seq<Row>, calm: bool)
    requires Leads(d, s, At(t, w, k), calm) && (calm ==> rows == t.source)
    ensures Leads(d, s, At(Now(t, rows), w, k), calm)
  {
    if rows == t.source {
      assert Now(t, rows) == t;
    } else {
      LeadsOn(d, s, At(t, w, k), SourceWrites(rows), calm);
      assert Next(d, At(t, w, k), SourceWrites(rows)) == At(Now(t, rows), w, k);
    }
  }

  lemma ReadIgnoresLock(d: Dataset, t: State, w: WorkerId, k: Worker, io: Input)
    ensures Read(d, At(t, w, k), k, io) == Read(d, t, k, io)
    ensures Truthful(d, At(t, w, k), k, io) == Truthful(d, t, k, io)
  {
  }

  lemma ReadStep(d: Dataset, t: State, w: WorkerId, k: Worker, io: Input)
    requires k.session && !Writes(k.pc) && !k.pc.Idle? && !k.pc.AtUnlock? && Truthful(d, t, k, io)
    ensures Step(d, At(t, w, k), Advance(w, io)) == At(t, w, Read(d, t, k, io))
  {
    ReadIgnoresLock(d, t, w, k, io);
    var u, r := At(t, w, k), Read(d, t, k, io);
    assert u.workers[w] == k;
    assert Perform(d, u, w, io, true) == Put(u, w, r);
    assert u.workers[w := r] == t.workers[w := r];
  }

  /** The source moves to `rows`, if it is not there already, and the worker's next reading step takes it from
      k to r. */
  lemma Reads(d: Dataset, s: State, t: State, w: WorkerId, k: Worker, io: Input, rows: seq<Row>, r: Worker, calm: bool)
    requires Leads(d, s, At(t, w, k), calm) && (calm ==> rows == t.source)
    requires k.session && !Writes(k.pc) && !k.pc.Idle? && !k.pc.AtUnlock? && Truthful(d, Now(t, rows), k, io)
    requires r == Read(d, Now(t, rows), k, io)
    ensures Leads(d, s, At(Now(t, rows), w, r), calm)
  {
    SourceMoves(d, s, t, w, k, rows, calm);
    ReadStep(d, Now(t, rows), w, k, io);
    LeadsOn(d, s, At(Now(t, rows), w, k), Advance(w, io), calm);
  }

  /** The worker's next reading step, the source being where it is. */
  lemma ReadsOn(d: Dataset, s: State, t: State, w: WorkerId, k: Worker, io: Input, r: Worker, calm: bool)
    requires Leads(d, s, At(t, w, k), calm)
    requires k.session && !Writes(k.pc) && !k.pc.Idle? && !k.pc.AtUnlock? && Truthful(d, t, k, io)
    requires r == Read(d, t, k, io)
    ensures Leads(d, s, At(t, w, r), calm)
  {
    ReadStep(d, t, w, k, io);
    LeadsOn(d, s, At(t, w, k), Advance(w, io), calm);
  }

  /** What the two statements of a reading saw, when they saw these rows. */
  function Counted(d: Dataset, rows: seq<Row>): Sight { if d.counted then CountsSeen(rows) else NoCounts }

  /** The rows that the five statements see: two of the first reading, the export, two of the second. */
  datatype Seen = Seen(bounds: seq<Row>, counts: seq<Row>, exported: seq<Row>, rebounds: seq<Row>, recounts: seq<Row>)

  /** Each statement says of the rows it sees what x says. */
  predicate Agree(d: Dataset, r: Seen, x: Summary) {
    && Bounds(x, r.bounds) && CountsFit(d, x, Counted(d, r.counts))
    && Summarizes(x, r.exported, d.counted)
    && Bounds(x, r.rebounds) && CountsFit(d, x, Counted(d, r.recounts))
  }

  function FirstSights(d: Dataset, r: Seen, coverage: Option<string>): seq<Sight> {
    [WatermarksCovered, BoundsSeen(r.bounds), Counted(d, r.counts), CoverageSeen(coverage)]
  }

  function AllSights(d: Dataset, r: Seen, coverage: Option<string>, content: Bytes): seq<Sight> {
    FirstSights(d, r, coverage)
    + [FileWritten(r.exported, content), BoundsSeen(r.rebounds), Counted(d, r.recounts), WatermarksCovered,
       CoverageSeen(coverage)]
  }

  function Bare(x: Summary): Summary { x.(counts := map[]) }

  function Standing(pc: Pc, v: Locals, h: seq<Sight>): Worker { Worker(pc, true, v, h) }

  lemma ReadsFirst(d: Dataset, s: State, t: State, w: WorkerId, calm: bool)
    requires Leads(d, s, At(t, w, Standing(AtExisting, FRESH, [])), calm)
    requires t.watermarks && !(t.manifest.Some? && t.manifest.value.status.Final())
    ensures Leads(d, s, At(t, w, Standing(AtSummary, FRESH, [WatermarksCovered])), calm)
  {
    var io := Input(NOTHING, []);
    ReadsOn(d, s, t, w, Standing(AtExisting, FRESH, []), io, Standing(AtWatermark, FRESH, []), calm);
    ReadsOn(d, s, t, w, Standing(AtWatermark, FRESH, []), io, Standing(AtSummary, FRESH, [WatermarksCovered]), calm);
  }

  lemma ReadsSummary(d: Dataset, s: State, t: State, w: WorkerId, r: Seen, x: Summary, calm: bool)
    requires Leads(d, s, At(t, w, Standing(AtSummary, FRESH, [WatermarksCovered])), calm) && Agree(d, r, x)
    requires calm ==> r.bounds == r.counts == t.source
    ensures Leads(d, s, At(Now(t, r.counts), w,
                           Standing(AtCoverage, FRESH.(before := x), FirstSights(d, r, None)[..3])), calm)
  {
    var io := Input(x, []);
    var v, h := FRESH.(before := Bare(x)), [WatermarksCovered, BoundsSeen(r.bounds)];
    Reads(d, s, t, w, Standing(AtSummary, FRESH, [WatermarksCovered]), io, r.bounds, Standing(AtCounts, v, h), calm);
    var t1 := Now(t, r.bounds);
    var k := Standing(AtCoverage, FRESH.(before := x), h + [Counted(d, r.counts)]);
    Reads(d, s, t1, w, Standing(AtCounts, v, h), io, r.counts, k, calm);
    assert Now(t1, r.counts) == Now(t, r.counts);
    assert FirstSights(d, r, None)[..3] == h + [Counted(d, r.counts)];
  }

  function Exported(x: Summary, coverage: Option<string>, content: Bytes): Locals {
    FRESH.(before := x, coverage := coverage, content := content, stats := x)
  }

  lemma ReadsCoverage(d: Dataset, s: State, t: State, w: WorkerId, r: Seen, x: Summary, calm: bool)
    requires Leads(d, s, At(t, w, Standing(AtCoverage, FRESH.(before := x), FirstSights(d, r, None)[..3])), calm)
    ensures Leads(d, s, At(t, w, Standing(AtExport, FRESH.(before := x, coverage := t.coverage),
                                          FirstSights(d, r, t.coverage))), calm)
  {
    var io, h := Input(x, []), FirstSights(d, r, t.coverage);
    assert h == FirstSights(d, r, None)[..3] + [CoverageSeen(t.coverage)];
    ReadsOn(d, s, t, w, Standing(AtCoverage, FRESH.(before := x), FirstSights(d, r, None)[..3]), io,
            Standing(AtExport, FRESH.(before := x, coverage := t.coverage), h), calm);
  }

  lemma ReadsExport(d: Dataset, s: State, t: State, w: WorkerId, r: Seen, x: Summary, content: Bytes, calm: bool)
    requires Leads(d, s, At(t, w, Standing(AtExport, FRESH.(before := x, coverage := t.coverage),
                                           FirstSights(d, r, t.coverage))), calm)
    requires Agree(d, r, x) && d.decode(content) == Some(Contents(r.exported, t.coverage))
    requires calm ==> r.exported == t.source
    ensures Leads(d, s, At(Now(t, r.exported), w,
                           Standing(AtResummary, Exported(x, t.coverage, content),
                                    AllSights(d, r, t.coverage, content)[..5])),
                  calm)
  {
    var io, v, h := Input(x, content), FRESH.(before := x, coverage := t.coverage), FirstSights(d, r, t.coverage);
    var e, g := Exported(x, t.coverage, content), AllSights(d, r, t.coverage, content)[..5];
    assert g == h + [FileWritten(r.exported, content)];
    Reads(d, s, t, w, Standing(AtExport, v, h), io, r.exported, Standing(AtLocalVerify, e, g), calm);
    ReadsOn(d, s, Now(t, r.exported), w, Standing(AtLocalVerify, e, g), io, Standing(AtResummary, e, g), calm);
  }

  lemma ReadsAgain(d: Dataset, s: State, t: State, w: WorkerId, r: Seen, x: Summary, content: Bytes, calm: bool)
    requires Leads(d, s, At(t, w, Standing(AtResummary, Exported(x, t.coverage, content),
                                           AllSights(d, r, t.coverage, content)[..5])), calm)
    requires Agree(d, r, x) && (calm ==> r.rebounds == r.recounts == t.source)
    ensures Leads(d, s, At(Now(t, r.recounts), w,
                           Standing(AtRewatermark, Exported(x, t.coverage, content).(after := x),
                                    AllSights(d, r, t.coverage, content)[..7])), calm)
  {
    var io, e := Input(x, content), Exported(x, t.coverage, content);
    var all := AllSights(d, r, t.coverage, content);
    assert all[..6] == all[..5] + [BoundsSeen(r.rebounds)] && all[..7] == all[..6] + [Counted(d, r.recounts)];
    Reads(d, s, t, w, Standing(AtResummary, e, all[..5]), io, r.rebounds,
          Standing(AtRecounts, e.(after := Bare(x)), all[..6]), calm);
    var t1 := Now(t, r.rebounds);
    Reads(d, s, t1, w, Standing(AtRecounts, e.(after := Bare(x)), all[..6]), io, r.recounts,
          Standing(AtRewatermark, e.(after := x), all[..7]), calm);
    assert Now(t1, r.recounts) == Now(t, r.recounts);
  }

  lemma ReadsLast(d: Dataset, s: State, t: State, w: WorkerId, v: Locals, all: seq<Sight>, calm: bool)
    requires |all| == 9 && all[7] == WatermarksCovered && all[8] == CoverageSeen(t.coverage)
    requires Leads(d, s, At(t, w, Standing(AtRewatermark, v, all[..7])), calm)
    requires t.watermarks && v.coverage == t.coverage
    ensures Leads(d, s, At(t, w, Standing(AtRegister, v, all)), calm)
  {
    var io := Input(NOTHING, []);
    assert all[..8] == all[..7] + [WatermarksCovered] && all == all[..8] + [CoverageSeen(t.coverage)];
    ReadsOn(d, s, t, w, Standing(AtRewatermark, v, all[..7]), io, Standing(AtRecoverage, v, all[..8]), calm);
    ReadsOn(d, s, t, w, Standing(AtRecoverage, v, all[..8]), io, Standing(AtRegister, v, all), calm);
  }

  // ---------------------------------------------------------------- from the registration to the seal

  lemma EffectIgnoresLock(d: Dataset, t: State, w: WorkerId, k: Worker)
    ensures Effect(d, At(t, w, k), k)
            == if Effect(d, t, k).None? then None else Some(At(Effect(d, t, k).value, w, k))
  {
  }

  lemma WriteStep(d: Dataset, t: State, w: WorkerId, k: Worker, u: State)
    requires k.session && Writes(k.pc) && Effect(d, t, k) == Some(u) && u.workers == t.workers
    ensures Step(d, At(t, w, k), Advance(w, Input(NOTHING, []))) == At(u, w, To(k, AfterWrite(k.pc)))
  {
    var io, v, r := Input(NOTHING, []), At(t, w, k), To(k, AfterWrite(k.pc));
    EffectIgnoresLock(d, t, w, k);
    assert v.workers[w] == k;
    assert Perform(d, v, w, io, true) == Put(At(u, w, k), w, r);
    assert u.workers[w := k][w := r] == u.workers[w := r];
  }

  /** The worker's next writing step takes effect. */
  lemma WritesOn(d: Dataset, s: State, t: State, w: WorkerId, k: Worker, u: State, calm: bool)
    requires Leads(d, s, At(t, w, k), calm) && k.session && Writes(k.pc) && Effect(d, t, k) == Some(u)
    ensures Leads(d, s, At(u, w, To(k, AfterWrite(k.pc))), calm)
  {
    EffectFrame(d, t, k);
    WriteStep(d, t, w, k, u);
    LeadsOn(d, s, At(t, w, k), Advance(w, Input(NOTHING, [])), calm);
  }

  function Stored(d: Dataset, t: State, content: Bytes): State {
    if d.hash(content) in t.store then t else t.(store := t.store[d.hash(content) := content])
  }

  /** The place of an export is free, or already holds it. */
  predicate Room(d: Dataset, t: State, content: Bytes) {
    d.hash(content) in t.store ==> Matches(d, t.store[d.hash(content)], d.hash(content), |content|)
  }

  function With(t: State, m: Manifest): State { t.(manifest := Some(m)) }

  lemma RegistersAndUploads(d: Dataset, s: State, t: State, w: WorkerId, v: Locals, h: seq<Sight>, m: Manifest,
                            calm: bool)
    requires Leads(d, s, At(t, w, Standing(AtRegister, v, h)), calm)
    requires Registered(d, t, v) == Some(m) && Room(d, t, v.content)
    ensures Leads(d, s, At(Stored(d, With(t, m), v.content), w, Standing(AtRemoteVerify, v, h)), calm)
  {
    WritesOn(d, s, t, w, Standing(AtRegister, v, h), With(t, m), calm);
    WritesOn(d, s, With(t, m), w, Standing(AtUpload, v, h), Stored(d, With(t, m), v.content), calm);
  }

  lemma Rereads(d: Dataset, s: State, t: State, w: WorkerId, v: Locals, h: seq<Sight>, rows: seq<Row>, calm: bool)
    requires Leads(d, s, At(t, w, Standing(AtRemoteVerify, v, h)), calm)
    requires d.hash(v.content) in t.store && t.store[d.hash(v.content)] == v.content
    requires d.decode(v.content) == Some(Contents(rows, v.coverage)) && Summarizes(v.stats, rows, d.counted)
    ensures Leads(d, s, At(t, w, Standing(AtVerifyManifest, v.(downloaded := v.content),
                                   h + [ObjectReread(v.content)])),
                  calm)
  {
    var io, u, g := Input(NOTHING, []), v.(downloaded := v.content), h + [ObjectReread(v.content)];
    ReadsOn(d, s, t, w, Standing(AtRemoteVerify, v, h), io, Standing(AtDownload, v, h), calm);
    ReadsOn(d, s, t, w, Standing(AtDownload, v, h), io, Standing(AtRemoteRead, u, g), calm);
    ReadsOn(d, s, t, w, Standing(AtRemoteRead, u, g), io, Standing(AtVerifyManifest, u, g), calm);
  }

  function SealedAs(t: State, m: Manifest, h: seq<Sight>): State {
    t.(manifest := Some(m.(status := Sealed)), seals := t.seals + [Seal(m.(status := Sealed), h)])
  }

  lemma VerifiesAndSeals(d: Dataset, s: State, t: State, w: WorkerId, v: Locals, h: seq<Sight>, m: Manifest, calm: bool)
    requires Leads(d, s, At(With(t, m), w, Standing(AtVerifyManifest, v, h)), calm) && !m.status.Final()
    ensures Leads(d, s, At(SealedAs(t, m, h), w, Standing(AtUnlock, v, h)), calm)
  {
    var verified := With(t, m.(status := Verified));
    WritesOn(d, s, With(t, m), w, Standing(AtVerifyManifest, v, h), verified, calm);
    WritesOn(d, s, verified, w, Standing(AtSeal, v, h), SealedAs(t, m, h), calm);
  }

  // ---------------------------------------------------------------- a whole run

  /** The lock taken by an idle worker with a live session. */
  lemma Begins(d: Dataset, s: State, w: WorkerId, calm: bool)
    requires w in s.workers && s.workers[w].pc.Idle? && s.lock.None?
    ensures Leads(d, s, At(s, w, Standing(AtExisting, FRESH, [])), calm)
  {
    assert Run(d, s, []) == s && Calm([]);
    LeadsOn(d, s, s, Connect(w), calm);
    var t := Next(d, s, Connect(w));
    LeadsOn(d, s, t, TakeLock(w), calm);
    assert Step(d, t, TakeLock(w)).workers == s.workers[w := Standing(AtExisting, FRESH, [])];
    assert Step(d, t, TakeLock(w)) == At(s, w, Standing(AtExisting, FRESH, []));
  }

  /** An unregistered partition is registered anew; a registered one is found again if it is the same export's. */
  lemma RegistersWhat(d: Dataset, t: State, v: Locals, rows: seq<Row>) returns (m: Manifest)
    requires Injective(d) && ManifestInv(d, t) && !(t.manifest.Some? && t.manifest.value.status.Final())
    requires d.decode(v.content) == Some(Contents(rows, v.coverage)) && Summarizes(v.stats, rows, d.counted)
    requires t.manifest.Some? ==> t.manifest.value.sha256 == d.hash(v.content)
    ensures Registered(d, t, v) == Some(m) && !m.status.Final()
    ensures m == Manifest(d.hash(v.content), |v.content|, v.stats, v.coverage, m.status)
  {
    if t.manifest.Some? {
      var c :| Describes(d, t.manifest.value, c);
      assert c == v.content;
      SummaryUnique(t.manifest.value.summary, v.stats, rows, d.counted);
    }
    m := Registered(d, t, v).value;
  }

  lemma ReadsThrough(d: Dataset, s: State, w: WorkerId, r: Seen, x: Summary, content: Bytes, calm: bool)
    requires w in s.workers && s.workers[w].pc.Idle? && s.lock.None? && s.watermarks
    requires !(s.manifest.Some? && s.manifest.value.status.Final())
    requires Agree(d, r, x) && d.decode(content) == Some(Contents(r.exported, s.coverage))
    requires calm ==> r == Seen(s.source, s.source, s.source, s.source, s.source)
    ensures Leads(d, s, At(Now(s, r.recounts), w, Standing(AtRegister, Exported(x, s.coverage, content).(after := x),
                                                           AllSights(d, r, s.coverage, content))), calm)
  {
    var all := AllSights(d, r, s.coverage, content);
    Begins(d, s, w, calm);
    ReadsFirst(d, s, s, w, calm);
    ReadsSummary(d, s, s, w, r, x, calm);
    ReadsCoverage(d, s, Now(s, r.counts), w, r, x, calm);
    ReadsExport(d, s, Now(s, r.counts), w, r, x, content, calm);
    assert Now(Now(s, r.counts), r.exported) == Now(s, r.exported);
    ReadsAgain(d, s, Now(s, r.exported), w, r, x, content, calm);
    assert Now(Now(s, r.exported), r.recounts) == Now(s, r.recounts);
    ReadsLast(d, s, Now(s, r.recounts), w, Exported(x, s.coverage, content).(after := x), all, calm);
  }

  /** From a state in which nobody works a worker reaches a seal, whatever rows its five statements see, as
      long as they agree on one summary. */
  lemma RunsToSeal(d: Dataset, s: State, w: WorkerId, r: Seen, x: Summary, content: Bytes, calm: bool)
    returns (t: State, m: Manifest)
    requires Injective(d) && ManifestInv(d, s)
    requires w in s.workers && s.workers[w].pc.Idle? && s.lock.None? && s.watermarks
    requires !(s.manifest.Some? && s.manifest.value.status.Final())
    requires Agree(d, r, x) && d.decode(content) == Some(Contents(r.exported, s.coverage))
    requires (s.manifest.Some? ==> s.manifest.value.sha256 == d.hash(content)) && Room(d, s, content)
    requires calm ==> r == Seen(s.source, s.source, s.source, s.source, s.source)
    ensures Leads(d, s, t, calm) && m.summary == x
    ensures t.seals == s.seals + [Seal(m, AllSights(d, r, s.coverage, content) + [ObjectReread(content)])]
  {
    ReadsThrough(d, s, w, r, x, content, calm);
    var v, all, u := Exported(x, s.coverage, content).(after := x), AllSights(d, r, s.coverage, content),
                     Now(s, r.recounts);
    var n := RegistersWhat(d, u, v, r.exported);
    RegistersAndUploads(d, s, u, w, v, all, n, calm);
    var stored := Stored(d, u, content);
    assert Stored(d, With(u, n), content) == With(stored, n);
    Rereads(d, s, With(stored, n), w, v, all, r.exported, calm);
    VerifiesAndSeals(d, s, stored, w, v.(downloaded := content), all + [ObjectReread(content)], n, calm);
    m := n.(status := Sealed);
    t := At(SealedAs(stored, n, all + [ObjectReread(content)]), w,
            Standing(AtUnlock, v.(downloaded := content), all + [ObjectReread(content)]));
  }

  // ---------------------------------------------------------------- restart points

  /** The content is an export of the source and coverage as they are now, which the registered manifest and the
      store allow. */
  predicate Exportable(d: Dataset, s: State, content: Bytes) {
    && d.decode(content) == Some(Contents(s.source, s.coverage))
    && (s.manifest.Some? ==> s.manifest.value.sha256 == d.hash(content)) && Room(d, s, content)
  }

  /** All that a worker saw is of the source, the watermarks and the coverage of s. */
  predicate Present(s: State, h: seq<Sight>) {
    && (|h| > 0 ==> s.watermarks)
    && (|h| > 3 ==> h[3] == CoverageSeen(s.coverage))
    && (|h| > 4 ==> h[4].FileWritten? && h[4].rows == s.source)
  }

  /** In a calm run from s: what s had is still there, and workers and new seals saw nothing but that. */
  predicate StillAs(s: State, t: State) {
    && t.source == s.source && t.watermarks == s.watermarks && t.coverage == s.coverage
    && (forall p | p in s.store :: p in t.store && t.store[p] == s.store[p])
    && (s.manifest.Some? ==> t.manifest.Some? && t.manifest.value.sha256 == s.manifest.value.sha256)
    && s.seals <= t.seals
    && (forall i | |s.seals| <= i < |t.seals| ::
          && Present(s, t.seals[i].history)
          && (s.manifest.Some? ==> t.seals[i].manifest.sha256 == s.manifest.value.sha256))
  }

  predicate WorkersSaw(s: State, t: State) {
    forall w | w in t.workers :: SightsAt(t.workers[w].pc).Some? ==> Present(s, t.workers[w].history)
  }

  lemma ReadSees(d: Dataset, s: State, t: State, k: Worker, io: Input)
    requires StillAs(s, t) && Local(d, k) && SightsAt(k.pc).Some? && Present(s, k.history) && !Writes(k.pc)
    ensures SightsAt(Read(d, t, k, io).pc).Some? ==> Present(s, Read(d, t, k, io).history)
  {
  }

  lemma SealStill(d: Dataset, s: State, t: State, k: Worker)
    requires StillAs(s, t) && k.pc.AtSeal? && Effect(d, t, k).Some? && Present(s, k.history)
    ensures StillAs(s, Effect(d, t, k).value)
  {
  }

  lemma EffectStill(d: Dataset, s: State, t: State, k: Worker)
    requires StillAs(s, t) && Effect(d, t, k).Some? && (SightsAt(k.pc).Some? ==> Present(s, k.history))
    ensures StillAs(s, Effect(d, t, k).value)
  {
    if k.pc.AtSeal? {
      SealStill(d, s, t, k);
    } else {
      assert Effect(d, t, k).value.seals == t.seals;
    }
  }

  lemma PutStill(s: State, t: State, w: WorkerId, k: Worker)
    requires StillAs(s, t) && WorkersSaw(s, t) && (SightsAt(k.pc).Some? ==> Present(s, k.history))
    ensures StillAs(s, Put(t, w, k)) && WorkersSaw(s, Put(t, w, k))
  {
  }

  lemma WriteStill(d: Dataset, s: State, t: State, w: WorkerId, k: Worker, acknowledged: bool)
    requires StillAs(s, t) && WorkersSaw(s, t) && w in t.workers && t.workers[w] == k
    requires Writes(k.pc) && Effect(d, t, k).Some?
    ensures var r := if acknowledged then To(k, AfterWrite(k.pc)) else Raised(k);
            StillAs(s, Put(Effect(d, t, k).value, w, r)) && WorkersSaw(s, Put(Effect(d, t, k).value, w, r))
  {
    EffectFrame(d, t, k);
    EffectStill(d, s, t, k);
    PutStill(s, Effect(d, t, k).value, w, if acknowledged then To(k, AfterWrite(k.pc)) else Raised(k));
  }

  lemma PerformStill(d: Dataset, s: State, t: State, w: WorkerId, io: Input, acknowledged: bool)
    requires StillAs(s, t) && WorkersSaw(s, t) && WorkersInv(d, t) && w in t.workers && !t.workers[w].pc.Idle?
    ensures StillAs(s, Perform(d, t, w, io, acknowledged)) && WorkersSaw(s, Perform(d, t, w, io, acknowledged))
  {
    var k := t.workers[w];
    if k.pc.AtUnlock? {
      PutStill(s, Unlocked(t, w), w, To(k, Idle));
    } else if !Writes(k.pc) {
      if SightsAt(k.pc).Some? { ReadSees(d, s, t, k, io); }
      PutStill(s, t, w, Read(d, t, k, io));
    } else if Effect(d, t, k).None? {
      PutStill(s, t, w, Raised(k));
    } else {
      WriteStill(d, s, t, w, k, acknowledged);
    }
  }

  lemma StepStill(d: Dataset, s: State, t: State, e: Event)
    requires StillAs(s, t) && WorkersSaw(s, t) && WorkersInv(d, t) && IsCalm(e)
    ensures StillAs(s, Step(d, t, e)) && WorkersSaw(s, Step(d, t, e))
  {
    if !Enabled(d, t, e) { return; }
    if e.Advance? {
      PerformStill(d, s, t, e.w, e.io, true);
    } else if e.AdvanceUnacknowledged? {
      PerformStill(d, s, t, e.w, Input(NOTHING, []), false);
    } else if e.TakeLock? {
      PutStill(s, t.(lock := Some(e.w)), e.w, Worker(AtExisting, true, FRESH, []));
    } else if e.Crash? {
      PutStill(s, Unlocked(t, e.w), e.w, Worker(Idle, false, FRESH, []));
    } else if e.SessionLost? {
      PutStill(s, Unlocked(t, e.w), e.w, t.workers[e.w].(session := false));
    } else if e.Connect? {
      PutStill(s, t, e.w, t.workers[e.w].(session := true));
    } else {
      PutStill(s, t, e.w, Raised(t.workers[e.w]));
    }
  }

  lemma {:induction false} RunStill(d: Dataset, s: State, t: State, es: seq<Event>)
    requires Injective(d) && Inv(d, t) && StillAs(s, t) && WorkersSaw(s, t) && Calm(es)
    ensures StillAs(s, Run(d, t, es)) && Inv(d, Run(d, t, es))
    decreases es
  {
    if es != [] {
      StepStill(d, s, t, es[0]);
      StepInv(d, t, es[0]);
      RunStill(d, s, Step(d, t, es[0]), es[1..]);
    }
  }

  predicate AllIdle(s: State) {
    forall w | w in s.workers :: s.workers[w].pc.Idle?
  }

  /** Every seal that a calm run makes is of an export of the present source: its worker wrote that file, the file
      decodes to the source and the coverage as they are, and the sealed manifest has the file's digest. */
  lemma SealIsExportable(d: Dataset, s: State, es: seq<Event>, i: nat)
    requires Injective(d) && Inv(d, s) && AllIdle(s) && Calm(es) && |s.seals| <= i < |Run(d, s, es).seals|
    ensures var m, h := Run(d, s, es).seals[i].manifest, Run(d, s, es).seals[i].history;
            && s.watermarks && |h| == 10 && h[4].FileWritten? && h[4].rows == s.source
            && m.sha256 == d.hash(h[4].content) && m.coverage == s.coverage && Exportable(d, s, h[4].content)
  {
    RunStill(d, s, s, es);
    var t := Run(d, s, es);
    var x := t.seals[i];
    assert Justified(d, x) && Kept(d, x.manifest, t.store) && Present(s, x.history);
  }

  ghost predicate CanSeal(d: Dataset, s: State) {
    exists es :: Calm(es) && |Run(d, s, es).seals| > |s.seals|
  }

  lemma {:induction false} SummaryExists(rows: seq<Row>, counted: bool) returns (x: Summary)
    ensures Summarizes(x, rows, counted)
    decreases |rows|
  {
    if rows == [] {
      x := NOTHING;
      assert CountsOf([], counted) == map[];
    } else {
      var init, row := rows[..|rows| - 1], rows[|rows| - 1];
      var y := SummaryExists(init, counted);
      SummaryAppend(y, init, row, counted);
      assert rows == init + [row];
      x := Summary(y.rowCount + 1,
                   if y.minTime.None? || row.time < y.minTime.value then Some(row.time) else y.minTime,
                   if y.maxTime.None? || row.time > y.maxTime.value then Some(row.time) else y.maxTime,
                   if counted then Increment(y.counts, row.source) else y.counts);
    }
  }

  /** Restart: a partition that is not final and on which nobody works can be sealed, without anything else
      changing, if and only if the watermarks cover it and an export of the present source and coverage is one
      that the manifest already registered, if any, and the store allow. */
  lemma CanSealIff(d: Dataset, s: State, w: WorkerId)
    requires Injective(d) && Inv(d, s) && !(s.manifest.Some? && s.manifest.value.status.Final())
    requires w in s.workers && AllIdle(s)
    ensures CanSeal(d, s) <==> s.watermarks && exists content :: Exportable(d, s, content)
  {
    if CanSeal(d, s) {
      var es :| Calm(es) && |Run(d, s, es).seals| > |s.seals|;
      SealIsExportable(d, s, es, |s.seals|);
    }
    if s.watermarks && exists content :: Exportable(d, s, content) {
      var content :| Exportable(d, s, content);
      var x := SummaryExists(s.source, d.counted);
      var r := Seen(s.source, s.source, s.source, s.source, s.source);
      var t, m := RunsToSeal(d, s, w, r, x, content, true);
      var es :| t == Run(d, s, es) && Calm(es);
      assert |Run(d, s, es).seals| > |s.seals|;
    }
  }

  /** A registered partition: it can be sealed if and only if the watermarks cover it, the file that its manifest
      records is of the source and the coverage as they are now, and nothing else lies in that file's place. */
  lemma RegisteredIff(d: Dataset, s: State, w: WorkerId, c: Bytes)
    requires Injective(d) && Inv(d, s) && s.manifest.Some? && !s.manifest.value.status.Final()
    requires w in s.workers && AllIdle(s) && Describes(d, s.manifest.value, c)
    ensures CanSeal(d, s) <==> s.watermarks && d.decode(c) == Some(Contents(s.source, s.coverage)) && Room(d, s, c)
  {
    CanSealIff(d, s, w);
    forall content | Exportable(d, s, content)
      ensures content == c
    {
      assert d.hash(content) == d.hash(c);
    }
    if d.decode(c) == Some(Contents(s.source, s.coverage)) && Room(d, s, c) { assert Exportable(d, s, c); }
  }

  /** An unregistered partition: given a file of the source and the coverage as they are now whose place is free,
      it can be sealed if and only if the watermarks cover it. */
  lemma UnregisteredIff(d: Dataset, s: State, w: WorkerId, content: Bytes)
    requires Injective(d) && Inv(d, s) && s.manifest.None? && w in s.workers && AllIdle(s)
    requires d.decode(content) == Some(Contents(s.source, s.coverage)) && Room(d, s, content)
    ensures CanSeal(d, s) <==> s.watermarks
  {
    CanSealIff(d, s, w);
    assert Exportable(d, s, content);
  }

  // ---------------------------------------------------------------- a registered digest is for good

  /** From s to t the manifest kept its digest, and every seal made has it. */
  predicate SameDigest(s: State, t: State)
    requires s.manifest.Some?
  {
    && t.manifest.Some? && t.manifest.value.sha256 == s.manifest.value.sha256 && s.seals <= t.seals
    && forall i | |s.seals| <= i < |t.seals| :: t.seals[i].manifest.sha256 == s.manifest.value.sha256
  }

  lemma EffectSameDigest(d: Dataset, s: State, k: Worker)
    requires s.manifest.Some? && Effect(d, s, k).Some?
    ensures SameDigest(s, Effect(d, s, k).value)
  {
  }

  lemma StepSameDigest(d: Dataset, s: State, e: Event)
    requires s.manifest.Some?
    ensures SameDigest(s, Step(d, s, e))
  {
    if Enabled(d, s, e) && (e.Advance? || e.AdvanceUnacknowledged?) {
      var k := s.workers[e.w];
      if Effect(d, s, k).Some? { EffectSameDigest(d, s, k); }
    }
  }

  lemma SameDigestOn(s: State, t: State, u: State)
    requires s.manifest.Some? && SameDigest(s, t) && SameDigest(t, u)
    ensures SameDigest(s, u)
  {
  }

  lemma {:induction false} RunSameDigest(d: Dataset, s: State, es: seq<Event>)
    requires s.manifest.Some?
    ensures SameDigest(s, Run(d, s, es))
    decreases es
  {
    if es != [] {
      StepSameDigest(d, s, es[0]);
      RunSameDigest(d, Step(d, s, es[0]), es[1..]);
      SameDigestOn(s, Step(d, s, es[0]), Run(d, s, es));
    }
  }

  /** Whatever else happens, source writes included: once a file's manifest is registered, every later seal is of
      that very file, and its worker exported exactly the rows and the coverage that the file holds. So the
      partition stays unsealed until the source shows those rows again. */
  lemma SealsOnlyTheRegistered(d: Dataset, s: State, es: seq<Event>, c: Bytes, i: nat)
    requires Injective(d) && Inv(d, s) && s.manifest.Some? && Describes(d, s.manifest.value, c)
    requires |s.seals| <= i < |Run(d, s, es).seals|
    ensures var h := Run(d, s, es).seals[i].history;
            && |h| == 10 && h[4] == FileWritten(d.decode(c).value.rows, c)
            && h[3] == CoverageSeen(d.decode(c).value.coverage)
  {
    RunInv(d, s, es);
    RunSameDigest(d, s, es);
    var x := Run(d, s, es).seals[i];
    assert Justified(d, x);
    assert d.hash(x.history[4].content) == d.hash(c);
  }

  /** Worker 0 is idle, nothing is registered or stored, and the watermarks cover the partition. */
  function Start(rows: seq<Row>): State {
    State(rows, true, None, None, map[], None, map[0 := Worker(Idle, true, FRESH, [])], [])
  }

  /** The worker has registered the manifest m and is about to upload. */
  lemma RunsToRegister(d: Dataset, rows: seq<Row>, x: Summary, content: Bytes) returns (k: Worker, m: Manifest)
    requires Injective(d) && d.decode(content) == Some(Contents(rows, None)) && Summarizes(x, rows, d.counted)
    ensures Leads(d, Start(rows), At(With(Start(rows), m), 0, k), false)
    ensures m == Manifest(d.hash(content), |content|, x, None, m.status) && !m.status.Final()
  {
    var s, r := Start(rows), Seen(rows, rows, rows, rows, rows);
    ReadsThrough(d, s, 0, r, x, content, false);
    assert Now(s, rows) == s;
    var v, all := Exported(x, None, content).(after := x), AllSights(d, r, None, content);
    m := RegistersWhat(d, s, v, rows);
    WritesOn(d, s, s, 0, Standing(AtRegister, v, all), With(s, m), false);
    k := To(Standing(AtRegister, v, all), AtUpload);
  }

  /** A partition blocked by its own manifest. */
  predicate Waiting(s: State) {
    && s.manifest.Some? && !s.manifest.value.status.Final() && s.watermarks
    && s.workers.Keys == {0} && AllIdle(s) && s.lock.None?
  }

  /** It happens, for any rows and any late change to them: a worker exports the rows, registers their manifest and
      crashes; the source changes; and then no run that leaves the source as it is now seals the partition. */
  lemma Blocked(d: Dataset, rows: seq<Row>, late: seq<Row>, content: Bytes) returns (s: State)
    requires Injective(d) && d.decode(content) == Some(Contents(rows, None)) && late != rows
    ensures Reachable(d, s) && Waiting(s) && s.source == late && !CanSeal(d, s)
  {
    var x := SummaryExists(rows, d.counted);
    var k, m := RunsToRegister(d, rows, x, content);
    var registered := At(With(Start(rows), m), 0, k);
    LeadsOn(d, Start(rows), registered, Crash(0), false);
    var crashed := Step(d, registered, Crash(0));
    LeadsOn(d, Start(rows), crashed, SourceWrites(late), false);
    s := Step(d, crashed, SourceWrites(late));
    LeadsReachable(d, Start(rows), s);
    ReachableInv(d, s);
    assert Describes(d, m, content);
    RegisteredIff(d, s, 0, content);
  }

  // ---------------------------------------------------------------- a torn reading

  const EARLY := Row(1, "A", [])
  const LATE := Row(2, "A", [])
  const MOVED := Row(3, "B", [])
  const BETWEEN := Row(2, "B", [])

  const TORN := Summary(2, Some(1), Some(2), map["A" := 1, "B" := 1])

  /** It happens with a source that changes between the two statements: the seal's summary counts two rows of
      times 1 and 2, one of each source, the first statement saw two rows of one source and the second a row of
      time 3; neither state of the source has that summary. */
  lemma TornReading(d: Dataset, content: Bytes) returns (t: State)
    requires Injective(d) && d.counted && d.decode(content) == Some(Contents([EARLY, BETWEEN], None))
    ensures Reachable(d, t) && |t.seals| == 1 && |t.seals[0].history| == 10
    ensures var m, h := t.seals[0].manifest, t.seals[0].history;
            && h[1] == BoundsSeen([EARLY, LATE]) && !Summarizes(m.summary, [EARLY, LATE], true)
            && h[2] == CountsSeen([EARLY, MOVED]) && !Summarizes(m.summary, [EARLY, MOVED], true)
  {
    StartsWell(d, []);
    TornAgrees(d);
    TornCounts();
    var m: Manifest;
    t, m := RunsToSeal(d, Start([]), 0, TornSights(), TORN, content, false);
    LeadsReachable(d, Start([]), t);
    TornHistory(d, content);
    assert t.seals[0] == Seal(m, AllSights(d, TornSights(), None, content) + [ObjectReread(content)]);
  }

  lemma StartsWell(d: Dataset, rows: seq<Row>)
    ensures Initial(Start(rows)) && ManifestInv(d, Start(rows))
  {
  }

  lemma TornHistory(d: Dataset, content: Bytes)
    requires d.counted
    ensures var h := AllSights(d, TornSights(), None, content) + [ObjectReread(content)];
            |h| == 10 && h[1] == BoundsSeen([EARLY, LATE]) && h[2] == CountsSeen([EARLY, MOVED])
  {
  }

  function TornSights(): Seen {
    Seen([EARLY, LATE], [EARLY, MOVED], [EARLY, BETWEEN], [EARLY, LATE], [EARLY, MOVED])
  }

  lemma TornAgrees(d: Dataset)
    requires d.counted
    ensures Agree(d, TornSights(), TORN)
  {
    TornCounts();
  }

  lemma LeadsReachable(d: Dataset, s: State, t: State)
    requires Initial(s) && Leads(d, s, t, false)
    ensures Reachable(d, t)
  {
    var es :| t == Run(d, s, es);
  }

  lemma TornCounts()
    ensures Bounds(TORN, [EARLY, LATE]) && CountsOf([EARLY, MOVED], true) == TORN.counts
    ensures Summarizes(TORN, [EARLY, BETWEEN], true)
    ensures !Summarizes(TORN, [EARLY, LATE], true) && !Summarizes(TORN, [EARLY, MOVED], true)
  {
    TwoCounts(EARLY, LATE);
    TwoCounts(EARLY, BETWEEN);
    TwoCounts(EARLY, MOVED);
    assert [EARLY, MOVED][1] in [EARLY, MOVED];
    assert "B" in TORN.counts && "B" !in CountsOf([EARLY, LATE], true);
  }

  lemma TwoCounts(a: Row, b: Row)
    ensures CountsOf([a, b], true)
            == if a.source == b.source then map[a.source := 2] else map[a.source := 1, b.source := 1]
    ensures a in [a, b] && b in [a, b]
  {
    assert Sources([a, b]) == [a.source, b.source];
    assert [a, b][0] == a && [a, b][1] == b;
    assert forall s ::
      multiset([a.source, b.source])[s] == (if s == a.source then 1 else 0) + if s == b.source then 1 else 0;
  }
}
