/** The archive-before-delete protocol for one partition: any number of workers running archive_partition
    under an advisory lock, a source that may change at any time, one manifest row and an object store. */
module ArchiveSeal {
  import opened Common
  import opened Parquet

  // A step is one call into the database or the object store, or one check on what it
  // returned. Any step may raise; a statement may take effect and still raise (its
  // acknowledgement lost); a worker may crash; and a worker may lose its database session
  // (and with it the session-level lock) while it carries on with storage calls.

  type WorkerId = nat
  type Bytes = seq<int>
  type Digest = string

  /** What a file decodes to: its rows and the coverage evidence in its metadata, if the dataset
      has a coverage contract. */
  datatype Contents = Contents(rows: seq<Row>, coverage: Option<string>)

  /** A dataset's file format and the digest in use. */
  datatype Dataset = Dataset(counted: bool, decode: Bytes -> Option<Contents>, hash: Bytes -> Digest)

  ghost predicate Injective(d: Dataset) {
    forall a, b :: d.hash(a) == d.hash(b) ==> a == b
  }

  datatype Status = Uploading | Verified | Failed | Sealed | Restored {
    predicate Final() { Sealed? || Restored? }
  }

  /** The manifest row. Within one partition the object path is determined by the digest. */
  datatype Manifest =
    Manifest(sha256: Digest, objectBytes: nat, summary: Summary, coverage: Option<string>, status: Status)

  /** The points of archive_partition between two steps. */
  datatype Pc =
    | Idle
    | AtExisting            // lock taken, before existing_manifest
    | AtReverify            // the manifest was sealed: verify the stored object
    | AtWatermark
    | AtSummary             // source_summary's first statement: count, min and max
    | AtCounts              // its second: the grouped counts
    | AtCoverage
    | AtExport
    | AtLocalVerify
    | AtResummary
    | AtRecounts
    | AtRewatermark
    | AtRecoverage
    | AtRegister
    | AtUpload
    | AtRemoteVerify
    | AtDownload
    | AtRemoteRead
    | AtVerifyManifest
    | AtSeal
    | AtFail                // the except branch with a manifest id
    | AtUnlock              // the finally branch of the lock

  /** What a worker has read since it took the lock: the values the database or the store held then. The two
      statements of a source summary each see the source as it is when they run; a dataset without a
      source-count column has no second one. */
  datatype Sight =
    | WatermarksCovered
    | BoundsSeen(rows: seq<Row>)
    | CountsSeen(rows: seq<Row>)
    | NoCounts
    | CoverageSeen(coverage: Option<string>)
    | FileWritten(rows: seq<Row>, content: Bytes)
    | ObjectReread(content: Bytes)

  /** archive_partition's local variables. */
  datatype Locals = Locals(before: Summary, coverage: Option<string>, content: Bytes, stats: Summary, after: Summary,
                           downloaded: Bytes)

  datatype Worker = Worker(pc: Pc, session: bool, locals: Locals, history: seq<Sight>)

  /** A seal: the manifest as sealed and the sealing worker's history since it took the lock. */
  datatype Seal = Seal(manifest: Manifest, history: seq<Sight>)

  datatype State = State(
    source: seq<Row>,
    watermarks: bool,
    coverage: Option<string>,
    manifest: Option<Manifest>,
    store: map<Digest, Bytes>,
    lock: Option<WorkerId>,
    workers: map<WorkerId, Worker>,
    seals: seq<Seal>)

  // ---------------------------------------------------------------- steps

  predicate HasManifestId(pc: Pc) {
    pc.AtUpload? || pc.AtRemoteVerify? || pc.AtDownload? || pc.AtRemoteRead? || pc.AtVerifyManifest? || pc.AtSeal?
  }

  /** Inside the partition_lock block. */
  predicate InLock(pc: Pc) { !pc.Idle? }

  /** An exception: with a manifest id the worker goes on to mark it failed, then unlocks. */
  function Raised(k: Worker): Worker {
    k.(pc := if HasManifestId(k.pc) then AtFail else AtUnlock)
  }

  function To(k: Worker, pc: Pc): Worker { k.(pc := pc) }

  function See(k: Worker, pc: Pc, sight: Sight): Worker {
    k.(pc := pc, history := k.history + [sight])
  }

  /** What the environment hands a step: what the statement said of the rows it saw, or the file just written. */
  datatype Input = Input(summary: Summary, content: Bytes)

  predicate Matches(d: Dataset, content: Bytes, sha256: Digest, objectBytes: nat) {
    |content| == objectBytes && d.hash(content) == sha256
  }

  /** The second statement of a source summary, for a dataset that has one. */
  function CountsRead(d: Dataset, io: Input): map<string, nat> { if d.counted then io.summary.counts else map[] }

  function CountsSight(d: Dataset, s: State): Sight { if d.counted then CountsSeen(s.source) else NoCounts }

  /** From existing_manifest to the export. */
  function ReadSource(d: Dataset, s: State, k: Worker, io: Input): Worker {
    match k.pc
    case AtExisting =>
      if s.manifest.Some? && s.manifest.value.status.Final() then To(k, AtReverify) else To(k, AtWatermark)
    case AtReverify =>
      if s.manifest.Some? && Kept(d, s.manifest.value, s.store)
      then See(k, AtUnlock, ObjectReread(s.store[s.manifest.value.sha256])) else Raised(k)
    case AtWatermark => if s.watermarks then See(k, AtSummary, WatermarksCovered) else Raised(k)
    case AtSummary =>
      See(k.(locals := k.locals.(before := io.summary.(counts := map[]))), AtCounts, BoundsSeen(s.source))
    case AtCounts =>
      var before := k.locals.before.(counts := CountsRead(d, io));
      See(k.(locals := k.locals.(before := before)), AtCoverage, CountsSight(d, s))
    case AtCoverage => See(k.(locals := k.locals.(coverage := s.coverage)), AtExport, CoverageSeen(s.coverage))
    case AtExport =>
      See(k.(locals := k.locals.(content := io.content, stats := io.summary)), AtLocalVerify,
          FileWritten(s.source, io.content))
    case _ => k
  }

  /** From the local verification to the registration. */
  function ReadAgain(d: Dataset, s: State, k: Worker, io: Input): Worker {
    match k.pc
    case AtLocalVerify => To(k, AtResummary)
    case AtResummary =>
      See(k.(locals := k.locals.(after := io.summary.(counts := map[]))), AtRecounts, BoundsSeen(s.source))
    case AtRecounts =>
      var after := k.locals.after.(counts := CountsRead(d, io));
      if k.locals.stats == k.locals.before && k.locals.stats == after
      then See(k.(locals := k.locals.(after := after)), AtRewatermark, CountsSight(d, s)) else Raised(k)
    case AtRewatermark => if s.watermarks then See(k, AtRecoverage, WatermarksCovered) else Raised(k)
    case AtRecoverage =>
      if k.locals.coverage == s.coverage then See(k, AtRegister, CoverageSeen(s.coverage)) else Raised(k)
    case _ => k
  }

  /** The remote checks after the upload. */
  function ReadObject(d: Dataset, s: State, k: Worker): Worker {
    var sha := d.hash(k.locals.content);
    match k.pc
    case AtRemoteVerify =>
      if sha in s.store && Matches(d, s.store[sha], sha, |k.locals.content|) then To(k, AtDownload) else Raised(k)
    case AtDownload =>
      if sha in s.store && Matches(d, s.store[sha], sha, |k.locals.content|)
      then See(k.(locals := k.locals.(downloaded := s.store[sha])), AtRemoteRead, ObjectReread(s.store[sha]))
      else Raised(k)
    case AtRemoteRead =>
      var c := d.decode(k.locals.downloaded);
      if c.Some? && Summarizes(k.locals.stats, c.value.rows, d.counted) && c.value.coverage == k.locals.coverage
      then To(k, AtVerifyManifest) else Raised(k)
    case _ => k
  }

  /** The reading steps: database queries and storage reads that change only the worker. */
  function Read(d: Dataset, s: State, k: Worker, io: Input): Worker {
    match k.pc
    case AtRemoteVerify => ReadObject(d, s, k)
    case AtDownload => ReadObject(d, s, k)
    case AtRemoteRead => ReadObject(d, s, k)
    case AtLocalVerify => ReadAgain(d, s, k, io)
    case AtResummary => ReadAgain(d, s, k, io)
    case AtRecounts => ReadAgain(d, s, k, io)
    case AtRewatermark => ReadAgain(d, s, k, io)
    case AtRecoverage => ReadAgain(d, s, k, io)
    case _ => ReadSource(d, s, k, io)
  }

  predicate Writes(pc: Pc) {
    pc.AtRegister? || pc.AtUpload? || pc.AtVerifyManifest? || pc.AtSeal? || pc.AtFail?
  }

  /** Steps that need the worker's database session. */
  predicate NeedsSession(pc: Pc) {
    !pc.AtReverify? && !pc.AtLocalVerify? && !pc.AtUpload?
    && !pc.AtRemoteVerify? && !pc.AtDownload? && !pc.AtRemoteRead?
  }

  /** register_propagation_archive_manifest: a retry must agree with the row it finds. */
  function Registered(d: Dataset, s: State, v: Locals): Option<Manifest> {
    var sha := d.hash(v.content);
    match s.manifest
    case None => Some(Manifest(sha, |v.content|, v.stats, v.coverage, Uploading))
    case Some(m) =>
      if m.sha256 != sha || m.summary.rowCount != v.stats.rowCount then None
      else if v.coverage.None? || m.coverage == v.coverage then Some(m)
      else if m.status.Uploading? || m.status.Failed? then Some(m.(coverage := v.coverage))
      else None
  }

  /** What a writing step does to the database or the store; None when the statement itself raises. */
  function Effect(d: Dataset, s: State, k: Worker): Option<State> {
    match k.pc
    case AtRegister =>
      (match Registered(d, s, k.locals)
       case None => None
       case Some(m) => Some(s.(manifest := Some(m))))
    case AtUpload =>
      var sha := d.hash(k.locals.content);
      if sha !in s.store then Some(s.(store := s.store[sha := k.locals.content]))
      else if Matches(d, s.store[sha], sha, |k.locals.content|) then Some(s)
      else None
    case AtVerifyManifest =>
      if s.manifest.None? || s.manifest.value.status.Final() then None
      else Some(s.(manifest := Some(s.manifest.value.(status := Verified))))
    case AtSeal =>
      if s.manifest.None? || !s.manifest.value.status.Verified? then None
      else
        var m := s.manifest.value.(status := Sealed);
        Some(s.(manifest := Some(m), seals := s.seals + [Seal(m, k.history)]))
    case AtFail =>
      if s.manifest.None? || s.manifest.value.status.Final() then None
      else Some(s.(manifest := Some(s.manifest.value.(status := Failed))))
    case _ => None
  }

  function AfterWrite(pc: Pc): Pc {
    match pc
    case AtRegister => AtUpload
    case AtUpload => AtRemoteVerify
    case AtVerifyManifest => AtSeal
    case _ => AtUnlock
  }

  datatype Event =
    | SourceWrites(rows: seq<Row>)
    | WatermarksMove(covered: bool)
    | CoverageMoves(coverage: Option<string>)
    | ObjectAppears(path: Digest, content: Bytes)   // by anyone else, never over an existing object
    | ManifestRestored
    | Connect(w: WorkerId)
    | TakeLock(w: WorkerId)
    | Advance(w: WorkerId, io: Input)
    | AdvanceUnacknowledged(w: WorkerId)
    | Raise(w: WorkerId)
    | SessionLost(w: WorkerId)
    | Crash(w: WorkerId)

  /** What the first statement of a source summary says. */
  predicate Bounds(x: Summary, rows: seq<Row>) {
    x.rowCount == |rows| && Earliest(rows, x.minTime) && Latest(rows, x.maxTime)
  }

  /** The database answers truthfully and a written file decodes to what was written. */
  predicate Truthful(d: Dataset, s: State, k: Worker, io: Input) {
    && (k.pc.AtSummary? || k.pc.AtResummary? ==> Bounds(io.summary, s.source))
    && ((k.pc.AtCounts? || k.pc.AtRecounts?) && d.counted ==> io.summary.counts == CountsOf(s.source, true))
    && (k.pc.AtExport? ==> Summarizes(io.summary, s.source, d.counted))
    && (k.pc.AtExport? ==> d.decode(io.content) == Some(Contents(s.source, k.locals.coverage)))
  }

  predicate Enabled(d: Dataset, s: State, e: Event) {
    match e
    case ObjectAppears(path, _) => path !in s.store
    case ManifestRestored => s.manifest.Some? && s.manifest.value.status.Sealed?
    case Connect(w) => w in s.workers && s.workers[w].pc.Idle?
    case TakeLock(w) => w in s.workers && s.workers[w].pc.Idle? && s.workers[w].session && s.lock.None?
    case Advance(w, io) =>
      && w in s.workers && !s.workers[w].pc.Idle?
      && (NeedsSession(s.workers[w].pc) ==> s.workers[w].session)
      && Truthful(d, s, s.workers[w], io)
    case AdvanceUnacknowledged(w) =>
      && w in s.workers && Writes(s.workers[w].pc)
      && (NeedsSession(s.workers[w].pc) ==> s.workers[w].session)
    case Raise(w) => w in s.workers && !s.workers[w].pc.Idle? && !s.workers[w].pc.AtUnlock?
    case SessionLost(w) => w in s.workers
    case Crash(w) => w in s.workers
    case _ => true
  }

  function Put(s: State, w: WorkerId, k: Worker): State {
    s.(workers := s.workers[w := k])
  }

  /** A session that ends gives up its lock. */
  function Unlocked(s: State, w: WorkerId): State {
    if s.lock == Some(w) then s.(lock := None) else s
  }

  const FRESH := Locals(NOTHING, None, [], NOTHING, NOTHING, [])

  function Perform(d: Dataset, s: State, w: WorkerId, io: Input, acknowledged: bool): State
    requires w in s.workers
  {
    var k := s.workers[w];
    if k.pc.AtUnlock? then Put(Unlocked(s, w), w, To(k, Idle))
    else if !Writes(k.pc) then Put(s, w, Read(d, s, k, io))
    else
      match Effect(d, s, k)
      case None => Put(s, w, Raised(k))
      case Some(t) => Put(t, w, if acknowledged then To(k, AfterWrite(k.pc)) else Raised(k))
  }

  function Next(d: Dataset, s: State, e: Event): State
    requires Enabled(d, s, e)
  {
    match e
    case SourceWrites(rows) => s.(source := rows)
    case WatermarksMove(covered) => s.(watermarks := covered)
    case CoverageMoves(coverage) => s.(coverage := coverage)
    case ObjectAppears(path, content) => s.(store := s.store[path := content])
    case ManifestRestored => s.(manifest := Some(s.manifest.value.(status := Restored)))
    case Connect(w) => Put(s, w, s.workers[w].(session := true))
    case TakeLock(w) => Put(s.(lock := Some(w)), w, Worker(AtExisting, true, FRESH, []))
    case Advance(w, io) => Perform(d, s, w, io, true)
    case AdvanceUnacknowledged(w) => Perform(d, s, w, Input(NOTHING, []), false)
    case Raise(w) => Put(s, w, Raised(s.workers[w]))
    case SessionLost(w) => Put(Unlocked(s, w), w, s.workers[w].(session := false))
    case Crash(w) => Put(Unlocked(s, w), w, Worker(Idle, false, FRESH, []))
  }

  /** One step of a run; an event that cannot happen now changes nothing. */
  function Step(d: Dataset, s: State, e: Event): State {
    if Enabled(d, s, e) then Next(d, s, e) else s
  }

  function Run(d: Dataset, s: State, es: seq<Event>): State
    decreases es
  {
    if es == [] then s else Run(d, Step(d, s, es[0]), es[1..])
  }

  /** No manifest yet, nobody at work; anything may already be stored. */
  predicate Initial(s: State) {
    s.manifest.None? && s.lock.None? && s.seals == [] && forall w | w in s.workers :: s.workers[w].pc.Idle?
  }

  // ---------------------------------------------------------------- what a history proves

  /** How many sights a worker has had at each point after existing_manifest. */
  function SightsAt(pc: Pc): Option<nat> {
    match pc
    case AtExisting => Some(0)
    case AtWatermark => Some(0)
    case AtSummary => Some(1)
    case AtCounts => Some(2)
    case AtCoverage => Some(3)
    case AtExport => Some(4)
    case AtLocalVerify => Some(5)
    case AtResummary => Some(5)
    case AtRecounts => Some(6)
    case AtRewatermark => Some(7)
    case AtRecoverage => Some(8)
    case AtRegister => Some(9)
    case AtUpload => Some(9)
    case AtRemoteVerify => Some(9)
    case AtDownload => Some(9)
    case AtRemoteRead => Some(10)
    case AtVerifyManifest => Some(10)
    case AtSeal => Some(10)
    case _ => None
  }

  /** The i-th sight is the one the protocol calls for and agrees with the local variables. */
  predicate Fits(d: Dataset, v: Locals, i: nat, x: Sight) {
    match i
    case 0 => x == WatermarksCovered
    case 1 => x.BoundsSeen? && Bounds(v.before, x.rows)
    case 2 => CountsFit(d, v.before, x)
    case 3 => x == CoverageSeen(v.coverage)
    case 4 =>
      && x.FileWritten? && x.content == v.content && Summarizes(v.stats, x.rows, d.counted)
      && d.decode(v.content) == Some(Contents(x.rows, v.coverage))
    case 5 => x.BoundsSeen? && Bounds(v.after, x.rows)
    case 6 => CountsFit(d, v.after, x) && v.before == v.stats == v.after
    case 7 => x == WatermarksCovered
    case 8 => x == CoverageSeen(v.coverage)
    case 9 => x == ObjectReread(v.downloaded) && Matches(d, v.downloaded, d.hash(v.content), |v.content|)
    case _ => false
  }

  /** The grouped counts are those of the rows the second statement saw. */
  predicate CountsFit(d: Dataset, m: Summary, x: Sight) {
    if d.counted then x.CountsSeen? && m.counts == CountsOf(x.rows, true) else x.NoCounts? && m.counts == map[]
  }

  predicate Evidenced(d: Dataset, v: Locals, h: seq<Sight>) {
    forall i | 0 <= i < |h| :: Fits(d, v, i, h[i])
  }

  /** A manifest records the digest, size, summary and coverage of some file. */
  ghost predicate Genuine(d: Dataset, m: Manifest) {
    exists c: Bytes :: Describes(d, m, c)
  }

  predicate Describes(d: Dataset, m: Manifest, c: Bytes) {
    && Matches(d, c, m.sha256, m.objectBytes)
    && d.decode(c).Some?
    && Summarizes(m.summary, d.decode(c).value.rows, d.counted)
    && m.coverage == d.decode(c).value.coverage
  }

  /** What two statements of one source summary saw agrees with the summary. */
  predicate Reading(d: Dataset, m: Summary, bounds: Sight, counts: Sight) {
    bounds.BoundsSeen? && Bounds(m, bounds.rows) && CountsFit(d, m, counts)
  }

  /** The whole justification of a seal, in the order the worker saw it: watermarks covered, the
      source in two statements, its coverage; the rows exported; the source in two statements again,
      watermarks again, coverage again; and the stored object re-read, which is byte for byte the file
      written, decodes to exactly the rows exported and has the manifest's size and digest. The rows
      exported have the manifest's summary; each statement of the other two readings agrees with it on
      the rows which that statement saw. */
  predicate Justified(d: Dataset, x: Seal) {
    var m, h := x.manifest, x.history;
    && |h| == 10
    && h[0] == WatermarksCovered && h[7] == WatermarksCovered
    && Reading(d, m.summary, h[1], h[2]) && Reading(d, m.summary, h[5], h[6])
    && h[3] == CoverageSeen(m.coverage) && h[8] == CoverageSeen(m.coverage)
    && h[4].FileWritten? && Summarizes(m.summary, h[4].rows, d.counted)
    && h[9] == ObjectReread(h[4].content)
    && Matches(d, h[9].content, m.sha256, m.objectBytes)
    && d.decode(h[9].content) == Some(Contents(h[4].rows, m.coverage))
  }

  // ---------------------------------------------------------------- the invariant

  /** Its session alive and inside the lock block. */
  predicate Holds(k: Worker) { k.session && InLock(k.pc) }

  predicate PastExisting(pc: Pc) {
    SightsAt(pc).Some? && pc != AtExisting
  }

  /** What a worker holding the lock may rely on. */
  predicate Protected(d: Dataset, m: Option<Manifest>, k: Worker) {
    && (PastExisting(k.pc) && m.Some? ==> !m.value.status.Final())
    && (HasManifestId(k.pc) ==>
          m.Some? && m.value.sha256 == d.hash(k.locals.content) && m.value.objectBytes == |k.locals.content|
          && m.value.summary == k.locals.stats && m.value.coverage == k.locals.coverage)
    && (k.pc.AtSeal? ==> m.value.status.Verified?)
  }

  predicate Local(d: Dataset, k: Worker) {
    SightsAt(k.pc).Some? ==> |k.history| == SightsAt(k.pc).value && Evidenced(d, k.locals, k.history)
  }

  predicate Kept(d: Dataset, m: Manifest, store: map<Digest, Bytes>) {
    m.sha256 in store && Matches(d, store[m.sha256], m.sha256, m.objectBytes)
  }

  /** Once re-read, the object stays: nothing overwrites it. */
  predicate ObjectSeen(d: Dataset, store: map<Digest, Bytes>, k: Worker) {
    k.pc.AtRemoteRead? || k.pc.AtVerifyManifest? || k.pc.AtSeal? ==>
      d.hash(k.locals.content) in store
      && Matches(d, store[d.hash(k.locals.content)], d.hash(k.locals.content), |k.locals.content|)
  }

  predicate LockInv(s: State) {
    && (s.lock.Some? ==> s.lock.value in s.workers && Holds(s.workers[s.lock.value]))
    && (forall w | w in s.workers && Holds(s.workers[w]) :: s.lock == Some(w))
  }

  predicate WorkersInv(d: Dataset, s: State) {
    && (forall w | w in s.workers :: Local(d, s.workers[w]) && ObjectSeen(d, s.store, s.workers[w]))
    && (forall w | w in s.workers && Holds(s.workers[w]) :: Protected(d, s.manifest, s.workers[w]))
  }

  ghost predicate ManifestInv(d: Dataset, s: State) {
    && (s.manifest.Some? ==> Genuine(d, s.manifest.value))
    && (forall i | 0 <= i < |s.seals| :: Justified(d, s.seals[i]) && Kept(d, s.seals[i].manifest, s.store))
    && (s.manifest.Some? && s.manifest.value.status.Final() ==>
          s.seals != [] && s.seals[|s.seals| - 1].manifest == s.manifest.value.(status := Sealed))
  }

  ghost predicate Inv(d: Dataset, s: State) {
    LockInv(s) && WorkersInv(d, s) && ManifestInv(d, s)
  }

  predicate SameBounds(a: Summary, b: Summary) {
    a.rowCount == b.rowCount && a.minTime == b.minTime && a.maxTime == b.maxTime
  }

  /** Once a worker has seen n things, the local variables that those determine stay. */
  predicate Settled(v: Locals, u: Locals, n: nat) {
    && (n > 1 ==> SameBounds(u.before, v.before))
    && (n > 2 ==> u.before == v.before)
    && (n > 3 ==> u.coverage == v.coverage)
    && (n > 4 ==> u.content == v.content && u.stats == v.stats)
    && (n > 5 ==> SameBounds(u.after, v.after))
    && (n > 6 ==> u.after == v.after)
    && (n > 9 ==> u.downloaded == v.downloaded)
  }

  lemma FitsStays(d: Dataset, v: Locals, u: Locals, n: nat, i: nat, x: Sight)
    requires Settled(v, u, n) && i < n && Fits(d, v, i, x)
    ensures Fits(d, u, i, x)
  {
  }

  lemma Extend(d: Dataset, v: Locals, h: seq<Sight>, u: Locals, x: Sight)
    requires Evidenced(d, v, h) && Fits(d, u, |h|, x) && Settled(v, u, |h|)
    ensures Evidenced(d, u, h + [x])
  {
    forall i | 0 <= i < |h|
      ensures Fits(d, u, i, h[i])
    {
      FitsStays(d, v, u, |h|, i, h[i]);
    }
  }

  /** One sight more, or none: the worker stays evidenced. */
  lemma MoveLocal(d: Dataset, k: Worker, r: Worker)
    requires Local(d, k) && SightsAt(k.pc).Some?
    requires SightsAt(r.pc).Some? ==>
               || (r.locals == k.locals && r.history == k.history && SightsAt(r.pc) == SightsAt(k.pc))
               || (&& |r.history| == |k.history| + 1 == SightsAt(r.pc).value && r.history[..|k.history|] == k.history
                   && Fits(d, r.locals, |k.history|, r.history[|k.history|])
                   && Settled(k.locals, r.locals, |k.history|))
    ensures Local(d, r)
  {
    if SightsAt(r.pc).Some? && |r.history| == |k.history| + 1 {
      Extend(d, k.locals, k.history, r.locals, r.history[|k.history|]);
      assert r.history == k.history + [r.history[|k.history|]];
    }
  }

  lemma ReadSourceLocal(d: Dataset, s: State, k: Worker, io: Input)
    requires Local(d, k) && Truthful(d, s, k, io) && SightsAt(k.pc).Some?
    ensures Local(d, ReadSource(d, s, k, io))
  {
    MoveLocal(d, k, ReadSource(d, s, k, io));
  }

  lemma ReadAgainLocal(d: Dataset, s: State, k: Worker, io: Input)
    requires Local(d, k) && Truthful(d, s, k, io) && SightsAt(k.pc).Some?
    ensures Local(d, ReadAgain(d, s, k, io))
  {
    MoveLocal(d, k, ReadAgain(d, s, k, io));
  }

  lemma ReadObjectLocal(d: Dataset, s: State, k: Worker)
    requires Local(d, k) && SightsAt(k.pc).Some?
    ensures Local(d, ReadObject(d, s, k))
  {
    MoveLocal(d, k, ReadObject(d, s, k));
  }

  lemma ReadLocal(d: Dataset, s: State, k: Worker, io: Input)
    requires Local(d, k) && Truthful(d, s, k, io) && !Writes(k.pc)
    ensures Local(d, Read(d, s, k, io))
  {
    if SightsAt(k.pc).Some? {
      ReadSourceLocal(d, s, k, io);
      ReadAgainLocal(d, s, k, io);
      ReadObjectLocal(d, s, k);
    }
  }

  lemma ReadProtected(d: Dataset, s: State, k: Worker, io: Input)
    requires Protected(d, s.manifest, k) && !Writes(k.pc)
    ensures Protected(d, s.manifest, Read(d, s, k, io))
  {
  }

  /** The file a worker is about to register, or has registered, is described by its local variables. */
  lemma OwnFile(d: Dataset, k: Worker, m: Manifest)
    requires Local(d, k) && SightsAt(k.pc).Some? && SightsAt(k.pc).value >= 9
    requires m.sha256 == d.hash(k.locals.content) && m.objectBytes == |k.locals.content|
    requires m.summary == k.locals.stats && m.coverage == k.locals.coverage
    ensures Describes(d, m, k.locals.content)
  {
    assert Fits(d, k.locals, 4, k.history[4]);
  }

  /** A retry that finds a manifest with its own digest finds its own file: digests are injective. */
  lemma RetryAgrees(d: Dataset, m: Manifest, k: Worker)
    requires Injective(d) && Genuine(d, m) && m.sha256 == d.hash(k.locals.content)
    requires Local(d, k) && SightsAt(k.pc).Some? && SightsAt(k.pc).value >= 9
    ensures m.objectBytes == |k.locals.content| && m.summary == k.locals.stats && m.coverage == k.locals.coverage
  {
    var c :| Describes(d, m, c);
    assert c == k.locals.content;
    assert Fits(d, k.locals, 4, k.history[4]);
    SummaryUnique(m.summary, k.locals.stats, k.history[4].rows, d.counted);
  }

  lemma RegisterEffect(d: Dataset, s: State, k: Worker)
    requires Injective(d) && ManifestInv(d, s) && k.pc.AtRegister?
    requires Local(d, k) && Protected(d, s.manifest, k) && Effect(d, s, k).Some?
    ensures var t := Effect(d, s, k).value;
            ManifestInv(d, t) && Protected(d, t.manifest, To(k, AtUpload))
  {
    var m := Registered(d, s, k.locals).value;
    if s.manifest.Some? { RetryAgrees(d, s.manifest.value, k); }
    OwnFile(d, k, m);
  }

  lemma SealEffect(d: Dataset, s: State, k: Worker)
    requires Injective(d) && ManifestInv(d, s) && k.pc.AtSeal?
    requires Local(d, k) && Protected(d, s.manifest, k) && ObjectSeen(d, s.store, k) && Effect(d, s, k).Some?
    ensures ManifestInv(d, Effect(d, s, k).value)
  {
    var t, h, v := Effect(d, s, k).value, k.history, k.locals;
    var x := t.seals[|s.seals|];
    forall i | 0 <= i < 10
      ensures Fits(d, v, i, h[i])
    {
    }
    assert Fits(d, v, 0, h[0]) && Fits(d, v, 1, h[1]) && Fits(d, v, 2, h[2])
           && Fits(d, v, 3, h[3]) && Fits(d, v, 4, h[4]);
    assert Fits(d, v, 5, h[5]) && Fits(d, v, 6, h[6]) && Fits(d, v, 7, h[7])
           && Fits(d, v, 8, h[8]) && Fits(d, v, 9, h[9]);
    assert v.downloaded == v.content;
    assert Justified(d, x);
    OwnFile(d, k, t.manifest.value);
  }

  /** The other writing steps leave a manifest genuine and unsealed. */
  lemma OtherEffect(d: Dataset, s: State, k: Worker)
    requires ManifestInv(d, s) && Writes(k.pc) && !k.pc.AtRegister? && !k.pc.AtSeal? && Effect(d, s, k).Some?
    ensures ManifestInv(d, Effect(d, s, k).value)
  {
    if k.pc.AtUpload? { UploadEffect(d, s, k); } else { StatusEffect(d, s, k); }
  }

  lemma UploadEffect(d: Dataset, s: State, k: Worker)
    requires ManifestInv(d, s) && k.pc.AtUpload? && Effect(d, s, k).Some?
    ensures ManifestInv(d, Effect(d, s, k).value)
  {
    var t := Effect(d, s, k).value;
    assert t.manifest == s.manifest && t.seals == s.seals;
    assert forall p | p in s.store :: p in t.store && t.store[p] == s.store[p];
  }

  lemma StatusEffect(d: Dataset, s: State, k: Worker)
    requires ManifestInv(d, s) && (k.pc.AtVerifyManifest? || k.pc.AtFail?) && Effect(d, s, k).Some?
    ensures ManifestInv(d, Effect(d, s, k).value)
  {
    var m := Effect(d, s, k).value.manifest.value;
    var c :| Describes(d, s.manifest.value, c);
    assert Describes(d, m, c) && !m.status.Final();
  }

  /** A step of one worker that keeps its place in the lock protocol. Only the lock holder may have
      changed the manifest, and stored objects stay. */
  lemma Replace(d: Dataset, s: State, t: State, w: WorkerId, k: Worker)
    requires LockInv(s) && WorkersInv(d, s) && w in s.workers
    requires t.workers == s.workers[w := k] && t.lock == s.lock
    requires forall p | p in s.store :: p in t.store && t.store[p] == s.store[p]
    requires t.manifest == s.manifest || Holds(s.workers[w])
    requires Holds(k) == Holds(s.workers[w])
    requires Local(d, k) && ObjectSeen(d, t.store, k) && (Holds(k) ==> Protected(d, t.manifest, k))
    ensures LockInv(t) && WorkersInv(d, t)
  {
    forall v | v in t.workers
      ensures Local(d, t.workers[v]) && ObjectSeen(d, t.store, t.workers[v])
      ensures Holds(t.workers[v]) ==> t.lock == Some(v) && Protected(d, t.manifest, t.workers[v])
    {
      if v != w { assert t.workers[v] == s.workers[v]; }
    }
  }

  /** A worker leaves the lock block, or loses its session: whatever lock it held is free. */
  lemma Release(d: Dataset, s: State, w: WorkerId, k: Worker)
    requires LockInv(s) && WorkersInv(d, s) && w in s.workers
    requires !Holds(k) && Local(d, k) && ObjectSeen(d, s.store, k)
    ensures var t := Put(Unlocked(s, w), w, k); LockInv(t) && WorkersInv(d, t)
    ensures var t := Put(Unlocked(s, w), w, k); ManifestInv(d, s) ==> ManifestInv(d, t)
  {
    var t := Put(Unlocked(s, w), w, k);
    forall v | v in t.workers
      ensures Local(d, t.workers[v]) && ObjectSeen(d, t.store, t.workers[v])
      ensures Holds(t.workers[v]) ==> t.lock == Some(v) && Protected(d, t.manifest, t.workers[v])
    {
      if v != w { assert t.workers[v] == s.workers[v]; }
    }
  }

  lemma ReadStays(d: Dataset, s: State, k: Worker, io: Input)
    requires ObjectSeen(d, s.store, k) && !k.pc.Idle?
    ensures var r := Read(d, s, k, io); Holds(r) == Holds(k) && ObjectSeen(d, s.store, r)
  {
  }

  lemma ReadInv(d: Dataset, s: State, w: WorkerId, io: Input)
    requires Inv(d, s) && Enabled(d, s, Advance(w, io))
    requires !Writes(s.workers[w].pc) && !s.workers[w].pc.AtUnlock?
    ensures Inv(d, Perform(d, s, w, io, true))
  {
    var k := s.workers[w];
    var r := Read(d, s, k, io);
    assert Local(d, r) by { ReadLocal(d, s, k, io); }
    assert Holds(k) ==> Protected(d, s.manifest, r) by {
      if Holds(k) { ReadProtected(d, s, k, io); }
    }
    ReadStays(d, s, k, io);
    Replace(d, s, Put(s, w, r), w, r);
    PutManifestInv(d, s, w, r);
    assert Perform(d, s, w, io, true) == Put(s, w, r);
  }

  lemma PutManifestInv(d: Dataset, s: State, w: WorkerId, r: Worker)
    requires ManifestInv(d, s)
    ensures ManifestInv(d, Put(s, w, r))
  {
  }

  lemma AfterWriteProtected(d: Dataset, s: State, k: Worker)
    requires Injective(d) && ManifestInv(d, s) && Writes(k.pc) && Effect(d, s, k).Some?
    requires Local(d, k) && Protected(d, s.manifest, k)
    ensures Protected(d, Effect(d, s, k).value.manifest, To(k, AfterWrite(k.pc)))
  {
    if k.pc.AtRegister? { RegisterEffect(d, s, k); }
  }

  /** A writing step leaves the other workers, the lock and every stored object alone. */
  lemma EffectFrame(d: Dataset, s: State, k: Worker)
    requires Effect(d, s, k).Some?
    ensures var t := Effect(d, s, k).value;
            && t.workers == s.workers && t.lock == s.lock
            && (forall p | p in s.store :: p in t.store && t.store[p] == s.store[p])
            && (t.manifest == s.manifest || NeedsSession(k.pc))
  {
  }

  lemma AfterWriteLocal(d: Dataset, s: State, k: Worker)
    requires Writes(k.pc) && Effect(d, s, k).Some? && Local(d, k) && ObjectSeen(d, s.store, k)
    ensures var r := To(k, AfterWrite(k.pc));
            Local(d, r) && ObjectSeen(d, Effect(d, s, k).value.store, r) && Holds(r) == Holds(k)
  {
  }

  lemma WriteKeepsManifestInv(d: Dataset, s: State, k: Worker)
    requires Injective(d) && ManifestInv(d, s) && Writes(k.pc) && Effect(d, s, k).Some?
    requires Local(d, k) && ObjectSeen(d, s.store, k)
    requires NeedsSession(k.pc) ==> Protected(d, s.manifest, k)
    ensures ManifestInv(d, Effect(d, s, k).value)
  {
    if k.pc.AtRegister? { RegisterEffect(d, s, k); }
    else if k.pc.AtSeal? { SealEffect(d, s, k); }
    else { OtherEffect(d, s, k); }
  }

  /** A step raises, with or without an effect of its own. */
  lemma RaisedWorkers(d: Dataset, s: State, t: State, w: WorkerId)
    requires LockInv(s) && WorkersInv(d, s) && w in s.workers && !s.workers[w].pc.Idle?
    requires t.workers == s.workers && t.lock == s.lock
    requires forall p | p in s.store :: p in t.store && t.store[p] == s.store[p]
    requires t.manifest == s.manifest || Holds(s.workers[w])
    ensures var r := Put(t, w, Raised(s.workers[w])); LockInv(r) && WorkersInv(d, r)
  {
    Replace(d, s, Put(t, w, Raised(s.workers[w])), w, Raised(s.workers[w]));
  }

  lemma AcknowledgedWorkers(d: Dataset, s: State, w: WorkerId)
    requires Injective(d) && Inv(d, s) && w in s.workers && Writes(s.workers[w].pc)
    requires NeedsSession(s.workers[w].pc) ==> s.workers[w].session
    requires Effect(d, s, s.workers[w]).Some?
    ensures var k := s.workers[w];
            var r := Put(Effect(d, s, k).value, w, To(k, AfterWrite(k.pc)));
            LockInv(r) && WorkersInv(d, r)
  {
    var k := s.workers[w];
    EffectFrame(d, s, k);
    AfterWriteLocal(d, s, k);
    if Holds(k) { AfterWriteProtected(d, s, k); }
    Replace(d, s, Put(Effect(d, s, k).value, w, To(k, AfterWrite(k.pc))), w, To(k, AfterWrite(k.pc)));
  }

  lemma UnappliedInv(d: Dataset, s: State, w: WorkerId)
    requires Inv(d, s) && w in s.workers && !s.workers[w].pc.Idle?
    ensures Inv(d, Put(s, w, Raised(s.workers[w])))
  {
    RaisedWorkers(d, s, s, w);
  }

  lemma AppliedInv(d: Dataset, s: State, w: WorkerId, acknowledged: bool)
    requires Injective(d) && Inv(d, s) && w in s.workers && Writes(s.workers[w].pc)
    requires NeedsSession(s.workers[w].pc) ==> s.workers[w].session
    requires Effect(d, s, s.workers[w]).Some?
    ensures var k := s.workers[w];
            Inv(d, Put(Effect(d, s, k).value, w, if acknowledged then To(k, AfterWrite(k.pc)) else Raised(k)))
  {
    var k := s.workers[w];
    WriteKeepsManifestInv(d, s, k);
    EffectFrame(d, s, k);
    if acknowledged { AcknowledgedWorkers(d, s, w); } else { RaisedWorkers(d, s, Effect(d, s, k).value, w); }
  }

  lemma WriteInv(d: Dataset, s: State, w: WorkerId, io: Input, acknowledged: bool)
    requires Injective(d) && Inv(d, s) && w in s.workers && Writes(s.workers[w].pc)
    requires NeedsSession(s.workers[w].pc) ==> s.workers[w].session
    ensures Inv(d, Perform(d, s, w, io, acknowledged))
  {
    if Effect(d, s, s.workers[w]).None? {
      UnappliedInv(d, s, w);
    } else {
      AppliedInv(d, s, w, acknowledged);
    }
  }

  lemma ReadingsMoveInv(d: Dataset, s: State, t: State)
    requires Inv(d, s)
    requires t == s.(source := t.source, watermarks := t.watermarks, coverage := t.coverage)
    ensures Inv(d, t)
  {
  }

  lemma ObjectAppearsInv(d: Dataset, s: State, path: Digest, content: Bytes)
    requires Inv(d, s) && path !in s.store
    ensures Inv(d, s.(store := s.store[path := content]))
  {
  }

  lemma RestoredInv(d: Dataset, s: State)
    requires Inv(d, s) && s.manifest.Some? && s.manifest.value.status.Sealed?
    ensures Inv(d, Next(d, s, ManifestRestored))
  {
    var t := Next(d, s, ManifestRestored);
    RestoredManifestInv(d, s, t);
    assert t.workers == s.workers && t.lock == s.lock && t.store == s.store;
  }

  lemma RestoredManifestInv(d: Dataset, s: State, t: State)
    requires ManifestInv(d, s) && s.manifest.Some? && s.manifest.value.status.Sealed?
    requires t == Next(d, s, ManifestRestored)
    ensures ManifestInv(d, t)
  {
    var c :| Describes(d, s.manifest.value, c);
    assert Describes(d, t.manifest.value, c);
  }

  lemma TakeLockInv(d: Dataset, s: State, w: WorkerId)
    requires Inv(d, s) && Enabled(d, s, TakeLock(w))
    ensures Inv(d, Next(d, s, TakeLock(w)))
  {
    var t := Next(d, s, TakeLock(w));
    forall v | v in t.workers
      ensures Local(d, t.workers[v]) && ObjectSeen(d, t.store, t.workers[v])
      ensures Holds(t.workers[v]) ==> t.lock == Some(v) && Protected(d, t.manifest, t.workers[v])
    {
      if v != w { assert t.workers[v] == s.workers[v]; }
    }
  }

  lemma AdvanceInv(d: Dataset, s: State, w: WorkerId, io: Input)
    requires Injective(d) && Inv(d, s) && Enabled(d, s, Advance(w, io))
    ensures Inv(d, Perform(d, s, w, io, true))
  {
    if s.workers[w].pc.AtUnlock? { Release(d, s, w, To(s.workers[w], Idle)); }
    else if Writes(s.workers[w].pc) { WriteInv(d, s, w, io, true); }
    else { ReadInv(d, s, w, io); }
  }

  lemma ConnectInv(d: Dataset, s: State, e: Event)
    requires Inv(d, s) && e.Connect? && Enabled(d, s, e)
    ensures Inv(d, Next(d, s, e))
  {
    Replace(d, s, Next(d, s, e), e.w, s.workers[e.w].(session := true));
  }

  lemma SessionLostInv(d: Dataset, s: State, w: WorkerId)
    requires Inv(d, s) && w in s.workers
    ensures Inv(d, Next(d, s, SessionLost(w)))
  {
    Release(d, s, w, s.workers[w].(session := false));
  }

  lemma CrashInv(d: Dataset, s: State, w: WorkerId)
    requires Inv(d, s) && w in s.workers
    ensures Inv(d, Next(d, s, Crash(w)))
  {
    var k := Worker(Idle, false, FRESH, []);
    Release(d, s, w, k);
    assert Next(d, s, Crash(w)) == Put(Unlocked(s, w), w, k);
  }

  lemma EnvironmentInv(d: Dataset, s: State, e: Event)
    requires Inv(d, s) && Enabled(d, s, e)
    requires e.SourceWrites? || e.WatermarksMove? || e.CoverageMoves? || e.ObjectAppears? || e.ManifestRestored?
    ensures Inv(d, Next(d, s, e))
  {
    if e.ManifestRestored? { RestoredInv(d, s); }
    else if e.ObjectAppears? { ObjectAppearsInv(d, s, e.path, e.content); }
    else { ReadingsMoveInv(d, s, Next(d, s, e)); }
  }

  lemma NextInv(d: Dataset, s: State, e: Event)
    requires Injective(d) && Inv(d, s) && Enabled(d, s, e)
    ensures Inv(d, Next(d, s, e))
  {
    match e
    case TakeLock(w) => TakeLockInv(d, s, w);
    case Connect(w) => ConnectInv(d, s, e);
    case Raise(w) => UnappliedInv(d, s, w);
    case SessionLost(w) => SessionLostInv(d, s, w);
    case Crash(w) => CrashInv(d, s, w);
    case AdvanceUnacknowledged(w) => WriteInv(d, s, w, Input(NOTHING, []), false);
    case Advance(w, io) => AdvanceInv(d, s, w, io);
    case _ => EnvironmentInv(d, s, e);
  }

  lemma StepInv(d: Dataset, s: State, e: Event)
    requires Injective(d) && Inv(d, s)
    ensures Inv(d, Step(d, s, e))
  {
    if Enabled(d, s, e) { NextInv(d, s, e); }
  }

  lemma {:induction false} RunInv(d: Dataset, s: State, es: seq<Event>)
    requires Injective(d) && Inv(d, s)
    ensures Inv(d, Run(d, s, es))
    decreases es
  {
    if es != [] {
      StepInv(d, s, es[0]);
      RunInv(d, Step(d, s, es[0]), es[1..]);
    }
  }

  lemma {:induction false} RunThenStep(d: Dataset, s: State, es: seq<Event>, e: Event)
    ensures Run(d, s, es + [e]) == Step(d, Run(d, s, es), e)
    decreases es
  {
    if es == [] {
      assert es + [e] == [e] && [e][1..] == [];
    } else {
      assert (es + [e])[1..] == es[1..] + [e];
      RunThenStep(d, Step(d, s, es[0]), es[1..], e);
    }
  }

  // ---------------------------------------------------------------- seal safety

  ghost predicate Reachable(d: Dataset, s: State) {
    exists s0, es :: Initial(s0) && s == Run(d, s0, es)
  }

  lemma ReachableInv(d: Dataset, s: State)
    requires Injective(d) && Reachable(d, s)
    ensures Inv(d, s)
  {
    var s0, es :| Initial(s0) && s == Run(d, s0, es);
    RunInv(d, s0, es);
  }

  /** In every reachable state each seal ever made is justified by its worker's own history and its
      object is still stored unchanged; and a sealed or restored manifest is the last one sealed. */
  lemma SealSafety(d: Dataset, s: State, i: nat)
    requires Injective(d) && Reachable(d, s) && i < |s.seals|
    ensures Justified(d, s.seals[i])
    ensures var m, h := s.seals[i].manifest, s.seals[i].history;
            m.sha256 in s.store && s.store[m.sha256] == h[4].content
            && d.decode(s.store[m.sha256]) == Some(Contents(h[4].rows, m.coverage))
    ensures s.manifest.Some? && s.manifest.value.status.Final() ==>
              s.manifest.value.(status := Sealed) == s.seals[|s.seals| - 1].manifest
  {
    ReachableInv(d, s);
    assert Kept(d, s.seals[i].manifest, s.store);
  }

  /** The state of the source that a reading's first statement saw has the whole summary if and only if the second
      statement saw the same grouped counts; so always for a dataset without a source-count column, and always
      when the source did not change between the two. The state the second statement saw has it if and only if it
      has the bounds that the first one saw. */
  lemma OneStateIff(d: Dataset, x: Seal, i: nat)
    requires Justified(d, x) && (i == 1 || i == 5)
    ensures var rows, counts := x.history[i].rows, x.history[i + 1];
            Summarizes(x.manifest.summary, rows, d.counted)
            <==> d.counted ==> CountsOf(rows, true) == CountsOf(counts.rows, true)
    ensures d.counted ==>
              (Summarizes(x.manifest.summary, x.history[i + 1].rows, true)
               <==> Bounds(x.manifest.summary, x.history[i + 1].rows))
  {
  }

  /** A final manifest is the last one sealed, and that seal is justified. */
  lemma FinalMeansSealed(d: Dataset, s: State)
    requires Injective(d) && Reachable(d, s) && s.manifest.Some? && s.manifest.value.status.Final()
    ensures s.seals != [] && s.seals[|s.seals| - 1].manifest == s.manifest.value.(status := Sealed)
    ensures Justified(d, s.seals[|s.seals| - 1])
  {
    ReachableInv(d, s);
  }

  /** Two workers with live sessions are never both inside the lock block, so never both between
      register and seal. */
  lemma MutualExclusion(d: Dataset, s: State, v: WorkerId, w: WorkerId)
    requires Injective(d) && Reachable(d, s) && v in s.workers && w in s.workers
    requires Holds(s.workers[v]) && Holds(s.workers[w])
    ensures v == w
  {
    ReachableInv(d, s);
  }

  /** Once sealed, a worker that can still change the manifest is only re-verifying or leaving. */
  lemma SealedRunsOnlyReverify(d: Dataset, s: State, w: WorkerId)
    requires Injective(d) && Reachable(d, s) && s.manifest.Some? && s.manifest.value.status.Final()
    requires w in s.workers && Holds(s.workers[w])
    ensures s.workers[w].pc in {AtExisting, AtReverify, AtFail, AtUnlock}
  {
    ReachableInv(d, s);
  }

  /** Sealing is final: whatever happens next, the manifest keeps its digest, size, summary and
      coverage, stays sealed or restored, and no second seal is made. */
  lemma {:induction false} SealIsFinal(d: Dataset, s: State, es: seq<Event>)
    requires Injective(d) && Inv(d, s) && s.manifest.Some? && s.manifest.value.status.Final()
    ensures StillSealed(s, Run(d, s, es))
    decreases es
  {
    if es != [] {
      StepInv(d, s, es[0]);
      SealedStep(d, s, es[0]);
      SealIsFinal(d, Step(d, s, es[0]), es[1..]);
    }
  }

  predicate StillSealed(s: State, t: State)
    requires s.manifest.Some?
  {
    && t.manifest.Some? && t.manifest.value.status.Final() && t.seals == s.seals
    && t.manifest.value.(status := Sealed) == s.manifest.value.(status := Sealed)
  }

  /** No statement changes a final manifest; the registration step is never reached. */
  lemma SealedEffect(d: Dataset, s: State, k: Worker)
    requires s.manifest.Some? && s.manifest.value.status.Final()
    requires Effect(d, s, k).Some? && !k.pc.AtRegister?
    ensures StillSealed(s, Effect(d, s, k).value)
  {
  }

  lemma SealedPerform(d: Dataset, s: State, w: WorkerId, io: Input, acknowledged: bool)
    requires LockInv(s) && WorkersInv(d, s) && w in s.workers && s.manifest.Some? && s.manifest.value.status.Final()
    requires NeedsSession(s.workers[w].pc) ==> s.workers[w].session
    ensures StillSealed(s, Perform(d, s, w, io, acknowledged))
  {
    var k := s.workers[w];
    if k.session { assert Local(d, k) && (Holds(k) ==> Protected(d, s.manifest, k)); }
    if Effect(d, s, k).Some? { SealedEffect(d, s, k); }
  }

  lemma SealedStep(d: Dataset, s: State, e: Event)
    requires LockInv(s) && WorkersInv(d, s) && s.manifest.Some? && s.manifest.value.status.Final()
    ensures StillSealed(s, Step(d, s, e))
  {
    if !Enabled(d, s, e) { return; }
    match e
    case Advance(w, io) => SealedPerform(d, s, w, io, true);
    case AdvanceUnacknowledged(w) => SealedPerform(d, s, w, Input(NOTHING, []), false);
    case _ =>
  }
}
