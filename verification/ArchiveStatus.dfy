/** The manifest's status over the archive worker's steps: which step sets which status, that a step which raises
    with a manifest leads to a failed manifest, and what re-verification of a sealed one reads. */
module ArchiveStatus {
  import opened ArchiveSeal
  import opened Common
  import opened Parquet

  /** The step that worker w is about to take. */
  function PcOf(s: State, e: Event): Pc {
    if (e.Advance? || e.AdvanceUnacknowledged?) && e.w in s.workers then s.workers[e.w].pc else Idle
  }

  function StatusOf(s: State): Option<Status> {
    if s.manifest.None? then None else Some(s.manifest.value.status)
  }

  /** Which statuses a step may leave, from which: registered for upload, verified after the re-read, sealed once
      verified, restored once sealed, failed by the except branch; never away from sealed or restored otherwise. */
  lemma StatusMoves(d: Dataset, s: State, e: Event)
    requires StatusOf(Step(d, s, e)) != StatusOf(s)
    ensures var now := StatusOf(Step(d, s, e));
            || (StatusOf(s) == None && now == Some(Uploading) && PcOf(s, e).AtRegister?)
            || (StatusOf(s) in {Some(Uploading), Some(Failed)} && now == Some(Verified) && PcOf(s, e).AtVerifyManifest?)
            || (StatusOf(s) == Some(Verified) && now == Some(Sealed) && PcOf(s, e).AtSeal?)
            || (StatusOf(s) in {Some(Uploading), Some(Verified)} && now == Some(Failed) && PcOf(s, e).AtFail?)
            || (StatusOf(s) == Some(Sealed) && now == Some(Restored) && e.ManifestRestored?)
  {
    if Enabled(d, s, e) && (e.Advance? || e.AdvanceUnacknowledged?) {
      var k := s.workers[e.w];
      assert Effect(d, s, k).Some? && !k.pc.AtUnlock? && Writes(k.pc);
    }
  }

  lemma HolderKnows(d: Dataset, s: State, w: WorkerId)
    requires Injective(d) && Reachable(d, s) && w in s.workers && Holds(s.workers[w])
    ensures Protected(d, s.manifest, s.workers[w]) && s.lock == Some(w)
  {
    ReachableInv(d, s);
  }

  /** A worker holding the lock that takes a writing step that takes effect sets the status of that step. */
  lemma StepSets(d: Dataset, s: State, w: WorkerId)
    requires Injective(d) && Reachable(d, s) && w in s.workers && Holds(s.workers[w])
    requires s.workers[w].pc in {AtVerifyManifest, AtSeal}
    ensures var t := Step(d, s, Advance(w, Input(NOTHING, [])));
            StatusOf(t) == Some(if s.workers[w].pc.AtSeal? then Sealed else Verified)
  {
    HolderKnows(d, s, w);
  }

  /** Where a step raises: with a manifest id the worker goes on to mark the manifest failed, otherwise it only
      unlocks. */
  lemma RaiseLeads(d: Dataset, s: State, w: WorkerId)
    requires Enabled(d, s, Raise(w))
    ensures var pc, next := s.workers[w].pc, Step(d, s, Raise(w)).workers[w].pc;
            next == if pc in {AtUpload, AtRemoteVerify, AtDownload, AtRemoteRead, AtVerifyManifest, AtSeal}
                    then AtFail else AtUnlock
    ensures Step(d, s, Raise(w)).manifest == s.manifest && Step(d, s, Raise(w)).store == s.store
  {
  }

  /** A worker that holds the lock and has a manifest id, and raises, leaves a failed manifest, and then the lock: the
      next worker may start over. */
  lemma RaisedFails(d: Dataset, s: State, w: WorkerId)
    requires Injective(d) && Reachable(d, s) && w in s.workers && Holds(s.workers[w])
    requires s.workers[w].pc in {AtUpload, AtRemoteVerify, AtDownload, AtRemoteRead, AtVerifyManifest, AtSeal}
    ensures var io := Input(NOTHING, []);
            var t := Step(d, Step(d, s, Raise(w)), Advance(w, io));
            && s.manifest.Some? && t.manifest == Some(s.manifest.value.(status := Failed))
            && t.workers[w].pc == AtUnlock && t.lock == Some(w)
            && Step(d, t, Advance(w, io)).lock.None? && Step(d, t, Advance(w, io)).workers[w].pc == Idle
  {
    HolderKnows(d, s, w);
    var raised := Step(d, s, Raise(w));
    assert raised == Put(s, w, s.workers[w].(pc := AtFail));
    FailStep(d, raised, w);
    UnlockStep(d, Step(d, raised, Advance(w, Input(NOTHING, []))), w);
  }

  lemma FailStep(d: Dataset, s: State, w: WorkerId)
    requires w in s.workers && s.workers[w].pc.AtFail? && s.workers[w].session
    requires s.manifest.Some? && !s.manifest.value.status.Final()
    ensures Step(d, s, Advance(w, Input(NOTHING, [])))
            == Put(s.(manifest := Some(s.manifest.value.(status := Failed))), w, s.workers[w].(pc := AtUnlock))
  {
  }

  lemma UnlockStep(d: Dataset, s: State, w: WorkerId)
    requires w in s.workers && s.workers[w].pc.AtUnlock? && s.workers[w].session && s.lock == Some(w)
    ensures Step(d, s, Advance(w, Input(NOTHING, []))) == Put(s.(lock := None), w, s.workers[w].(pc := Idle))
  {
  }

  /** Re-verifying a sealed or restored manifest always succeeds, and reads the stored object with the manifest's
      digest and size; the manifest stays as it is. */
  lemma ReverifyReads(d: Dataset, s: State, w: WorkerId, io: Input)
    requires Injective(d) && Reachable(d, s) && w in s.workers && s.workers[w].pc.AtReverify?
    requires s.manifest.Some? && s.manifest.value.status.Final()
    ensures var t := Step(d, s, Advance(w, io));
            && t.manifest == s.manifest && t.workers[w].pc == AtUnlock
            && |t.workers[w].history| == |s.workers[w].history| + 1
            && var seen := t.workers[w].history[|s.workers[w].history|];
               && seen.ObjectReread? && |seen.content| == s.manifest.value.objectBytes
               && d.hash(seen.content) == s.manifest.value.sha256
  {
    ReachableInv(d, s);
    assert Kept(d, s.seals[|s.seals| - 1].manifest, s.store);
  }

  /** Which way a worker goes when it finds the manifest: a sealed or restored one is re-verified, any other, or none,
      starts the archive over. */
  lemma ExistingLeads(d: Dataset, s: State, w: WorkerId, io: Input)
    requires w in s.workers && s.workers[w].pc.AtExisting? && s.workers[w].session
    ensures Step(d, s, Advance(w, io)).workers[w].pc
            == if StatusOf(s) in {Some(Sealed), Some(Restored)} then AtReverify else AtWatermark
  {
  }

  /** What each check lets pass: the statistics all three equal, the coverage unchanged, the watermarks still covering,
      the stored object of the exported size and digest, and its rows and coverage those of the export. A worker that
      does not pass raises. */
  lemma ChecksAre(d: Dataset, s: State, k: Worker, io: Input)
    ensures k.pc.AtRecounts? ==>
              var after := k.locals.after.(counts := if d.counted then io.summary.counts else map[]);
              Read(d, s, k, io).pc
              == if k.locals.before == k.locals.stats == after then AtRewatermark else Raised(k).pc
    ensures k.pc.AtWatermark? ==> Read(d, s, k, io).pc == if s.watermarks then AtSummary else Raised(k).pc
    ensures k.pc.AtRewatermark? ==> Read(d, s, k, io).pc == if s.watermarks then AtRecoverage else Raised(k).pc
    ensures k.pc.AtRecoverage? ==>
              Read(d, s, k, io).pc == if s.coverage == k.locals.coverage then AtRegister else Raised(k).pc
    ensures k.pc.AtRemoteVerify? || k.pc.AtDownload? ==>
              var sha := d.hash(k.locals.content);
              Read(d, s, k, io).pc
              == if sha in s.store && |s.store[sha]| == |k.locals.content| && d.hash(s.store[sha]) == sha
                 then if k.pc.AtDownload? then AtRemoteRead else AtDownload
                 else Raised(k).pc
    ensures k.pc.AtRemoteRead? ==>
              Read(d, s, k, io).pc
              == match d.decode(k.locals.downloaded)
                 case None => Raised(k).pc
                 case Some(c) =>
                   if Summarizes(k.locals.stats, c.rows, d.counted) && c.coverage == k.locals.coverage
                   then AtVerifyManifest else Raised(k).pc
  {
  }
}
