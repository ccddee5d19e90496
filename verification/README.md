# Propulse: proofs of the stateful parts

Propulse is an amateur-radio application: a bridge process that drives a
radio, a rotator and a spectrum scope, a worker that archives propagation data
before it may be deleted, and edge functions that write calendars and limit
requests. These Dafny modules model the parts of it that keep state over time or
do delicate arithmetic, and prove what they promise over every run.

| file | models |
|---|---|
| `PromiseChain.dfy` | the promise chain on which the controllers run their operations one after the other: promises, reactions, job queue |
| `PttSafety.dfy` | the PTT safety controller: queued operations, a driver that may throw, two timers, lockout, owner |
| `PttOperations.dfy` | what each of its operations does from start to settling, and what it leaves |
| `ArchiveSeal.dfy` | archive-before-delete for one partition: any number of crashing workers, an advisory lock, the manifest row, the object store, a changing source |
| `ArchiveHistory.dfy` | what the workers saw, against the run in which they saw it |
| `ArchiveRestart.dfy` | from which states that protocol can still reach a seal |
| `ArchiveStatus.dfy` | the manifest's status over that protocol's steps, and what each check lets pass |
| `TusUpload.dfy` | the resumable upload against a server that may store part of a chunk, lose any reply or refuse any request |
| `Parquet.dfy` | the export's streaming statistics and the verification that recomputes them |
| `Calendar.dfy`, `Partitions.dfy`, `DueRun.dfy` | the Gregorian calendar, partition arithmetic, the first due partition, the due run |
| `Inventory.dfy`, `Lexicographic.dfy` | the paged walk over the bucket's folders and its reconciliation with the manifests |
| `Timestamps.dfy`, `Coverage.dfy` | canonical timestamps and the check of coverage evidence |
| `Rotor.dfy` | the rotctld client: command queue, framing, timeouts, connection attempts, shutdown |
| `RotorReplies.dfy` | the replies read back line by line, and how each command settles |
| `SpectrumAssembly.dfy` | the CI-V spectrum client's line assembler and its stale timer |
| `SpectrumLines.dfy` | which bytes say what, where on the band a line lies, what is counted as dropped |
| `IcsText.dfy`, `IcsCalendar.dfy`, `NextSession.dfy` | iCalendar escaping and folding; the calendars of nets; next session against recurrence rule |
| `IcsReader.dfy`, `IcsEvents.dfy` | a reader of dates, rules and events by itself, and what it reads from the calendars |
| `RateLimit.dfy`, `SpotDedupe.dfy` | the two tables that expire, and the cluster's line splitting |

`Common.dfy` holds the shared `Option` and `Result`.

The protocols are state machines: a value type for the state, one function a
step, and runs over arbitrary event sequences, on which the main theorems are
stated. Where the program is a class that changes its fields, a Dafny class does
the same, and each method's contract says that it takes exactly the step of the
specification. What the specification computes is in turn stated without its own
functions: by readers, by tables in figures, or on the traces of its runs. A step is
one uninterrupted stretch of JavaScript between two
awaits, or one call of the worker into the database or the store.

Seven findings, each stated exactly:

- A radio whose key-down was confirmed stays owned exactly while no later
  key-down of its owner throws; after such a throw nothing owes it a release
  (`KeyedRadioIsOwned`, with a run that gets there in `KeyedRadioAbandoned`).
- A rotator command that waits for its connection is left waiting for good, with
  all behind it, if and only if a poll fails meanwhile: the poll's error handler
  closes the socket of the attempt (`StrandedIffPollFailed`, with a run in
  `MoveStranded`). Shutdown rejects every other waiting command
  (`ShutdownRejectsWaiting`).
- A source summary is read in two statements, and each sees the source as it is
  then. In every run, a seal's summary is that of the source at the first statement
  if and only if the grouped counts were the same at the second, so only a write
  between the two can tear it (`ReadingsInRun`); `TornReading` is a seal whose
  summary neither of the states it read had.
- A partition that was registered but not sealed can be sealed from a source that
  stays as it is if and only if the registered file is of that very source and
  coverage, the watermarks cover it and its place in the store is its own
  (`RegisteredIff`). A late row after a crash blocks it: `Blocked` gets there for
  any rows and any change to them, and no later run seals anything but the
  registered file (`SealsOnlyTheRegistered`).
- Monthly nets on days 29 to 31 get a session on their day if and only if this
  month's is still to come or next month has the day (`MonthlyIsNextIff`;
  `MonthlyMissed` is a net of the 31st computed at the end of January).
- `computeNextSession` reads the clock twice; a weekly session is on its weekday
  if and only if both readings fall on the same one (`WeekdayAcrossMidnight`;
  `MissedByAMillisecond` has the readings a millisecond apart). When the session is
  the very next, for all readings, is said by `DailyIsNextIff`, `WeeklyIsNextIff`
  and `BiweeklyIsNextIff`.
- A calendar is read back as its content lines if and only if no net with sessions
  has a CRLF in its id, frequency, alternative frequency, mode, band, repeater or
  description, which are written without an escape (`CalendarReadBack`;
  `DescriptionMissed` is a description of two lines). The description then reads as
  its lines if and only if those fields hold no backslash (`DescriptionReadsIff`).

Where code and documentation differ the code is followed: the rate limiter's
header calls its window sliding, but it is a fixed window that opens with a
call, and an entry still counts in the very millisecond it expires.

## Model

| member | source | states |
|---|---|---|
| PttSafety.RunInv | bridge/src/pttSafety.ts:46-147 | over every interleaving of calls, timer firings and driver outcomes the invariant that relates the controller's fields to the driver trace holds |
| PttSafety.DeadMan | bridge/src/pttSafety.ts:46-63 | an idle controller with an owner always owes a release: a timer is armed or a release is queued; a pending release has an owner and is armed, queued or under way |
| PttSafety.KeyedRadioIsOwned | bridge/src/pttSafety.ts:81-97 | the client that last keyed the radio owns it if and only if no key-down has thrown since |
| PttSafety.KeyedRadioAbandoned | bridge/src/pttSafety.ts:84-91 | a run after which the radio is keyed, nobody owns it and no PTT-off was ever commanded |
| PttSafety.NoKeyDownWhileReleaseOwed | bridge/src/pttSafety.ts:70-72 | from a release's command on there is no key-down command until a PTT-off succeeds |
| PttSafety.NoKeyDownWhileLockedOut | bridge/src/pttSafety.ts:67-69 | once lockout is set there is no key-down command until it is cleared |
| PttSafety.OneClientAtATime | bridge/src/pttSafety.ts:73-79 | a client keys down after another only if meanwhile a PTT-off succeeded or the other's key-down threw |
| PttSafety.DriverCallsAreSerial | bridge/src/pttSafety.ts:56-63 | driver calls never overlap: between two of them the first has returned |
| PttSafety.OperationsAreSerial | bridge/src/pttSafety.ts:56-63 | operations start in the order queued, and between two starts one settles, whatever was rejected |
| PttOperations.OperationDoes | bridge/src/pttSafety.ts:65-147 | in every run, from its start to its settling, each operation calls exactly the driver it owes by the account of the trace: a key-up and a release with an owner call PTT off, a key-down is called if and only if nothing stands against it; the outcome is that of the answer |
| PttOperations.KeyUpReachesTheDriver | bridge/src/pttSafety.ts:84-98 | a key-up always reaches the driver and is done if and only if the driver confirmed it |
| PttOperations.SettlingLeaves | bridge/src/pttSafety.ts:84-119 | what a settled operation leaves: a confirmed off no owner, nothing pending and no timer; a confirmed key-down its owner and the key-down timer; a failed release the retry timer |
| PttOperations.KeyUpReleases | bridge/src/pttSafety.ts:93-98 | a key-up that is done leaves no owner, no pending release and both timers clear |
| PttOperations.TimersMove | bridge/src/pttSafety.ts:46-54 | calls and starts leave the timers; one that fires disarms itself and queues a release last |
| PromiseChain.OneAtATime | bridge/src/pttSafety.ts:56-63 | on the chain of promises and jobs, operations begin in the order enqueued and at most one has begun and not ended |
| PromiseChain.TailsNeverReject | bridge/src/pttSafety.ts:61 | no tail ever rejects, so each operation is called as the first argument of then(operation, operation) |
| PromiseChain.NextBegins | bridge/src/pttSafety.ts:56-63 | nothing stops the chain: with none under way the next operation begins within two jobs, however the ones before it ended |
| PttSafety.RecoveryStep | bridge/src/pttSafety.ts:109-128 | while a release is pending each step either recovers fully or counts one more PTT-off per rejection |
| PttSafety.BoundedRecovery | bridge/src/pttSafety.ts:46-54 | until recovery at most one more PTT-off is commanded than the driver rejects, whatever interleaves |
| PttSafety.QueuedReleaseRunsInTurn | bridge/src/pttSafety.ts:130-132 | a pending release at place i of the queue is commanded before i + 1 operations have started |
| PttSafety.PttSafetyController.Enqueue | bridge/src/pttSafety.ts:56-63 | hangs the operation on the tail promise and a new tail on its result, which is the specification's step |
| PttSafety.PttSafetyController.RunJob | bridge/src/pttSafety.ts:56-63 | a queued job is the specification's start step, which then is enabled, if it calls an operation, and else changes nothing that shows |
| PttSafety.PttSafetyController.BeginOperation | bridge/src/pttSafety.ts:130-147 | the operation called, up to its driver call or its end, is what the specification begins |
| PttSafety.PttSafetyController.ManualPtt | bridge/src/pttSafety.ts:65-85 | the three guards and the claim of ownership before the driver call |
| PttSafety.PttSafetyController.ReleaseNow | bridge/src/pttSafety.ts:109-115 | without an owner it ends at once, otherwise it owes a release and commands PTT off |
| PttSafety.PttSafetyController.DriverReturns | bridge/src/pttSafety.ts:84-119 | success or throw of the driver call has exactly the specification's effect on owner, timers and pending release |
| PttSafety.PttSafetyController.MaxKeyDownTimerFires | bridge/src/pttSafety.ts:100-105 | the key-down timer disarms and queues a release |
| PttSafety.PttSafetyController.ReleaseRetryTimerFires | bridge/src/pttSafety.ts:46-54 | the retry timer disarms and queues a release |
| ArchiveSeal.RunInv | archive-worker/propagation_archive/worker.py:103-214 | the protocol invariant holds over N workers, source writes between any two statements, raised steps, lost acknowledgements, lost sessions and crashes |
| ArchiveSeal.SealSafety | archive-worker/propagation_archive/worker.py:127-210 | every seal was preceded, in its own worker, by watermarks, a reading of the source in two statements, coverage, export, the two statements again, coverage and watermarks again, and a re-read of the stored bytes with the manifest's size and digest that decode to exactly the rows exported; bounds, counts and rows each seen agree with the manifest's summary; the object is still stored |
| ArchiveHistory.ReadingsInRun | archive-worker/propagation_archive/database.py:143-179 | in every run a sealed summary is that of the source at its reading's first statement if and only if the source had the same grouped counts at the second; if it is not, a write between the two changed them |
| ArchiveHistory.SealHappened | archive-worker/propagation_archive/worker.py:103-214 | every seal's history happened: ten steps of one worker, in order, each of which saw what the state of the run then held |
| ArchiveHistory.StepGrows | archive-worker/propagation_archive/worker.py:103-214 | a step adds to a worker's history nothing or one thing that is so in that state |
| ArchiveRestart.TornReading | archive-worker/propagation_archive/database.py:150-169 | a reachable seal whose summary is that of neither state its reading saw |
| ArchiveRestart.RunsToSeal | archive-worker/propagation_archive/worker.py:103-214 | from a state in which nobody works a worker reaches a seal, whatever its five statements see, as long as they agree on one summary |
| ArchiveRestart.CanSealIff | archive-worker/propagation_archive/worker.py:1 | with source, watermarks and coverage unchanged, a partition not yet final can be sealed if and only if the watermarks cover it and an export of the present source is one that the registered manifest and the store allow |
| ArchiveRestart.RegisteredIff | supabase/migrations/20260719000000_propagation_archive_foundation.sql:291-306 | a registered partition can be sealed from a source that stays as it is if and only if the watermarks cover it, its manifest's own file is of that source and coverage, and the file's place holds nothing else |
| ArchiveRestart.UnregisteredIff | archive-worker/propagation_archive/worker.py:103-214 | an unregistered partition whose present export has a free place can be sealed if and only if the watermarks cover it |
| ArchiveRestart.SealsOnlyTheRegistered | supabase/migrations/20260719000000_propagation_archive_foundation.sql:291-306 | whatever happens after a registration, every seal is of the registered file, exported from exactly its rows and coverage |
| ArchiveRestart.Blocked | supabase/migrations/20260719000000_propagation_archive_foundation.sql:291-306 | for any rows and any late change to them, a reachable state in which the registered partition can no longer be sealed |
| ArchiveRestart.SealIsExportable | supabase/migrations/20260719000000_propagation_archive_foundation.sql:291-306 | every seal made while nothing else changed is of the file its worker exported from the present source and coverage, and has that file's digest |
| ArchiveSeal.FinalMeansSealed | supabase/migrations/20260719000000_propagation_archive_foundation.sql:374-403 | a sealed or restored manifest is the one last sealed, by that procedure |
| ArchiveStatus.StatusMoves | supabase/migrations/20260719000000_propagation_archive_foundation.sql:241-437 | which step may set which status, and from which |
| ArchiveStatus.RaisedFails | archive-worker/propagation_archive/worker.py:209-212 | a worker with a manifest id that raises leaves a failed manifest, then the lock |
| ArchiveStatus.ReverifyReads | archive-worker/propagation_archive/worker.py:104-123 | re-verifying a sealed manifest always succeeds and reads the stored object with its digest and size |
| ArchiveStatus.ExistingLeads | archive-worker/propagation_archive/worker.py:104-123 | a sealed or restored manifest is re-verified, any other starts the archive over |
| ArchiveStatus.ChecksAre | archive-worker/propagation_archive/worker.py:127-205 | what each check lets pass, and that otherwise the worker raises |
| ArchiveSeal.MutualExclusion | archive-worker/propagation_archive/database.py:45-69 | two workers with live sessions are never both inside the lock |
| ArchiveSeal.SealedRunsOnlyReverify | archive-worker/propagation_archive/worker.py:104-123 | once sealed, a worker holding the lock is only re-verifying or leaving |
| ArchiveSeal.SealIsFinal | supabase/migrations/20260719000000_propagation_archive_foundation.sql:405-437 | whatever happens after a seal, digest, size, summary and coverage stay, and no second seal is made |
| ArchiveSeal.RetryAgrees | supabase/migrations/20260719000000_propagation_archive_foundation.sql:291-306 | a registration retry that finds its own digest finds its own file's manifest |
| Parquet.SummaryUnique | archive-worker/propagation_archive/worker.py:67-73 | two summaries that match one row sequence are equal, so matching summaries means equal statistics |
| Parquet.CountsSumToRows | archive-worker/propagation_archive/parquet.py:113-115 | the per-source counts sum to the row count |
| Parquet.SummaryAppend | archive-worker/propagation_archive/parquet.py:104-115 | the running statistics after one more row are the true ones of all rows so far |
| Parquet.FoldBatch | archive-worker/propagation_archive/parquet.py:104-115 | folding a batch keeps the statistics true of all rows so far |
| Parquet.ExportPartition | archive-worker/propagation_archive/parquet.py:56-115 | for every batch size the file has exactly the query's rows and the statistics are theirs |
| Parquet.VerifyParquet | archive-worker/propagation_archive/parquet.py:153-210 | accepts if and only if digest, footer count and the file's true summary are as expected |
| Parquet.ExportThenVerify | archive-worker/propagation_archive/worker.py:133-154 | a file is accepted with its own export's statistics and with no others |
| TusUpload.Upload | archive-worker/propagation_archive/storage.py:248-333 | succeeds if and only if an object already there is the file's by size and digest, nothing was refused and no four PATCHes in a row went unacknowledged; on success the object is the file; every PATCH carries the file's bytes from the server's length; each error names the reply that ended the run, and an uploaded object is never missing or different |
| TusUpload.SendAll | archive-worker/propagation_archive/storage.py:283-331 | sends the whole file if and only if its exchanges were smooth, and otherwise reports the error they explain |
| TusUpload.CheckStored | archive-worker/propagation_archive/storage.py:332-333 | the final check of a stored file fails only if its GET is refused |
| TusUpload.Joined | archive-worker/propagation_archive/storage.py:285-329 | what follows an acknowledged PATCH is judged on its own, so attempts are counted per chunk |
| TusUpload.SendChunk | archive-worker/propagation_archive/storage.py:285-329 | the retry loop makes progress if and only if nothing was refused within four attempts, otherwise reports the error of its last reply, and its else branch is unreachable |
| TusUpload.Attempt | archive-worker/propagation_archive/storage.py:286-327 | one turn of the loop advances, asks for the offset and retries, or raises, by the reply it got |
| TusUpload.QueryOffset | archive-worker/propagation_archive/storage.py:335-345 | the queried offset is the server's length, and an error is a refused HEAD |
| TusUpload.Verify | archive-worker/propagation_archive/storage.py:201-220 | true means the stream has the expected size and digest, false that the object is missing, and each error what it says |
| Calendar.NextDayOrdinal | archive-worker/propagation_archive/database.py:588-589 | the next calendar day is exactly one day on, over months, years and leap years |
| Calendar.NextDayIs | archive-worker/propagation_archive/database.py:588-589 | the next day by the twelve months' lengths: the month's next day until its last, then the first of the next |
| Calendar.OrdinalIs | archive-worker/propagation_archive/database.py:573-592 | a day's number in figures: years, the days before each month, leap day and day |
| Calendar.DaysBefore | archive-worker/propagation_archive/database.py:573-592 | the days of a year before each month's first |
| Calendar.LeapDays | archive-worker/propagation_archive/database.py:588-592 | 29 February is in 2024 and 2000 and not in 1900 |
| Calendar.TheEpoch | api/_lib/icsGenerator.ts:171-182 | 1 January 1970 is day 719163 and a Thursday |
| Calendar.MonthsTile | archive-worker/propagation_archive/database.py:590-592 | a month ends before every later month begins |
| Calendar.OrdinalInjective | archive-worker/propagation_archive/database.py:573-592 | no two dates have one day number |
| Partitions.PartitionSpan | archive-worker/propagation_archive/database.py:584-593 | the next partition starts where this one ends: an hour, a day, or the month's days on, in figures, and is aligned |
| Partitions.FloorContains | archive-worker/propagation_archive/database.py:573-581 | every datetime is inside the partition of its floor |
| Partitions.PartitionsApart | archive-worker/propagation_archive/database.py:573-593 | a partition ends before any later one starts |
| Partitions.FloorIffInside | archive-worker/propagation_archive/database.py:573-593 | the floor of t is s if and only if t is in s's partition: partitions tile time |
| Partitions.BoundaryIsPast | archive-worker/propagation_archive/database.py:596-601 | the closed boundary is aligned and never after now |
| Partitions.BoundaryIs | archive-worker/propagation_archive/database.py:596-601 | the boundary of days and months is the start of the one now is in, of hours the last full hour or, until the settling time has passed, the one before |
| Partitions.BoundaryMonotone | archive-worker/propagation_archive/database.py:596-601 | the closed boundary never moves back as now advances |
| Partitions.BoundarySettled | archive-worker/propagation_archive/database.py:599-601 | hourly boundaries are at least the settling time old, for every now, if and only if that time is at most an hour |
| Partitions.FirstDuePartition | archive-worker/propagation_archive/worker.py:232-249 | terminates with exactly the earliest closed partition from the oldest row without a live manifest, one that validation and the boundary test accept |
| DueRun.TakeTurn | archive-worker/propagation_archive/cli.py:113-133 | a dataset without a due partition is passed over, otherwise exactly its earliest due one is archived |
| DueRun.Round | archive-worker/propagation_archive/cli.py:111-136 | every receipt is for its dataset's earliest due partition at its turn, the datasets come in their order and each at most once, and a round without progress means that no enabled dataset has one due |
| DueRun.RunDue | archive-worker/propagation_archive/cli.py:101-143 | terminates; every receipt is for its dataset's earliest due partition at its turn; the datasets come round by round; no partition is archived twice; it stops short of the limit only when nothing is due; unsupported datasets are refused before anything is archived |
| Inventory.PathsDistinct | archive-worker/propagation_archive/storage.py:177-190 | no two objects of a bucket have one path, also where an object and a folder share a name |
| Inventory.PageConserves | archive-worker/propagation_archive/storage.py:176-192 | what a page names holds exactly what is below its items |
| Inventory.ReadPage | archive-worker/propagation_archive/storage.py:176-192 | a page's objects and folders are all taken up, or the error is for an invalid item or the limit |
| Inventory.PageIs | archive-worker/propagation_archive/storage.py:160-195 | a page has a thousand entries, or what is left |
| Inventory.ListFolder | archive-worker/propagation_archive/storage.py:160-195 | a folder is read to its end, also when its size is a multiple of the page size |
| Inventory.ListObjects | archive-worker/propagation_archive/storage.py:152-199 | the walk terminates and lists every object exactly once, sorted; it fails only over the limit or because the server did |
| Inventory.ListedOnce | archive-worker/propagation_archive/storage.py:199 | a complete listing's paths are strictly increasing |
| Inventory.SortByPath | archive-worker/propagation_archive/storage.py:199 | the sorted listing is a permutation in path order |
| Inventory.ReconcileClassifies | archive-worker/propagation_archive/reconcile.py:15-27 | every path is missing, orphaned, mismatched or agreeing by exactly its condition, in sorted lists without repetition |
| Inventory.PassesIffEqual | archive-worker/propagation_archive/reconcile.py:43-44 | it passes if and only if both maps of path to size are equal |
| Inventory.ActualIsBucket | archive-worker/propagation_archive/reconcile.py:14-16 | the map of a listing is the bucket's own map |
| Inventory.ReconcileInventory | archive-worker/propagation_archive/reconcile.py:9-51 | it passes if and only if the manifests' map is the bucket's, and counts and lists are exact |
| Lexicographic.IncreasingUnique | archive-worker/propagation_archive/reconcile.py:17-18 | a sorted list without repetition is determined by its elements |
| Lexicographic.LessIs | archive-worker/propagation_archive/reconcile.py:17-18 | at the first difference the smaller character decides, and a string comes before those it starts |
| Timestamps.ParseInverts | archive-worker/propagation_archive/coverage.py:78-84 | exactly the strings that the formatter writes are accepted, as the times they were written from |
| Timestamps.FormatIs | archive-worker/propagation_archive/coverage.py:14-19 | a timestamp place by place: YYYY-MM-DDTHH:MM:SS.ffffffZ |
| Timestamps.StringOrderIsTimeOrder | archive-worker/propagation_archive/coverage.py:14-19 | canonical timestamps compare as strings exactly as they do in time |
| Coverage.CanonicalGap | archive-worker/propagation_archive/coverage.py:62-87 | accepts a gap if and only if it meets every condition, given the gap before it |
| Coverage.CanonicalGaps | archive-worker/propagation_archive/coverage.py:59-90 | accepts a gap list if and only if each gap fits after the one before |
| Coverage.CanonicalCoverage | archive-worker/propagation_archive/coverage.py:22-96 | accepts exactly the canonical evidence for the range, and returns it |
| Coverage.OnTheHourIff | archive-worker/propagation_archive/coverage.py:85-86 | the test on a timestamp's end is the test that it is on the hour |
| Coverage.GapsFitInTime | archive-worker/propagation_archive/coverage.py:75-89 | the checks on strings accept a gap list if and only if, in time, gaps strictly increase and each reaches into the range |
| Coverage.AcceptedInTime | archive-worker/propagation_archive/coverage.py:58-96 | accepted gaps start strictly one after the other, are whole hours and meet the partition |
| Coverage.Idempotent | archive-worker/propagation_archive/coverage.py:91-97 | canonical evidence canonicalised again is itself, and nothing else is |
| Coverage.TextDecides | archive-worker/propagation_archive/coverage.py:98-99 | two accepted evidences are equal if and only if their texts are |
| Rotor.RunInv | bridge/src/rotor.ts:386-549 | the client's invariant holds over every run of calls, callbacks, pieces of data and shutdown |
| Rotor.DrainReply | bridge/src/rotor.ts:471-489 | however a reply is cut into pieces, the loop completes exactly with its last byte and takes exactly its lines |
| Rotor.ReplyBelongsToItsCommand | bridge/src/rotor.ts:471-514 | a command that resolved did so with the server's reply to that command; a late reply is never given to another |
| Rotor.WrittenSettlesOnce | bridge/src/rotor.ts:491-531 | a written command has settled or is the one in flight, and how it settled never changes |
| Rotor.AnsweredResolves | bridge/src/rotor.ts:471-514 | a written command whose server answers with the expected lines, in pieces of any size, resolves with exactly that answer |
| RotorReplies.AnsweredReads | bridge/src/rotor.ts:471-489 | the text with which it resolves, split at its newlines, is the answer's lines in order |
| RotorReplies.ResolvedReads | bridge/src/rotor.ts:471-489 | in every run a command that resolved holds a text that reads as the lines of the server's answer to it |
| RotorReplies.ResponseReads | bridge/src/rotor.ts:481 | the response to tidy lines, split at its newlines, is those lines in order |
| RotorReplies.ResponseKeepsLines | bridge/src/rotor.ts:65-90 | for every answer, blank lines and white space included, the caller reads from the response what it would read from the answer's own lines |
| RotorReplies.PositionReads | bridge/src/rotor.ts:65-90 | a position's two lines come out in their order |
| RotorReplies.TrimIs | bridge/src/rotor.ts:481 | trimming takes white space off both ends, all of it and nothing else |
| Rotor.AnyPiecesResolve | bridge/src/rotor.ts:471-489 | from any state in which its reply is on the way, delivering the rest of it in any pieces resolves the command with the reply |
| Rotor.PieceArrives | bridge/src/rotor.ts:471-489 | the last piece of a reply resolves its command, and an earlier one keeps it waiting |
| Rotor.WrittenWasCleared | bridge/src/rotor.ts:400-407 | every move or stop written had its interlock asked at the beginning of its own turn, before any socket was opened for it, no other turn between, and the interlock let it pass |
| Rotor.NothingAfterShutdown | bridge/src/rotor.ts:280-294 | after shutdown no socket is opened and nothing is written, wherever a command was suspended |
| Rotor.StrandedForever | bridge/src/rotor.ts:533-540 | a command waiting on a silenced attempt never settles, nor does anything queued behind it, not even by shutdown; only later calls settle, rejected at once |
| Rotor.WaitingSettlesIffHeard | bridge/src/rotor.ts:417-469 | a command waiting for its connection can settle if and only if its attempt's socket is still heard |
| Rotor.StrandsIffPollFails | bridge/src/rotor.ts:341-364 | an event strands a waiting command if and only if it is a failed poll |
| Rotor.StrandedIffPollFailed | bridge/src/rotor.ts:341-364 | a run ends with a command stranded if and only if at some point a poll failed while a command waited for its connection |
| Rotor.ShutdownRejectsWaiting | bridge/src/rotor.ts:273-294 | shutdown rejects a command that waits on an attempt still heard |
| RotorReplies.InFlightFails | bridge/src/rotor.ts:439-458 | a request in flight is rejected by its timer, a failed poll, shutdown, and an error or close of a socket that is heard |
| RotorReplies.ClosingSilences | bridge/src/rotor.ts:533-548 | after a timeout, a failed poll or shutdown nothing is connected or connecting and the old sockets are heard no more |
| RotorReplies.CallGoes | bridge/src/rotor.ts:386-415 | a call is rejected at once after shutdown, otherwise it goes to the end of the queue |
| RotorReplies.RefusedAtItsTurn | bridge/src/rotor.ts:394-406 | a command whose turn comes after shutdown or whose interlock blocks it is rejected without a socket |
| RotorReplies.ConnectWrites | bridge/src/rotor.ts:429-437 | a command waiting for its connection is written, timed, as soon as it is up |
| RotorReplies.ReuseWrites | bridge/src/rotor.ts:421 | a command whose turn comes while a socket is connected is written on it |
| RotorReplies.FailedAttemptRejects | bridge/src/rotor.ts:443-451 | a command whose attempt fails or times out is rejected |
| Rotor.MoveStranded | bridge/src/rotor.ts:443-465 | a run that strands a move |
| Rotor.RotorController.EnqueueCommand | bridge/src/rotor.ts:386-415 | a command is rejected at once when closed, else hung on the tail promise |
| Rotor.RotorController.Hang | bridge/src/rotor.ts:409-414 | the result follows the tail however that settles and the new tail swallows the result; the command is queued last |
| Rotor.RotorController.RunJob | bridge/src/rotor.ts:409-414 | a queued job is the specification's start step, which then is enabled, if it calls a command, and else changes nothing that shows |
| Rotor.RotorController.StartNextCommand | bridge/src/rotor.ts:394-422 | a command's turn up to its connection is the specification's step |
| Rotor.RotorController.ConnectFor | bridge/src/rotor.ts:417-469 | a connected socket, the attempt in progress or a new one, as the specification's connect |
| Rotor.RotorController.ResumeCommand | bridge/src/rotor.ts:406-407 | after the await the command writes or rejects, as specified |
| Rotor.RotorController.WriteCommand | bridge/src/rotor.ts:491-514 | a write replaces the request in flight and asks the server, as specified |
| Rotor.RotorController.ReceiveData | bridge/src/rotor.ts:471-489 | the data handler is the specification's step: a complete reply resolves the pending command |
| Rotor.RotorController.TakeLines | bridge/src/rotor.ts:471-489 | the loop over whole lines does what the specification's drain does |
| Rotor.RotorController.OnSocketClose | bridge/src/rotor.ts:453-458 | a close forgets the socket, fails the request in flight and clears the buffer |
| Rotor.RotorController.CloseSockets | bridge/src/rotor.ts:533-548 | both sockets are silenced and the request in flight fails |
| Rotor.RotorController.ShutDown | bridge/src/rotor.ts:280-294 | closes for good and rejects what its reject function still reaches |
| SpectrumAssembly.LinesAreMade | bridge/src/civ.ts:230-371 | every emitted line is its header and exactly the consecutive fragments since, in order |
| SpectrumLines.LinesLie | bridge/src/civ.ts:345-371 | in every run every emitted line lies where its header says: from the first frequency to the second, or in mode 0 around the first and as far to each side as the second |
| SpectrumLines.DropsAreCounted | bridge/src/civ.ts:305-390 | exactly the lines lost to the stale timer, a fragment out of turn or a missing span are counted as dropped |
| SpectrumLines.TimerMoves | bridge/src/civ.ts:146-191 | which frames and events arm and disarm the stale timer; a reconnection and a fragment out of turn leave it |
| SpectrumAssembly.TimeoutIsItsOwn | bridge/src/civ.ts:378-390 | an assembly in progress always has its timer armed, and by its own latest accepted frame, so only that timer drops it |
| SpectrumAssembly.ProgressMeans | bridge/src/civ.ts:305-330 | a header's progress is complete at n, open or lost by exactly the numbering of the fragments |
| SpectrumAssembly.FeedDecides | bridge/src/civ.ts:266-330 | from any state, what becomes of a header depends only on the fragments after it |
| SpectrumAssembly.OnlyTheWholeLine | bridge/src/civ.ts:305-330 | fed any loss, repetition and reordering of a cut line's fragments, the line comes out if and only if they start with the whole cut in order |
| SpectrumAssembly.RoundTrip | bridge/src/civ.ts:266-371 | cutting a line up and feeding it back, from any state, emits that line |
| SpectrumAssembly.LineFramesRoundTrip | bridge/src/civ.ts:230-371 | from the bytes to the line: the frames that encode a line, handled from any state, make the assembler emit exactly that line |
| SpectrumLines.FramesLie | bridge/src/civ.ts:230-371 | from the bytes to the line: the emitted line lies where the encoded header says and has the pieces' pixels |
| SpectrumLines.TwentyMetres | bridge/src/civ.ts:350-356 | a fixed line from 14.000 to 14.350 MHz is centred at 14.175 MHz |
| SpectrumAssembly.OneFrameRoundTrip | bridge/src/civ.ts:266-299 | a line encoded in one frame comes out with that frame's pixels |
| SpectrumLines.OneFrameLies | bridge/src/civ.ts:266-299 | the same of a line in one frame |
| SpectrumAssembly.ChunksDoNotMatter | bridge/src/civ.ts:230-258 | however frames are split over chunks of data the assembler ends up the same |
| SpectrumAssembly.HeaderReadBack | bridge/src/civ.ts:230-282 | a header's frame is read back as that header |
| SpectrumLines.HeaderBytes | bridge/src/civ.ts:230-282 | which frames are headers, and which of their bytes are index, numbers, mode, the two frequencies and pixels |
| SpectrumLines.FragmentBytes | bridge/src/civ.ts:230-258 | which frames are later fragments, and which of their bytes are what |
| SpectrumAssembly.FragmentReadBack | bridge/src/civ.ts:230-258 | a fragment's frame is read back as that fragment |
| SpectrumAssembly.BcdRoundTrip | bridge/src/civ/codec.ts:48-61 | decoding five BCD bytes inverts their encoding |
| SpectrumAssembly.CivSpectrumClient.HandleData | bridge/src/civ.ts:230-258 | the frames of a chunk take the assembler through exactly their steps |
| SpectrumAssembly.CivSpectrumClient.HandleSequenceHeader | bridge/src/civ.ts:266-299 | a header opens a line, or is the whole of one |
| SpectrumAssembly.CivSpectrumClient.HandleSequencePixels | bridge/src/civ.ts:305-330 | a fragment extends, completes or drops the assembly as specified |
| SpectrumAssembly.CivSpectrumClient.EmitCompleteLine | bridge/src/civ.ts:333-375 | emits the line unless it is empty or its span is not positive |
| SpectrumAssembly.CivSpectrumClient.TimerFires | bridge/src/civ.ts:383-389 | the stale timer drops the assembly and counts it |
| SpectrumAssembly.CivSpectrumClient.DoConnect | bridge/src/civ.ts:186-191 | a reconnection drops the assembly and leaves the old timer armed |
| SpectrumAssembly.CivSpectrumClient.Disconnect | bridge/src/civ.ts:146-173 | a disconnection drops both |
| IcsText.PassesAreOneEscape | api/_lib/icsGenerator.ts:71-77 | the four global replacements are one escape of each character |
| IcsText.EscapeRoundTrip | api/_lib/icsGenerator.ts:71-77 | unescaping gives the text back with CRLF read as LF |
| IcsText.FoldLine | api/_lib/icsGenerator.ts:83-97 | the loop's result is the folded physical lines joined by CRLF |
| IcsText.PartsAreShort | api/_lib/icsGenerator.ts:83-97 | physical lines have at most 70 characters, all but the last exactly 70, and all but the first start with a space |
| IcsText.UnfoldFolded | api/_lib/icsGenerator.ts:83-97 | unfolding takes a folded line without a CRLF back, whatever follows it |
| IcsText.DocumentRoundTrip | api/_lib/icsGenerator.ts:356-372 | a whole calendar unfolded and split gives back its content lines if and only if none holds a CRLF |
| IcsText.PhysicalLinesAreShort | api/_lib/icsGenerator.ts:356-372 | every physical line of a calendar has at most 70 characters, whatever its content lines hold |
| IcsText.TextPropertyRoundTrip | api/_lib/icsGenerator.ts:306-308 | a text property escaped, folded, unfolded and unescaped is its text with CRLF read as LF |
| IcsCalendar.CalendarReadBack | api/_lib/icsGenerator.ts:305-399 | a bundle's calendar is read back as its content lines if and only if no net with sessions has a CRLF in a field that is written as it is |
| IcsCalendar.DescriptionCrlf | api/_lib/icsGenerator.ts:270-299 | the description holds a CRLF if and only if one of the net's fields in it does |
| IcsCalendar.DescriptionMissed | api/_lib/icsGenerator.ts:270-299 | every net with sessions and a description of two lines ended by CRLF has a calendar that is not read back |
| IcsCalendar.DescriptionReadsIff | api/_lib/icsGenerator.ts:270-299 | the description's value reads as its lines if and only if none of the net's fields in it holds a backslash |
| IcsCalendar.BreaksRead | api/_lib/icsGenerator.ts:298 | parts joined by backslash and n read as the lines they are if and only if none holds a backslash |
| IcsCalendar.BackslashMissed | api/_lib/icsGenerator.ts:290-299 | every net with a backslash between two letters as its description is misread |
| IcsCalendar.EventCrlf | api/_lib/icsGenerator.ts:316-348 | an event's lines hold a CRLF if and only if the net has sessions and one of its raw fields does |
| IcsCalendar.GenerateBundleIcs | api/_lib/icsGenerator.ts:378-399 | the loop over the nets writes exactly the content lines, each folded and ended by CRLF |
| IcsEvents.CalendarSays | api/_lib/icsGenerator.ts:378-399 | a bundle's text, read: a head and a foot, and between them twelve lines for each net with sessions, and nothing else |
| IcsEvents.CalendarSaysNet | api/_lib/icsGenerator.ts:316-399 | of each net with sessions, in their order, the text has twelve lines that say it |
| IcsEvents.EventSays | api/_lib/icsGenerator.ts:316-348 | the twelve lines say identity, stamp, start to the second, an end the net's minutes later or 60, rule, name, description, place and address |
| IcsEvents.EventRecurs | api/_lib/icsGenerator.ts:316-348 | by its lines alone an event recurs exactly at the net's meetings after now |
| IcsEvents.EndIs | api/_lib/icsGenerator.ts:322-323 | the end is the net's minutes after the start |
| IcsEvents.DescriptionLists | api/_lib/icsGenerator.ts:270-299 | which lines the description has, in which order |
| IcsCalendar.GenerateNetIcs | api/_lib/icsGenerator.ts:356-372 | one net's calendar is the bundle of that net under its name |
| NextSession.DailyIsNext | api/_lib/icsGenerator.ts:163-169 | read on one day, a daily session is the first one after now, at most a day ahead |
| NextSession.DailyIsNextIff | api/_lib/icsGenerator.ts:136-169 | for every two clock readings the daily session is the first one after now if and only if they are of one day, or of adjacent days on the right sides of the session's time |
| NextSession.WeeklyIsNext | api/_lib/icsGenerator.ts:171-182 | read on one day, a weekly session is the first one after now, at most a week ahead |
| NextSession.WeeklyIsNextIff | api/_lib/icsGenerator.ts:136-182 | for every two clock readings the weekly session is the first one after now if and only if they are of one day, or a week apart on the right sides of the session |
| NextSession.BiweeklyIsAhead | api/_lib/icsGenerator.ts:184-200 | read on one day, a biweekly session is on its weekday, after now, at most two weeks ahead, and the very next if and only if this week's is still to come |
| NextSession.BiweeklyIsNextIff | api/_lib/icsGenerator.ts:136-200 | for every two clock readings, when the biweekly session is the very next of its weekday |
| NextSession.WeekdayAcrossMidnight | api/_lib/icsGenerator.ts:136-182 | with two clock readings the weekday is right if and only if both fall on one weekday |
| NextSession.MissedByAMillisecond | api/_lib/icsGenerator.ts:136-182 | for every date: with the two readings a millisecond apart over midnight that day's weekly net comes out on another weekday |
| NextSession.WeekdayMissed | api/_lib/icsGenerator.ts:136-182 | a Monday's net comes out on another day than Monday |
| NextSession.MonthlyIsNextIff | api/_lib/icsGenerator.ts:202-221 | for days 1 to 31 a monthly session is after now, and is the first on its day if and only if this month's is to come or next month has the day |
| NextSession.MonthlyMissed | api/_lib/icsGenerator.ts:202-221 | a net of the 31st, computed on 31 January after its session, gets a session on another day |
| NextSession.MonthlyIsNext | api/_lib/icsGenerator.ts:202-221 | on days 1 to 28 a monthly session is the first one after now |
| NextSession.DayInMonth | api/_lib/icsGenerator.ts:206-220 | a day a month does not have, by the months' lengths in figures, rolls over into the next month |
| NextSession.ClockReads | api/_lib/icsGenerator.ts:136-147 | the net meets on the full minute of its hours and minutes |
| NextSession.EventIsTheNet | api/_lib/icsGenerator.ts:237-262 | the emitted rule from the emitted DTSTART recurs exactly at the net's meetings after now |
| IcsReader.TextIsTheNet | api/_lib/icsGenerator.ts:57-262 | the written DTSTART and RRULE, read as RFC 5545 reads them, recur exactly at the net's meetings after now |
| IcsReader.TextRecursIs | api/_lib/icsGenerator.ts:237-262 | the text of every rule and start says the recurrence that the rule means, SU for Sunday to SA for Saturday |
| IcsReader.DateReads | api/_lib/icsGenerator.ts:57-65 | a written moment of a year with four digits is read back to the second |
| IcsReader.RuleMeans | api/_lib/icsGenerator.ts:237-262 | frequency, interval and weekday or day of the month are read from the rule's text |
| NextSession.BiweeklyEvent | api/_lib/icsGenerator.ts:247-250 | a biweekly event starts on a day of its rule and recurs every fourteen days |
| IcsReader.TextIsBiweekly | api/_lib/icsGenerator.ts:57-262 | a biweekly net's text recurs every fourteen days from its session |
| RateLimit.KeysApart | api/_lib/rateLimit.ts:61 | endpoints without a colon never share a store key |
| RateLimit.CleanupChangesNoAnswer | api/_lib/rateLimit.ts:31-82 | over any run with a clock that does not go back, the limiter with its cleanup gives every answer of the one without |
| RateLimit.RateLimiter.Cleanup | api/_lib/rateLimit.ts:32-39 | a sweep deletes exactly the entries that are over, at most once a minute |
| RateLimit.RateLimiter.CheckRateLimit | api/_lib/rateLimit.ts:51-82 | the limiter answers as if its table were never swept |
| RateLimit.LimitPerWindow | api/_lib/rateLimit.ts:63-82 | no window grants more than the limit |
| RateLimit.LessThanTwiceTheLimit | api/_lib/rateLimit.ts:63-82 | any stretch of one window's length has fewer than twice the limit of grants |
| RateLimit.BoundIsReached | api/_lib/rateLimit.ts:63-82 | for every limit and window that bound is reached: twice the limit of grants fit into one millisecond more than a window |
| RateLimit.RefusedOnlyAtTheLimit | api/_lib/rateLimit.ts:71-79 | a call is refused only in a window that has granted its whole limit |
| RateLimit.AnswerTells | api/_lib/rateLimit.ts:63-82 | remaining is what the current window has still to give, reset the seconds to its end, rounded up |
| SpotDedupe.EmissionsApart | bridge/src/cluster.ts:366-383 | over every run of the table, sweeps and disconnections included, a session's spots of one hash are let through at least 60 s apart |
| SpotDedupe.TableIsSession | bridge/src/cluster.ts:366-451 | in every run the table, swept or not, lets through what the session's emissions alone decide |
| SpotDedupe.SuppressedIffTwin | bridge/src/cluster.ts:366-383 | after every run of the table a spot is suppressed if and only if a spot of its hash was let through in the session less than 60 s before |
| SpotDedupe.SweepTable | bridge/src/cluster.ts:443-450 | the sweep deletes exactly the expired entries |
| SpotDedupe.ClusterDedupe.HandleSpot | bridge/src/cluster.ts:366-383 | a spot is emitted if and only if none of its hash was in the last 60 s of the session |
| SpotDedupe.ClusterDedupe.Cleanup | bridge/src/cluster.ts:440-451 | the timer's sweep changes no later answer |
| SpotDedupe.ClusterDedupe.Disconnect | bridge/src/cluster.ts:215-236 | a disconnection ends the session |
| SpotDedupe.SplitOn | bridge/src/cluster.ts:306-309 | splitting a stream in pieces, the rest put before the next, gives the lines of the whole |
| SpotDedupe.SplitReads | bridge/src/cluster.ts:306-309 | a text is its lines, each but the last with LF or CRLF, and no line holds a line end |
| SpotDedupe.ClusterStream.OnData | bridge/src/cluster.ts:273-276 | for every chunking the handled lines and the buffer are the lines of the whole stream |
| SpotDedupe.ClusterStream.ProcessBuffer | bridge/src/cluster.ts:306-326 | all whole lines are handled in order and the partial one is kept |

## Left out

- Real sockets, serial ports, HTTP, the clock and the file system: they are environment steps or parameters.
- PTT: the reasons and errors given to the release callback, and how long the timers run. A timer that is armed may fire at any moment.
- Promises: the result of a queued operation settles in the same step in which the operation ends; the extra jobs with which an async function's own promise is adopted are not modelled.
- Rotator: the status poll's schedule, parsing of positions, limits on azimuth and elevation. A poll is a command like any other. That Node delivers the close of a socket destroyed while connecting before a later socket connects is assumed.
- Rotator: the server answers each command with exactly the number of lines it expects; other servers are not modelled.
- Archive: one partition at a time, since the lock, the manifest and the object path are per partition. The digest is assumed injective, objects are never overwritten, and a lock goes with its session.
- Archive: a dataset's two statements, like all others, each see one committed state of the source, as at PostgreSQL's default isolation.
- Archive: the coverage reconciliation of a re-verification run, object paths, exporter commit, lifecycle class, quality flags and audit rows.
- Archive: the pruning of source rows after a seal, and restores, which only turn a sealed manifest into a restored one.
- Upload: the bucket check, the metadata and location headers, and the pauses between attempts. The outcome of a PATCH is settled on the server before it answers a HEAD.
- Parquet: the file format is a parameter of the seal model, and in `Parquet.dfy` a file is its rows and its digest; schema, row groups and coverage metadata are not part of that model.
- Calendar: Python's limit to the years 1 to 9999 is kept for timestamps only, and Date.UTC's reading of the years 0 to 99 as 1900 to 1999 is not modelled.
- DueRun.Archive: what a run does to other workers' manifests is not modelled; the due run is the only one that registers while it runs.
- Inventory: the tree does not change during the walk, and the record written of a reconciliation is not modelled. The walk's three errors for an invalid item are one.
- Coverage: `fromisoformat` followed by the comparison with the re-rendered string is a reader that accepts what the formatter writes. The JSON text is that of accepted evidence, whose strings need no escaping.
- Spectrum: frame parsing, the reconnection delay and connection status. Frames arrive parsed; the moment each is handled is a parameter.
- IcsText: characters are UTF-16 code units, so folding may part a surrogate pair and the octet length of a line is not bounded. The calendar without nets is not modelled.
- NextSession: the text HH:MM is given as two numbers, and what parsing makes of other texts is not modelled.
- RateLimit: response headers and the reading of the client address.
- SpotDedupe: login dialogue, spot parsing, filters, and the hash function, which is a parameter.
- Cost forecasts, cache headers, audio capture, user interface and the other routes, which would add only easy members.
