# TikREC, verified

TikREC records public LIVE streams: it writes the incoming FLV tags into numbered parts, reconnects,
resumes after crashes, assembles one MP4 per session, and can delete old sessions. Its promises are
about what is true after anything went wrong at any moment. This project models the protocols behind
those promises in Dafny and proves them over every input, every run and every point of failure.

Check everything with `dafny verify dfyconfig.toml`.

## What is modelled

**The durable session journal** (`Journal*.dfy`). `JournalTables` holds the ten tables, the schema's
constraints and the audit. `JournalSpec` says what each of the eleven operations does and what one
transaction does under a fault before, inside or after its commit. `JournalStore` is the store itself: one
field per table, one method per operation writing row by row, and `Mutate`, proved equal to the
specification. `JournalPreserve*` and `JournalRuns` prove that the audit is inductive, so the second
audit of a transaction never rejects a guarded action. `JournalHistory`, `JournalGuarantees` and
`JournalQueue` prove what holds over whole runs: effects happen once, replies are historical, ownership is
exclusive down to single artifacts, units are conserved, a stale callback is harmless, the queue is fair.
`JournalEffects` says for every operation what a commit leaves in the rows, exactly when an undisturbed call
commits, and that its reply is true.

**The FLV writer and its readers** (`Flv*.dfy`, `Writer*.dfy`, `Part*.dfy`). Printing and parsing
are inverse in both directions; the chunked reader does not depend on how bytes are cut. The writer is
described twice: as the loop it is (`WriterParts`, `Writer`) and as windows of the stream between a keyframe
gate and the next rendition change (`WriterWindows`); the two agree for every stream, also when the call
is cut short. The replay observer reports exactly the maximal runs of backward clock (`WriterReplays`).
The structural check accepts a retained part exactly when its AVC header has six payload bytes and no
sound comes before the stream's first sound header (`PartStructure.RetainedFileIsAccepted`). `PartClocks`
says what a part plays when it is read back: which source tags, at which times.

**Recovery of a crashed writer** (`Recovery*.dfy`, `WriterRecovery*.dfy`). Every step
can raise or be the last one the process takes. `RecoveryAnswers` says what each answer of an inspection means
of the files, both ways. Whatever happened, the next look makes the same plan, the
crashed bytes are in one place, and one undisturbed attempt reaches the one settled state.

**Destructive retention and leases** (`Retention*.dfy`, `LifecycleLeases`, `LeaseAnswers`). The executor can fail before or
after each journal write, check and removal; the journal it leaves is always accepted by the independent
reader, and every missing artifact is explained by a durable intent and attempt even when an unsynced
tail is lost; journal and disk are those of the steps begun (`RetentionSteps`), over any number of calls.
`RetentionGrammar` is what accepted journals look like; `RetentionOrders` proves the order by kinds, in them and
on the disk. Leases exclude after anything any processes did, with byte ranges or whole-file locks, and are
granted exactly when the live ones leave room (`LeaseAnswers`).

**Connections and resumes** (`Connection*.dfy`). A
session's directory under captures, crashes, resumes, recoveries, finalizations and outputs that come and go:
the strict reader accepts every log, numbers grow, parts are claimed once, and a resume is possible exactly
when `ConnectionRuns.ResumableExactly` says so. `ConnectionSessions` is the loop, the resume and the recovery
as they run, each equal to the specification; `ConnectionEndings` says what an undisturbed process leaves and how
it closes the session.

**Automatic starts** (`AutomationClaims`, `AutomationSpec`, `AutomationRuns`, `AutomationRules`). Over all cycles, crashes and
restarts the coordinator is the specified service; a cycle adds its observations and its accepted starts, and
two starts of one room of one creator are separated by an observation of that creator offline or in another
room.

**H.264 parameter sets and patient retry** (`Sps*.dfy`, `Patient*.dfy`). Parsing inverts writing for every
valid parameter set (sections 7.3.2.1.1, 7.4.1, 7.4.2.1.1 and 9.1 of ITU-T H.264); the retry loop ends by
a bound computed from its delays.

## Where the code does not meet its promise

`session_resume.py` promises that a retained session can be continued explicitly. Two families of sessions
cannot be, ever again: those whose manifest is closed while it is behind the log
(`session_resume.py:64-65`, `ConnectionRuns.LostForGood`).

- A resume reserves the next number in the log; stopped before its first attempt, `live.py:103-127` closes the
  manifest with the number before it. This loses every session that could be resumed capture-only
  (`ConnectionRuns.StoppedResumeLoses`).
- A process dies between a line and its manifest write, and the service then gives up on the outage:
  `reconciliation.py:188-195` closes the manifest without the logged count (`ConnectionRuns.ExhaustionLoses`).

Everything else a resume can be refused for is something it asks about openly: parts that cannot be discovered (a
partial left by a crash, an unaccepted part), a torn log line, a completed capture, a finalization that has
begun, an output in the way. `ConnectionRuns.ResumableExactly` proves that after any run these and the two
families are all; `ConnectionSpec.BehindAfter` says from the events alone when a manifest is behind.

## Conventions

A digest is modelled by the bytes or record it is taken of, so equal digests mean equal values. Identities,
rooms, creators and artifact paths are values compared for equality. Files that a directory holds are keyed by
part number. An exception is a result value. Faults, clocks, the resolver, the media validator and other
processes are parameters that the theorems quantify over.

## Model

| member | source | states |
|---|---|---|
| JournalTypes.OverlapsIsContainment | tikrec/session_journal_types.py:120-129 | two claims overlap exactly when one path is inside the other |
| JournalTypes.OverlapInsideReachesClaim | tikrec/session_journal_types.py:120-129 | anything that overlaps a path inside a claim overlaps the claim itself |
| JournalInvariant.ConflictSymmetric | tikrec/session_journal_ownership.py:6-19 | ownership conflict does not depend on which owner is asked first |
| JournalInvariant.AuditCarries | tikrec/session_journal_checks.py:11-102 | the cross-table audit carries over to tables that differ only in one session, once that session is valid, accounted for and separate |
| JournalPreserve.AdmitKeeps | tikrec/session_journal_capture.py:86-104 | proving a room keeps schema, audit and provenance |
| JournalPreserve.CaptureIntentKeeps | tikrec/session_journal_capture.py:106-121 | recording close, stop or recovery intent keeps schema, audit and provenance |
| JournalPreserve.SettleReservationKeeps | tikrec/session_journal_capture.py:157-179 | releasing a reservation without media keeps schema, audit and provenance |
| JournalPreserveTasks.HandoffKeeps | tikrec/session_journal_capture.py:123-155 | handing a sealed capture to the finalizer queue keeps schema, audit and provenance |
| JournalPreserveTasks.HoldAttemptKeeps | tikrec/session_journal_tasks.py:52-64 | holding a running attempt keeps schema, audit and provenance |
| JournalPreserveTasks.FailTaskKeeps | tikrec/session_journal_tasks.py:66-84 | failing an attempt keeps schema, audit and provenance |
| JournalPreserveTasks.RetryFailedKeeps | tikrec/session_journal_tasks.py:86-105 | requeueing a failed task keeps schema, audit and provenance |
| JournalPreserveTasks.BlockQueuedKeeps | tikrec/session_journal_tasks.py:107-122 | blocking a queued task keeps schema, audit and provenance |
| JournalPreserveTasks.ClaimKeeps | tikrec/session_journal_tasks.py:31-50 | starting the attempt of a claimed task keeps schema, audit and provenance |
| JournalPreserveTasks.SettleTaskKeeps | tikrec/session_journal_tasks.py:124-152 | settling a task and releasing its claims keeps schema, audit and provenance |
| JournalPreserveReserve.ReserveKeeps | tikrec/session_journal_capture.py:34-84 | accepting a capture, or replaying an automatic claim, keeps schema, audit and provenance |
| JournalPreserveReserve.ClaimNextKeeps | tikrec/session_journal_tasks.py:31-50 | claiming the next task, or finding none, keeps schema, audit and provenance |
| JournalRuns.FreshIsSound | tikrec/session_journal_store.py:43-80 | a fresh catalog is sound |
| JournalRuns.ActKeepsSound | tikrec/session_journal_checks.py:11-102 | the audit is inductive over all eleven operations: from a sound catalog each one refuses or leaves a sound catalog |
| JournalRuns.AuditsNeverReject | tikrec/session_journal_store.py:140-185 | on a sound catalog the audits inside a transaction never reject: the outcome is decided by arguments, receipts, the guarded action and faults alone |
| JournalRuns.StepSound | tikrec/session_journal_store.py:140-185 | every transaction, wherever a fault interrupts it, leaves the catalog sound |
| JournalRuns.Reached | tikrec/session_journal_store.py:140-185 | every catalog that calls can produce from a fresh one is sound |
| JournalHistory.HistoryIsPermanent | tikrec/session_journal_schema.py:57-85 | over any further calls sessions, claims, receipts, sealed results, attempts and operation records never disappear or change identity, and revisions and generations only grow |
| JournalGuarantees.EffectsOccurOnce | tikrec/session_journal_store.py:140-185 | an operation identity changes the catalog exactly once when it is recorded and never otherwise, over any calls and faults |
| JournalGuarantees.RecordedRequestsAcceptable | tikrec/session_journal_store.py:140-185 | every recorded operation had acceptable arguments |
| JournalGuarantees.ReplayIsHistorical | tikrec/session_journal_receipts.py:39-47 | in any later state a repeated operation returns its first result, and the same identity with other arguments conflicts; neither changes anything, and a fault can only withhold the answer |
| JournalGuarantees.AutomaticClaimIsPermanent | tikrec/session_journal_capture.py:39-47 | a repeated automatic claim with the same intent returns the original acceptance in any later state |
| JournalGuarantees.TerminalIsForever | tikrec/session_journal_schema.py:57-66 | a completed or abandoned session keeps its row and owns nothing, for ever |
| JournalGuarantees.AuditedOwnersExclusive | tikrec/session_journal_ownership.py:6-31 | audited owners share no room, no overlapping subtree and no artifact reaching into another claim; one creator needs distinct known rooms and at most one capture |
| JournalGuarantees.OwnershipIsExclusive | tikrec/session_journal_ownership.py:6-31 | ownership is exclusive in every reachable catalog |
| JournalGuarantees.UnitsAreConserved | tikrec/session_journal_capture.py:123-179 | outstanding units are exactly the bound sessions plus the unfinished tasks, at most eight, and at most one task runs |
| JournalGuarantees.CallbackConsumesRevision | tikrec/session_journal_capture.py:12-22 | every committed capture callback moves its session past the revision it was guarded by |
| JournalGuarantees.GuardCommitsOnce | tikrec/session_journal_capture.py:12-22 | a session, generation and revision guard commits at most one capture change over any run |
| JournalGuarantees.StaleCallbackIsHarmless | tikrec/session_journal_capture.py:12-22 | a capture callback never touches another session, so never a later owner of its slot, and changes nothing once its guard no longer holds |
| JournalQueue.ClaimTakesOldest | tikrec/session_journal_tasks.py:31-50 | a claim takes the queued task with the smallest queue position |
| JournalQueue.RetryGoesToTail | tikrec/session_journal_tasks.py:86-105 | a retried task queues behind every task that is queued |
| JournalQueue.NothingCutsIn | tikrec/session_journal_capture.py:142-155 | no operation puts a task ahead of one already queued |
| JournalQueue.OvertakingUsesUpAhead | tikrec/session_journal_tasks.py:31-50 | each claim that overtakes a queued task removes one of the tasks ahead of it |
| JournalQueue.OvertakingIsBounded | tikrec/session_journal_tasks.py:31-50 | at most as many claims overtake a queued task as were queued ahead of it |
| JournalQueue.NextInLineIsClaimed | tikrec/session_journal_tasks.py:31-50 | once nothing is ahead and nothing runs, a claim takes that very task |
| JournalStores.JournalStore.ReserveNew | tikrec/session_journal_capture.py:48-84 | reserves a slot for a new intent, or says why not |
| JournalStores.JournalStore.Accept | tikrec/session_journal_capture.py:57-84 | inserts session, binding, unit, claims and receipt of an accepted intent |
| JournalStores.JournalStore.Reserve | tikrec/session_journal_capture.py:34-84 | reserves, or returns the historical acceptance of an automatic claim |
| JournalStores.JournalStore.Admit | tikrec/session_journal_capture.py:86-104 | moves a reservation with a proven room to capturing |
| JournalStores.JournalStore.CaptureIntent | tikrec/session_journal_capture.py:106-121 | records closing, stop and recovery intent under the guard |
| JournalStores.JournalStore.Handoff | tikrec/session_journal_capture.py:123-155 | turns a sealed capture into a queued task and frees its slot |
| JournalStores.JournalStore.SettleReservation | tikrec/session_journal_capture.py:157-179 | releases a reservation that never had media |
| JournalStores.JournalStore.ClaimNext | tikrec/session_journal_tasks.py:31-50 | starts the oldest queued task when none runs |
| JournalStores.JournalStore.HoldAttempt | tikrec/session_journal_tasks.py:52-64 | records why a running attempt is held |
| JournalStores.JournalStore.FailTask | tikrec/session_journal_tasks.py:66-84 | closes a running attempt as failed |
| JournalStores.JournalStore.RetryFailed | tikrec/session_journal_tasks.py:86-105 | queues a failed task again, at the tail |
| JournalStores.JournalStore.BlockQueued | tikrec/session_journal_tasks.py:107-122 | blocks a queued task |
| JournalStores.JournalStore.SettleTask | tikrec/session_journal_tasks.py:124-152 | completes a task and releases unit, artifacts and rooms |
| JournalStores.JournalStore.Mutate | tikrec/session_journal_store.py:140-185 | runs one mutation step by step on the table fields; disk and outcome are those of the specified transaction, faults at begin, before, in and after the commit, in rollback and on close included |
| JournalStores.JournalStore.Initialize | tikrec/session_journal_store.py:43-80 | a new store holds the fresh catalog |
| JournalStores.RunCalls | tikrec/session_journal_store.py:140-185 | a store carrying out any calls under any faults holds exactly the catalog those calls reach |
| JournalEffects.IntentIsWritten | tikrec/session_journal_capture.py:106-121 | a committed intent writes stop, closing and recovery exactly as asked, and nothing else; undisturbed, it commits exactly while the session is bound |
| JournalEffects.StoppedIsNeverAdmitted | tikrec/session_journal_capture.py:86-104 | once a stop is recorded no admission of that session ever changes anything |
| JournalEffects.StopIsHonoured | tikrec/session_journal_capture.py:86-121 | a committed stop request keeps its reservation from ever recording |
| JournalEffects.AdmissionIsWritten | tikrec/session_journal_capture.py:86-104 | a committed admission records the proven room; undisturbed, exactly an unstopped reservation with the expected room and no rival is admitted |
| JournalEffects.ReservationIsWritten | tikrec/session_journal_capture.py:34-84 | a committed acceptance inserts exactly the rows of its intent in a free slot, or repeats the acceptance of its claim; undisturbed, it commits exactly when nothing stands in the way |
| JournalEffects.HandoffIsWritten | tikrec/session_journal_capture.py:123-155 | a committed handoff keeps the seal, queues the session last and frees its slot; undisturbed, exactly for a matching seal |
| JournalEffects.AbandonmentIsWritten | tikrec/session_journal_capture.py:157-179 | a committed release closes an unused reservation and gives back all it held |
| JournalEffects.ClaimIsWritten | tikrec/session_journal_tasks.py:31-50 | a committed claim starts the next attempt of the longest queued task, or finds nothing to do |
| JournalEffects.FreshTokenStarts | tikrec/session_journal_tasks.py:31-50 | with work waiting and none running, exactly a fresh token gets the next attempt |
| JournalEffects.TaskCallIsWritten | tikrec/session_journal_tasks.py:52-152 | what holding, failing, retrying, blocking and settling write, and exactly when they commit |
| JournalEffects.AttemptsStayNumbered | tikrec/session_journal_tasks.py:31-50 | over any run the attempts of a task are numbered up to the one it has reached |
| JournalEffects.ReplyIsTrue | tikrec/session_journal_store.py:140-185 | the reply to a committed call says what its rows now say, and so does its receipt |
| Flv.FillHeader | tikrec/flv.py:66-75 | the header filled in place is type, 24-bit size, low 24 timestamp bits, high byte and stream id |
| Flv.Encode | tikrec/flv.py:61-77 | prints the rebased tag, or refuses a payload beyond the size field |
| Flv.ReadInvertsEncode | tikrec/flv.py:80-97 | parsing a printed tag gives the tag back and leaves whatever follows |
| Flv.EncodeInvertsRead | tikrec/flv.py:80-97 | a parsed tag prints to exactly the bytes it was read from |
| Flv.ReadTagsInvertsEncodeAll | tikrec/source.py:169-177 | reading a printed tag sequence yields those tags and then what follows |
| Flv.WriterFileRoundTrips | tikrec/writer.py:17-18 | a file of the writer header and printed tags reads back as exactly those tags, cleanly |
| Flv.KindsAreCoded | tikrec/flv.py:33-59 | headers, media and keyframes by frame type, codec and packet type |
| FlvWire.HeaderExactly | tikrec/source.py:283-299 | exactly signature, version, flags, own length, extension and zero size are a header |
| FlvWire.CutStreamReads | tikrec/source.py:169-177 | a cut stream reads as the tags before the cut, and clean only between tags |
| FlvWire.WrongSizeIsRefused | tikrec/flv.py:80-97 | a tag whose trailing size is not its own is refused |
| FlvSource.ChunkStream.Read | tikrec/source.py:263-280 | returns the next bytes up to the count, however the chunks are cut |
| FlvSource.ChunkStream.ReadExact | tikrec/flv.py:100-114 | returns exactly the count, a clean end, or a truncation |
| FlvSource.ChunkStream.ReadTag | tikrec/flv.py:80-97 | reads the next tag of the remaining bytes, or reports how they end |
| FlvSource.ChunkStream.ReadFlvHeader | tikrec/source.py:283-299 | accepts exactly a well-formed stream header and leaves the bytes behind it |
| FlvSource.ChunkStream.IterTags | tikrec/source.py:169-177 | yields the tags and the outcome that the bytes alone determine |
| FlvSource.ReadChunks | tikrec/source.py:169-177 | two chunkings of the same bytes give the same tags and the same outcome |
| FlvSource.CutsAreInvisible | tikrec/source.py:255-280 | cutting any chunk anywhere, empty pieces included, changes nothing a reader can see |
| FlvPrefix.CompletePrefix | tikrec/writer_recovery.py:205-218 | scans tag by tag to the last proven boundary, or refuses a foreign header |
| FlvPrefix.PrefixIsLongest | tikrec/writer_recovery.py:205-218 | the kept prefix is header plus whole tags, and no longer prefix is |
| FlvPrefix.PrefixIsFixedPoint | tikrec/writer_recovery.py:205-218 | recovering a recovered prefix keeps all of it |
| FlvPrefix.CutKeepsLastBoundary | tikrec/writer_recovery.py:205-218 | a writer file cut anywhere past its header keeps up to the last tag boundary at or before the cut |
| WriterWindows.RetainedAreWindows | tikrec/writer.py:57-124 | the parts the state machine retains are exactly the windows of the stream, each behind its own headers |
| WriterWindows.RunRepresents | tikrec/writer.py:57-124 | after any prefix of the stream the writer holds its latest headers, its retained windows and its open part |
| WriterWindows.WindowsAreOrdered | tikrec/writer.py:57-124 | windows come in stream order and share no tag |
| WriterWindows.BodyIsPastGate | tikrec/writer.py:102-119 | a tag is in a part exactly when a keyframe gate was passed since the last rendition change |
| WriterReplays.IntervalsAreTheReplays | tikrec/writer_events.py:17-32 | the intervals are maximal replays, in order and apart, and every backward tag lies in one |
| WriterReplays.TickMeans | tikrec/writer_events.py:67-88 | one more media tag moves the observer from the replays of the stream before to those of the longer stream |
| WriterReplays.TicksMeanIntervals | tikrec/writer_events.py:67-112 | the observer holds the running maximum, the closed replays and the pending one |
| WriterReplays.ReportedAreTheReplays | tikrec/writer_events.py:67-112 | a closed part has reported every maximal replay once, in order, with count, positions and whether it was recovered |
| WriterParts.OpenPart.constructor | tikrec/writer.py:127-163 | a new partial holds the header and nothing else |
| WriterParts.OpenPart.Observe | tikrec/writer_events.py:67-88 | moves the observer of the tag's own stream and no other |
| WriterParts.OpenPart.FinishReplay | tikrec/writer_events.py:91-112 | ends a pending replay and records it once |
| WriterParts.OpenPart.WriteTag | tikrec/writer.py:166-173 | appends the rebased tag; an oversized one is observed but not written |
| WriterParts.OpenPart.FinishAll | tikrec/writer.py:191-196 | closing reports every stream's maximal replays |
| PartWriters.PublishedFiles | tikrec/writer.py:205-206 | each retained part has its own number and bytes, and no other file changes |
| PartWriters.PartWriter.ClosePart | tikrec/writer.py:184-210 | publishes a part with media and drops one without |
| PartWriters.PartWriter.OpenNext | tikrec/writer.py:156-163 | opens the next number unless a file already has it |
| PartWriters.PartWriter.Continue | tikrec/writer.py:114-119 | appends a tag to the started part |
| PartWriters.PartWriter.Begin | tikrec/writer.py:102-116 | at the keyframe writes rendition header, latest audio header and keyframe on the part's clock |
| PartWriters.PartWriter.Change | tikrec/writer.py:83-92 | a changed rendition closes the open part and opens the next |
| PartWriters.PartWriter.Take | tikrec/writer.py:57-119 | one source tag moves the writer as the state machine says, or stops it at a taken number or an oversized tag |
| PartWriters.PartWriter.ClosesToWindows | tikrec/writer.py:120-124 | wherever the call stops, closing the last part leaves exactly the windows of the tags taken |
| PartWriters.WriteParts | tikrec/writer.py:21-124 | for every tag stream and stop: consecutive new numbers, the windows' bytes, unchanged other files, and replay reports |
| PartStructure.CheckStructure | tikrec/session_parts.py:83-126 | accepts exactly the cleanly framed bytes, or prefix, whose tags decode on their own |
| PartStructure.CheckTags | tikrec/session_parts.py:104-122 | the checking loop decides the structural conditions |
| PartStructure.RetainedIsStructured | tikrec/session_parts.py:83-126 | a retained part is accepted exactly when its AVC header has six payload bytes and no sound precedes every sound header of the stream |
| PartStructure.RetainedFileIsAccepted | tikrec/session_parts.py:83-126 | the same for the file, together with the tags it decodes to |
| PartStructure.CutPartIsAccepted | tikrec/writer_recovery.py:186-202 | a part cut anywhere is accepted at its last tag boundary exactly when the opening keyframe is still whole |
| PartStructure.RefusedForADefect | tikrec/session_parts.py:104-122 | a part is refused exactly for one of four defects |
| PartClocks.ChangesAtAnotherConfiguration | tikrec/writer.py:83-92 | a rendition changes exactly when the decoder configuration differs from that of the header before |
| PartClocks.RetainedPlays | tikrec/flv.py:61-77 | a retained part read back plays the last headers before its gate, then every tag of its window, on the part's clock |
| PartClocks.DistancesAreKept | tikrec/flv.py:68 | the gate plays at zero and tags not before it keep their distance in source time |
| PartClocks.WrittenFilesPlay | tikrec/writer.py:21-124 | every file a call leaves under a new number plays its window |
| RecoveryInspection.CompletedParts | tikrec/session_parts.py:74-80 | completed parts are contiguous from one and each accepted |
| RecoveryInspection.RecordsProven | tikrec/writer_recovery_evidence.py:68-96 | every record is proven by its evidence and its part, once |
| RecoveryInspection.SourceRecoverable | tikrec/writer_recovery.py:192-194 | a source can be recovered when it is nonempty and its longest prefix is accepted |
| RecoveryInspection.Inspect | tikrec/writer_recovery.py:55-133 | decides refused, pending recovery or complete as all the branches specify |
| RecoveryAnswers.CompleteExactly | tikrec/writer_recovery.py:76-133 | complete exactly with at least one part, all sound in a row, and nothing left over |
| RecoveryAnswers.PendingExactly | tikrec/writer_recovery.py:84-127 | pending exactly for the one owned source left over, which the plan describes |
| RecoveryAnswers.NothingIsNeverComplete | tikrec/writer_recovery.py:131-133 | a directory without a part is never complete, and what nobody owns is never recovered |
| WriterRecovery.EveryLookPlansTheSame | tikrec/writer_recovery.py:55-202 | however far an interrupted recovery came, the next look plans the same part, source length, digest and recovered length |
| WriterRecovery.SettledIsComplete | tikrec/writer_recovery_evidence.py:30-57 | after the manifest record every look finds one more completed part and nothing pending |
| WriterRecovery.SourceIsInOnePlace | tikrec/writer_recovery.py:142-149 | the crashed bytes are in exactly one of partial and evidence throughout |
| WriterRecoveryRuns.RecoveryStorage.CopyPrefix | tikrec/writer_recovery.py:256-267 | copies exactly the kept prefix chunk by chunk, and fails only on a mishap, a taken name or a short source |
| WriterRecoveryRuns.RecoveryStorage.Preserve | tikrec/writer_recovery.py:142-150 | turns the authorized partial into evidence, or touches nothing |
| WriterRecoveryRuns.RecoveryStorage.Stage | tikrec/writer_recovery.py:159-168 | replaces any unfinished copy by a whole one |
| WriterRecoveryRuns.RecoveryStorage.Publish | tikrec/writer_recovery.py:169-183 | publishes only a copy the validator accepted, and cleans up otherwise |
| WriterRecoveryRuns.RecoveryStorage.Recover | tikrec/writer_recovery.py:135-184 | carries a planned recovery to its published part unless a mishap stops it |
| WriterRecoveryRuns.RecoveryStorage.Commit | tikrec/writer_recovery_evidence.py:30-57 | appends the record once and brings the part count up |
| WriterRecoveryRuns.RecoveryStorage.Reconcile | tikrec/reconciliation.py:100-129 | one reconciliation settles the recovery or leaves it resumable; nothing moves unauthorized or unvalidated |
| WriterRecoveryRuns.StartsUnderway | tikrec/writer_recovery.py:87-100 | every owned partial that is found pending starts the protocol |
| WriterRecoveryRuns.SettledIsFinal | tikrec/writer_recovery_evidence.py:30-57 | the settled state is one state |
| WriterRecoveryRuns.ReconcileAgainAndAgain | tikrec/reconciliation.py:100-129 | after any number of interrupted attempts the plan is unchanged or the one final state is reached, and one undisturbed attempt reaches it |
| RetentionHistory.AuditHistory.Accept | tikrec/retention_audit_history.py:39-97 | accepts one event exactly as specified; a refused one changes nothing |
| RetentionHistory.ValidateHistory | tikrec/retention_audit.py:150-162 | accepts exactly the coherent journals |
| RetentionHistory.AcceptedPrefix | tikrec/retention_audit.py:150-162 | whatever tail is lost, the rest of an accepted journal is accepted |
| RetentionHistory.AcceptedReportsAPrefix | tikrec/retention_audit_history.py:39-97 | in an accepted journal each operation's deletions are a prefix of its order, and completion means all of it |
| RetentionHistory.OldTailIsFrozen | tikrec/retention_audit_history.py:52-56 | after a later intent nothing more is accepted for an earlier operation |
| RetentionOrders.DestructiveIsSessionOrder | tikrec/retention_audit_history.py:167-198 | exactly media, optional log, manifest, directory and output, with distinct paths, may be destroyed |
| RetentionOrders.SessionOrderIsAccepted | tikrec/retention_audit_history.py:39-62 | the intent of such an order is accepted behind any accepted journal that does not name its operation |
| RetentionOrders.ReportedInOrder | tikrec/retention_audit_history.py:63-97 | whatever an accepted journal reports deleted, all kinds that go before it were reported deleted too |
| RetentionGrammar.LinesAreAccepted | tikrec/retention_audit_history.py:39-97 | the lines of an operation are accepted as far as they go, closed by a failure or by completion |
| RetentionGrammar.AcceptedIsLines | tikrec/retention_audit_history.py:39-97 | every accepted journal is made of such lines, one operation after another |
| RetentionSteps.StepsJoin | tikrec/retention_execute.py:93-170 | steps done in two runs are the steps done in one |
| RetentionExecution.RetentionExecutor.Attempting | tikrec/retention_execute.py:128-145 | checks, durable attempt, checks again; the first step that fails stops it, and the journal is that of the steps begun |
| RetentionExecution.RetentionExecutor.Removing | tikrec/retention_execute.py:146-160 | removes, counts and records one artifact; journal and disk are those of the steps begun |
| RetentionExecution.RetentionExecutor.RemoveArtifact | tikrec/retention_execute.py:125-167 | one artifact of the order keeps the journal coherent and every removal backed |
| RetentionExecution.RetentionExecutor.Intend | tikrec/retention_execute.py:98-122 | the intent is durable before anything else happens |
| RetentionExecution.RetentionExecutor.Complete | tikrec/retention_execute.py:161-167 | completion is published only when it is durable |
| RetentionExecution.RetentionExecutor.Execute | tikrec/retention_execute.py:93-194 | for every fault: journal and disk exactly those of the steps begun and the failure report; coherent journal, prefix removed behind durable intent and attempts, bounded progress facts, first fault kept |
| RetentionExecution.FinalFileGoesLast | tikrec/retention_audit_history.py:167-198 | the final file is gone only when everything before it is |
| RetentionExecution.ExecuteRetention | tikrec/retention_execute.py:56-170 | one call from any journal and disk leaves exactly the specified result, with the unsynced tail possibly lost: every missing artifact is explained by the journal that is left |
| RetentionExecution.ExecuteMany | tikrec/retention_execute.py:56-170 | any number of calls compose to the specified journal, disk and outcome; the journal is coherent and explains everything missing |
| RetentionOrders.CallRemovesPrefix | tikrec/retention_execute.py:120-170 | whatever a call came to, it removed a beginning of its order |
| RetentionOrders.GoneInOrder | tikrec/retention_execute.py:120-170 | over any calls, when an artifact is missing everything of its order that goes before it is missing too |
| RetentionOrders.OutputGoesLast | tikrec/retention_execute.py:120-170 | when the final file is missing, so is all the rest of its order |
| RetentionGrammar.DoneWritesAll | tikrec/retention_execute.py:93-170 | a call that is done leaves all its lines |
| RetentionGrammar.FailureIsWritten | tikrec/retention_execute.py:155-162 | a failing artifact closes its lines by its failure |
| LifecycleLeases.Machine.constructor | tikrec/lifecycle_lock.py:18-19 | no leases, no locks, empty books |
| LifecycleLeases.Machine.LeasesExclude | tikrec/lifecycle_lock.py:211-233 | a retention lease excludes every other lease of its root in any process; writers hold distinct slots |
| LifecycleLeases.Machine.Lock | tikrec/lifecycle_lock.py:211-233 | takes the first free lock for the mode, exactly when there is one |
| LifecycleLeases.Machine.Register | tikrec/lifecycle_lock.py:113-135 | enters a lease in the books, or undoes what a fault left |
| LifecycleLeases.Machine.Acquire | tikrec/lifecycle_lock.py:93-141 | the new table of locks and leases for every fault; without one granted exactly when possible, otherwise no stale count, slot or lease |
| LifecycleLeases.Machine.Close | tikrec/lifecycle_lock.py:55-90 | releases once; table and books stay exact whatever the unlock and close do |
| LifecycleLeases.Machine.Crash | tikrec/lifecycle_lock.py:211-244 | a dead process leaves no lock and no lease |
| LifecycleLeases.RunLeases | tikrec/lifecycle_lock.py:93-244 | after any acquisitions, releases and deaths of any processes the leases are the specified ones and exclude each other |
| LeaseAnswers.GrantedExactly | tikrec/lifecycle_lock.py:93-141 | after any run that leaks no lock a lease is granted exactly when the live leases leave room, and a writer gets the first unused slot |
| LeaseAnswers.ReleasedExactly | tikrec/lifecycle_lock.py:55-90 | a close or a death ends exactly its leases and their locks |
| LeaseAnswers.LeasesAlwaysExclude | tikrec/lifecycle_lock.py:211-233 | over any run, with leaks or without, live leases exclude each other |
| ConnectionLog.ReadConnections | tikrec/session_resume.py:168-239 | the line-by-line reader computes the specified scan or refuses |
| ConnectionLog.MorePartsReadTheSame | tikrec/session_resume.py:216-229 | parts that appear later never make an old log unreadable |
| ConnectionLog.ReadableMeansDisjoint | tikrec/session_resume.py:204-238 | in a readable log numbers grow and no two connections share a part |
| ConnectionRuns.ClosingLineReads | tikrec/live_session.py:40-64 | the line of a closed attempt is readable behind all earlier ones and claims its parts |
| ConnectionRuns.TurnKeeps | tikrec/live.py:111-248 | one turn, wherever it dies or raises, spends one number; log, parts and manifest stay in step, and the manifest is behind exactly when the turn died between its line and a new count |
| ConnectionRuns.FinishRests | tikrec/live_session.py:8-37 | every end of a process leaves log and parts in step, behind exactly when it closed with an unused reservation |
| ConnectionRuns.ResumeKeeps | tikrec/session_resume.py:37-73 | a resume reserves a new number behind everything logged, or dies with the directory at rest |
| ConnectionRuns.RecoverRests | tikrec/writer_recovery.py:89-131 | a recovery, wherever it stops, keeps the log readable and the manifest in step |
| ConnectionRuns.AfterRests | tikrec/session_resume.py:76-239 | over any captures, crashes, resumes, recoveries, finalizations and outputs that come and go, the directory is at rest |
| ConnectionRuns.LogAlwaysReads | tikrec/session_resume.py:168-239 | after any run the strict reader accepts every whole line, and every part is claimed when nothing died and nothing was recovered |
| ConnectionRuns.ResumableExactly | tikrec/session_resume.py:47-73 | after any run: a session with discoverable parts, a whole log, an open finalization and a free output is refused exactly when it was closed behind its log |
| ConnectionRuns.ResumeTakesANewNumber | tikrec/session_resume.py:72-73 | the next number exceeds every logged, reserved or recorded one |
| ConnectionRuns.RecoveryUnblocks | tikrec/writer_recovery.py:89-131 | recovering a crashed partial makes its session resumable, up to the log being whole and the output free |
| ConnectionRuns.LostForGood | tikrec/session_resume.py:64-65 | a session closed behind its log is refused by every later resume, whatever happens |
| ConnectionRuns.StoppedResumeLoses | tikrec/live.py:103-127 | stopping a capture-only resume before its first attempt loses every session that could be resumed |
| ConnectionRuns.ExhaustionLoses | tikrec/reconciliation.py:188-195 | giving up on a session whose last process died between a line and its manifest write loses it |
| ConnectionRuns.BothCanHappen | tikrec/session_resume.py:47-73 | concrete runs that reach the premises of both |
| ConnectionEndings.CalmTurns | tikrec/live.py:111-248 | the turns of an undisturbed process number and log every attempt and keep every part |
| ConnectionEndings.FreshCaptureEnds | tikrec/live.py:186-248 | a new undisturbed capture leaves one line per attempt, every part, and a session closed as it ended |
| ConnectionEndings.ResumedCaptureEnds | tikrec/live.py:90-97 | a resumed one goes on behind the number it reserved and the parts it found |
| ConnectionEndings.EndedByItself | tikrec/live_session.py:8-25 | a capture that ended by itself is completed, with its output made, and never resumed |
| ConnectionEndings.StoppedCanBeResumed | tikrec/session_resume.py:47-73 | a stopped capture without an output is interrupted and resumes under the next number |
| ConnectionEndings.OverForGood | tikrec/session_resume.py:93-130 | a session that is completed or whose finalization has begun is never resumed |
| ConnectionEndings.RecoveryAddsItsPart | tikrec/manifest.py:134-140 | a recorded recovery adds exactly the crashed part and touches neither lines nor numbers |
| ConnectionEndings.RecoveryNeedsItsSession | tikrec/writer_recovery.py:220-235 | a recovery touches only a recording session with sound parts, one source and no output |
| ConnectionEndings.GivenUp | tikrec/reconciliation.py:188-195 | giving up closes exactly a resumable session, as failed, with its parts and the number its manifest had |
| ConnectionEndings.FinalizedLater | tikrec/manifest.py:220-254 | a later finalization records its result, and one by hand closes only what was open |
| ConnectionSessions.Session.StartSession | tikrec/live.py:188-195 | directory, manifest, then one line per earlier attempt, with an error in any of them survived |
| ConnectionSessions.Session.AppendSome | tikrec/live.py:194-195 | as many earlier lines as the process gets to, in order |
| ConnectionSessions.Session.CloseAttempt | tikrec/live_session.py:40-64 | appends the line, then advances the manifest |
| ConnectionSessions.Session.MakeAttempt | tikrec/live.py:128-270 | one turn: next number, session, parts, line and manifest as specified |
| ConnectionSessions.Session.Finish | tikrec/live_session.py:8-37 | brings the manifest up to the process's counts and closes or finalizes the session |
| ConnectionSessions.Session.FinalizeInto | tikrec/capture.py:118-152 | manifest running, encoder, manifest result, for every way the encoder ends |
| ConnectionSessions.Session.Capture | tikrec/live.py:111-299 | the whole loop leaves the directory its turns and its end specify |
| ConnectionSessions.Session.Prepare | tikrec/session_resume.py:47-73 | the preflight gives the next number or refuses, on every guard |
| ConnectionSessions.Session.BeginResume | tikrec/session_resume.py:37-44 | reopens the manifest and logs the reserved number, dying between them or inside either |
| ConnectionSessions.Session.RecoverPartial | tikrec/reconciliation.py:100-129 | evidence, published part, manifest record, as far as it comes |
| ConnectionSessions.Session.FinalizeLater | tikrec/reconciliation.py:257-286 | finalization after the capture, by the service or by hand |
| ConnectionSessions.Session.GiveUp | tikrec/reconciliation.py:188-195 | the service closes a session that it could have resumed |
| ConnectionSessions.RunSession | tikrec/live.py:111-299 | any events, one after the other, leave exactly the directory they specify |
| AutomationClaims.SeparatedSnoc | tikrec/automation.py:192-250 | a start of a room that is not guarded keeps all starts separated |
| AutomationClaims.ObservedCovers | tikrec/automation.py:142-162 | an observation, with the change it makes, keeps every guarded room consumed |
| AutomationClaims.StartedCovers | tikrec/automation_jobs.py:42-44 | an accepted start is covered by the job that matches its claim |
| AutomationClaims.PromotedCovers | tikrec/automation.py:123-127 | promoting a matched claim keeps every guarded room consumed |
| AutomationClaims.ClearedCovers | tikrec/automation.py:128-132 | clearing an unmatched claim keeps every guarded room consumed |
| AutomationRuns.AutomationCoordinator.ReplaceState | tikrec/automation.py:272-283 | the durable state is replaced or not, memory follows only success |
| AutomationRuns.AutomationCoordinator.Restart | tikrec/automation.py:111-134 | a left claim is promoted, cleared or found ambiguous by the job slots |
| AutomationRuns.AutomationCoordinator.Attempt | tikrec/automation.py:192-250 | claim, start, promote: exact state, jobs and history for every fate, and starts stay separated |
| AutomationRuns.AutomationCoordinator.ApplyRearm | tikrec/automation.py:142-162 | takes all observations in, in order, with one save |
| AutomationSpec.CandidatesAreLive | tikrec/automation.py:164-190 | the candidates are exactly the live, unsuppressed, admitted creators |
| AutomationRuns.CandidatesInOrder | tikrec/automation.py:71 | and they come in alphabetical order |
| AutomationRuns.EarlierMeans | tikrec/automation.py:71 | a handle comes first where the two first differ, or when it ends first |
| AutomationRuns.AutomationCoordinator.Classify | tikrec/automation.py:164-190 | computes the candidates |
| AutomationRuns.AutomationCoordinator.FillCapacity | tikrec/automation.py:72-93 | tries them one after the other until capacity, a failure or a death ends it |
| AutomationRuns.AutomationCoordinator.CycleCompleted | tikrec/automation.py:54-93 | one cycle leaves exactly the specified service; an old cycle or a disabled coordinator starts nothing |
| AutomationRuns.CycleHistory | tikrec/automation.py:54-93 | an operational cycle adds its observations, then one start per accepted candidate in alphabetical order; all of them when nothing stands in the way |
| AutomationRuns.FilledHistory | tikrec/automation.py:72-93 | the starts of a cycle are those of the candidates up to the first that does not let the next one go |
| AutomationRuns.RunService | tikrec/automation.py:54-134 | over all cycles, crashes and restarts the service is the specified one, and two starts of one room are separated by an offline or other-room observation |
| AutomationRules.SuppressedForAReason | tikrec/automation.py:136-162 | over any run a room is suppressed only for a found claim, a job seen recording it, or a start, and a creator is freed only by being seen offline |
| AutomationRules.DisabledIsInert | tikrec/automation.py:59-63 | a disabled coordinator starts and changes nothing |
| AutomationRules.RestartSettles | tikrec/automation.py:111-134 | a new process is operational exactly when the state loads and no claim is left whose fate the slots do not show |
| SpsBits.UeReadsBack | tikrec/flv_codec.py:29-37 | an unsigned Exp-Golomb code reads back exactly up to 2^32-2 and is refused above |
| SpsBits.SeReadsBack | tikrec/flv_codec.py:39-41 | signed Exp-Golomb codes read back |
| SpsBits.UnescapeInvertsEscape | tikrec/flv_codec.py:186-196 | removing emulation prevention undoes inserting it |
| SpsBits.EscapedHasNoStartCode | tikrec/flv_codec.py:186-196 | inserting it leaves no two zero bytes before a byte below three |
| SpsBits.RemoveEmulation | tikrec/flv_codec.py:186-196 | the loop removes exactly the prevention bytes |
| SpsBits.BitsOfPack | tikrec/flv_codec.py:15-27 | packing bits into bytes loses none |
| SpsReader.BitReader.Read | tikrec/flv_codec.py:19-27 | reads the next bits as a number, or refuses past the end |
| SpsReader.BitReader.UnsignedExpGolomb | tikrec/flv_codec.py:29-37 | reads one unsigned code, or refuses |
| SpsReader.BitReader.SignedExpGolomb | tikrec/flv_codec.py:39-41 | reads one signed code, or refuses |
| SpsRoundTrip.DeltasRead | tikrec/flv_codec.py:206-211 | a complete scaling list is skipped to its end |
| SpsRoundTrip.HighReads | tikrec/flv_codec.py:61-74 | high profile fields give chroma format and plane separation back |
| SpsRoundTrip.OrderReads | tikrec/flv_codec.py:76-88 | picture order fields are skipped to their end |
| SpsRoundTrip.SizeReads | tikrec/flv_codec.py:90-97 | size fields give the coded size back |
| SpsRoundTrip.CropReads | tikrec/flv_codec.py:99-104 | cropping fields give the offsets back |
| SpsRoundTrip.DimensionsAreDeclared | tikrec/flv_codec.py:106-114 | the computed size is the cropped size of section 7.4.2.1.1 |
| SpsRoundTrip.GeometryReadsBack | tikrec/flv_codec.py:50-114 | every valid parameter set reads back as its declared size, or is refused when it crops everything away |
| SpsRoundTrip.NalReadsBack | tikrec/flv_codec.py:44-58 | the same through trailing bits, packing and emulation prevention |
| SpsRoundTrip.SizeReadsBack | tikrec/flv_codec.py:44-58 | for a sent unit the parser's result is the declared size, unless it is no parameter set or everything is cropped away |
| Sps.ProfilesAreTheStandards | tikrec/flv_codec.py:224-226 | the profiles that carry chroma fields are those of section 7.3.2.1.1 |
| SpsParser.SkipScalingList | tikrec/flv_codec.py:206-211 | the loop ends where the list ends |
| SpsParser.SkipScalingMatrices | tikrec/flv_codec.py:199-203 | the loop ends where the matrices end |
| SpsParser.Geometry | tikrec/flv_codec.py:50-114 | the parser computes the specified geometry |
| SpsParser.SpsDimensions | tikrec/flv_codec.py:44-47 | the parser's result is the size the unit declares, or a refusal |
| PatientRetry.Policy.HintsLengthen | tikrec/retry_policy.py:31-38 | a server hint never shortens a delay |
| PatientRetry.Policy.EnoughFills | tikrec/retry_policy.py:17-29 | finitely many capped delays fill every window |
| PatientRetry.OutageRecovery.Fail | tikrec/retry_policy.py:56-65 | the first failure starts the clock, each one sets the next delay |
| PatientRetry.OutageRecovery.Wait | tikrec/retry_policy.py:75-83 | exact time and ending: waits the delay cut at the window, exhausts exactly when the window is spent, stops when the user does |
| PatientRetry.ResolveStartupPatiently | tikrec/startup_network.py:9-47 | every attempt but the last failed transiently and was followed by its whole delay inside the window; the last one decides how and when it ends; never more attempts than the capped delays need to fill the window |
| PatientRetry.AlwaysFailingIsExhausted | tikrec/startup_network.py:9-47 | a resolver that always fails transiently is given up, and never before the window is spent |
| PatientDefaults.DelaysAreStaged | tikrec/retry_policy.py:31-38 | each attempt waits its stage, a hint where it asks for more, and never more than the cap |
| PatientDefaults.DefaultsGiveUp | tikrec/retry_policy.py:17-29 | with the defaults a resolver that never answers is tried thirty-five times and given up after exactly a quarter of an hour |

## Left out

- SQLite itself: pragmas, file identity, schema fingerprints and translated error texts; a transaction is an atomic replacement of the tables, and the read-only `operation` and `diagnostics` calls are not modelled.
- The order of session rows and the catalog row: no operation reads them back.
- Progress of the journal: blocked tasks and reservations that close before a room is proven have no way out in the code either, so only safety and queue order are stated.
- File names: part numbers, evidence and staging names are keys; refusals of names that are not canonical, of links and of special files are not modelled.
- WriterWindows.RetainedAreWindows: does not model script metadata, frame rates and decoder facts, because the writer passes script tags through like any other.
- PartWriters.PartWriter.ClosePart: does not model a final name that appears between opening and publishing a part, because only this writer creates part files in the modelled directory.
- WriterReplays.ReportedAreTheReplays: the order of replay events of different streams is not stated; each stream's own order is.
- RecoveryInspection.Inspect: one refusal stands for all error texts, and the byte-identity checks against concurrent replacement of a file are left to the authorization steps.
- RecoveryInspection.RecordsProven: a record's digest is the bytes it is taken of, so one equality stands for the digest, length and prefix checks.
- WriterRecoveryRuns.RecoveryStorage.Reconcile: renames and the manifest write are atomic and durable once made; the resolution and finalization that follow a settled recovery are not part of this model.
- RetentionHistory.AuditHistory.Accept: timestamps, roots, hashes and the shape of names inside a line are not modelled; its kind, operation, order and paths are.
- RetentionHistory.ValidateHistory: a line is whole; decoding a torn or malformed one is not modelled.
- RetentionExecution.ExecuteRetention: the authorization that builds the order is a premise (the order satisfies the destructive shape), and torn journal lines are excluded; retained-media names are not ordered as text, and hashes, volumes and identities inside an intent are not modelled.
- RetentionExecution.RetentionExecutor.Removing: the quarantine rename, proof and deletion of one artifact are one step that can fail before or after the artifact is gone.
- LifecycleLeases.Machine.Acquire: replacement of the lock file and the locality checks are folded into one fault; threads of a process take turns, as the registry lock makes them.
- ConnectionSessions.Session.MakeAttempt: the reasons an attempt ends, retry limits and waits are not modelled: any number of turns with any outcome is allowed, and what escapes the loop without closing the session counts as dying.
- ConnectionSessions.Session.Prepare: creator, room, times, file names and the digests of recovery records are not modelled; a recovery is assumed to be recorded as it was made.
- ConnectionSessions.Session.FinalizeLater: validation around a finalization by hand is not modelled: any may be attempted on any retained parts.
- ConnectionLog.ReadConnections: timestamps, network, recovery and room-status evidence are one kind of line that is skipped; a torn last line is a flag of the directory.
- AutomationRuns.AutomationCoordinator.FillCapacity: the reasons reported for each creator, and a service that stops taking cycles, are not modelled.
- AutomationRuns.RunService: a manual start is only allowed while no automatic claim is unsettled, because a reused slot no longer proves what became of the claim.
- PatientRetry.ResolveStartupPatiently: clocks are reals, and classification of errors, notifications and the validity of a resolution are part of what the world answers.
- H.264 video usability information, discovery and validation reports, disk usage, FFmpeg, the HTTP service, the command line and configuration: plumbing or advisory facts around the protocols.
