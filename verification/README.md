# Country Workspace: a verified model of its workflows

Country Workspace collects households and individuals, checks them for duplicates with DedupEngine
and pushes them to HOPE as registration data imports (RDIs). A Registration Data Push (RDP) is a row
that many independent workers drive: evaluation, preparation and data-push jobs, operation runners,
HOPE and DedupEngine callbacks, and users who cancel, review, retry, reset or replace it. Jobs may be
delivered again, callbacks may come late or twice, and remote services may answer anything. This
project models that workflow and the data-moving code around it, and proves what they keep.

## How the model is built

**The RDP workflow** (`RdpState`, `RdpSteps`, `RdpInvariant`, `RdpRuns`, `RdpTheorems`, `RdpTable`,
`RdpAnswers`, `RdpWitness`, `RdpWorkspace`, `RdpValidation`, `PushPolicy`, `CompletionLocks`,
`CleanReplacement`).
`RdpState.State` is the database together with the running workers: programmes with their cleanup flag,
beneficiaries with `removed`, RDPs with operations and jobs, and the history of attempts, claims, reset
requests and calls to HOPE's create endpoint. Every `transaction.atomic()` block, every remote answer and
every point where a worker can raise is one step of `RdpSteps`; `RdpRuns.Event` lists them and
`RdpRuns.Run` applies any sequence of them, so a theorem about `Run` holds for every interleaving and
every redelivery. The invariant is inductive: each step keeps it whatever came before. `RdpWorkspace`
writes the same blocks in the form of the application: rows loaded under a lock into objects, fields set,
rows saved, jobs created in loops, transactions rolled back; each method is proved to be its step and to
keep the invariant. `RdpTable` is written independently of the steps: for every event it says what becomes
of each row, flag, job, finding and request, from thresholds compared in reals to the beneficiaries that a
reset gives back, and every step is proved to do just that. `RdpAnswers` reads HOPE's answers to reset
requests off a run and proves what each of them can lead to.
Creation takes any selection of the programme, because the preflight of a creation runs before the lock
is taken and protects nothing. `CompletionLocks` goes below the blocks: it interleaves the single
statements of completing operations under read-committed visibility, taking the RDP's lock later than the
code does, and shows that whole completions are the right granularity.

**Data around it.** `BatchCleanup` is the chunked deletion of import batches over a small relational
store with cascades; a declarative result of a cleanup is the partner of the loops. `OnaImport` and
`KoboImport` are the resumable imports. `PushProcessing` is the push pipeline with the trace of what HOPE
saw. `FlexMarkers` is the two-phase replacement of attachment names over nested JSON. `HopeBlob` is the
cache of blob hashes. `Base64` and `MigrateFlexFiles` convert inline files and restore them.
`AuroraMerge` is the recursive merge of decrypted payloads.

## What the proofs found

- A recorded RDI id *can* be forgotten outside the two intended cases. When a preparation job is
  delivered twice, one delivery can schedule the data push, whose worker records a new RDI, and the other
  can then hear that the old RDI is merged and finish the attempt with the old id.
  `RdpWitness.RecordedIdCanBeForgotten` is such a run; `RdpTheorems.RecordedIdForgotten` says exactly when
  an id is replaced.
- A rate threshold is compared by two rounded products. An exceeded rate goes unnoticed exactly when both
  round to the same 28 digits (`PushPolicy.ThresholdDecides`, with numbers in `RoundingCanDecide`); no
  threshold of the form with fewer than 10^16 individuals and findings gets there.
- `batch_cleanup` deletes a collector of an unfinished RDP when that collector is a member of a household
  of the batch: moving it to another batch does not save it from the household's cascade
  (`BatchCleanup.MemberCollectorIsLost`). `BatchCleanupKeepsPushSet` has the exact condition for every
  unfinished RDP. The count of deleted individuals leaves out members deleted by cascade.
- A Kobo import does not ask for an order and its cursor is the id committed last. After a stop the next
  query finds exactly what is left if and only if no unserved id lies below that id and no id committed by
  the run above it (`KoboImport.NextQuery`). Otherwise a submission is lost for good (`LostSubmission`) or
  committed twice, even by runs that complete (`CommittedTwice`). `InStepIffInOrder` and
  `ExactlyOnceIffInStep` say over all runs when every submission is committed exactly once; two stops out
  of order can make up for each other (`DisordersCanCancel`), the first one before a completed run cannot
  (`FirstDisorderShows`).
- Marking attachment answers commutes with flattening if and only if no value that the flattened tree keeps
  names an attachment below a system field at a path that does not end in one
  (`FlexMarkers.MarkingCommutesWithFlattening`); `MarkingDoesNotCommuteWithFlattening` is a
  submission where it does not, so marking has to come first.
- Blob keys replace characters, so two field names can share a key (`HopeBlob.Record.KeysCanCollide`). A sync
  that starts in agreement and ends keeps it if and only if no two fields with one key are to have different
  hashes, or one a hash and the other none (`SyncRecordBlobs`). Two different files overwrite each other
  (`HopeBlob.TwinOverwritesTwin`); with one file for both, the field that loses it takes the other's blob along
  (`TwinLosesItsBlob`). A sync that raised can be tried again, but if a field changed by it is changed back
  first, the stored hash hides that the blob is another file (`RevertedFileStaysWrong`);
  `HopeBlob.Record.AgreementExactly` is the condition from any storage.
- Converting a record and restoring it keeps the bytes of every value
  (`MigrateFlexFiles.Record.ConvertAndRestore`) but not every text: one whose base64 has non-zero padding
  bits, or whose mimetype is empty or not the one first stored for those bytes, comes back different
  (`ConvertThenRestore`, `IdenticalText`), and a value that already was a reference to a file of the record
  comes back as a data-URI (`OwnReferenceIsInlined`); a reference is left alone exactly when the record
  owns no such row.

## Model

| member | source | states |
|---|---|---|
| RdpRuns.RunInv | src/country_workspace/models/rdp.py:84-108 | The whole invariant (one unfinished RDP a programme, attempt id exactly in PUSH_PENDING, operations settled, successes disjoint and removed, claims unique) holds after every sequence of blocks, worker moves, redeliveries and remote answers. |
| RdpRuns.StepInv | src/country_workspace/rdp/push/workflow.py:87-541 | Every block and every worker move, taken in any state that satisfies the invariant, re-establishes it. |
| RdpRuns.SuccessIsExclusive | src/country_workspace/rdp/push/workflow.py:412-494 | In every reachable state two SUCCESS RDPs of a programme share no selected record and no represented individual, and everything each represents is `removed`, although creation checks this outside the lock and the already-merged path checks nothing. |
| RdpRuns.OneClaimPerAttempt | src/country_workspace/rdp/push/repository.py:30-39 | However often data jobs and callbacks are delivered, two data workers never hold the same attempt and HOPE is asked for at most one RDI per attempt. |
| RdpRuns.RecordedIdIsStable | src/country_workspace/rdp/push/workflow.py:482-494 | When a worker that sent all its data still owns the current attempt, the recorded id is its own: the error about a changed `hope_rdi_id` cannot be raised. |
| RdpRuns.ForgettingSteps | src/country_workspace/rdp/push/workflow.py:111-132 | A step replaces the id recorded on an unfinished RDP if and only if it schedules the attempt's data push for the first time or finishes the attempt with another id that HOPE calls merged. |
| RdpTheorems.RecordedIdForgotten | src/country_workspace/rdp/push/workflow.py:87-132 | The same over whole runs; moreover the scheduling case follows a reset of that very id requested in this attempt, and the merged case only occurs after the data push was already scheduled. |
| RdpTheorems.SchedulingFollowsReset | src/country_workspace/rdp/push/workflow.py:311-351 | An id is only erased by scheduling after this attempt asked HOPE to reset exactly that id. |
| RdpAnswers.SuccessNeedsAnswer | src/country_workspace/rdp/push/workflow.py:311-351 | Over every run, with HOPE's answers read off its events: an RDP becomes a success only by a data worker that sent everything under the recorded id, or by a preparation worker of the current attempt to which HOPE answered MERGED for the very id it asked about, which is then the recorded id. |
| RdpAnswers.SchedulingNeedsAnswer | src/country_workspace/rdp/push/workflow.py:311-351 | A data push is scheduled only by a preparation worker that had nothing to reset or was told NOT_FOUND, or by the callback of an attempt in which a reset was requested. |
| RdpAnswers.StagesFollowAnswers | src/country_workspace/rdp/push/workflow.py:315-375 | The stage of a preparation worker follows from what it was told, for each of the six answers; without an answer it never takes the merged path. |
| RdpAnswers.EndsFollowAnswers | src/country_workspace/rdp/push/workflow.py:315-375 | A worker that is over leaves its attempt over after MERGE_IN_PROGRESS, another error or MERGED, and over or with its data push scheduled after NOT_FOUND or without a reset; only ACCEPTED and an unconfirmed answer leave it open. |
| RdpAnswers.RefusalFailsTheAttempt | src/country_workspace/rdp/push/workflow.py:327-375 | After MERGE_IN_PROGRESS or another error the attempt is over, or the worker is about to end it in FAILURE with the recorded id kept, which without a data push is the id it asked to reset. |
| RdpAnswers.AcceptedWorkerIsDone | src/country_workspace/rdp/push/workflow.py:340-366 | After ACCEPTED or an unconfirmed answer the worker changes nothing any more. |
| RdpAnswers.WaitsForCallback | src/country_workspace/rdp/push/workflow.py:340-366 | An attempt that waits after such an answer keeps its status and its recorded id and gets no data push over every continuation without its callback, the call for stuck pushes or a repeated delivery of its job. |
| RdpTheorems.MergedWinsLate | src/country_workspace/rdp/push/workflow.py:430-436 | Another merged id can replace the recorded one only when the attempt's data job already exists. |
| RdpWitness.RecordedIdCanBeForgotten | src/country_workspace/rdp/push/workflow.py:295-375 | A reachable run in which a redelivered preparation job ends the attempt with the old merged id although a new RDI was recorded and is receiving data: "never forgotten" is false without the exception above. |
| RdpTheorems.CreatedIdSurvives | src/country_workspace/rdp/push/workflow.py:505-513 | If a worker that created an RDI ends its own attempt, by failing or completing, that id is what stays recorded, with FAILURE or SUCCESS accordingly. |
| RdpTheorems.OperationsSettle | src/country_workspace/rdp/operations/repository.py:31-85 | In every reachable state all operations of an RDP in REVIEW_PENDING, PUSH_PENDING, FAILURE or SUCCESS have succeeded, and a RUNNING operation's RDP is PENDING, although workers carry no run token. |
| RdpTheorems.NoLostWakeUp | src/country_workspace/rdp/operations/completion.py:10-28 | Outside cleanup a PENDING RDP whose operations have all succeeded has an evaluation job, in every reachable state. |
| RdpTheorems.WaitingOperationsHaveJobs | src/country_workspace/rdp/operations/workflow.py:35-69 | An operation that never ran has a job, or a cancelled RDP still holds the rejection job that will create it. |
| RdpTheorems.StepIsSafe | src/country_workspace/models/rdp.py:134-156 | What one step may do to a table: CANCELLED stays, SUCCESS only goes to CANCELLED and only by the reset block, a new attempt id is fresh, succeeded operations and thresholds stay, rows appear only outside cleanup and vanish only inside it. |
| RdpTheorems.FinishedAttemptStaysOver | src/country_workspace/rdp/push/repository.py:42-53 | Over whole runs an attempt id that is no longer current never becomes current again. |
| RdpTheorems.FinishedAttemptIsInert | src/country_workspace/rdp/push/repository.py:42-53 | Any job, callback, stuck-push call or worker move of a finished attempt leaves RDPs, households and individuals exactly as they are. |
| RdpTheorems.CancelledForever | src/country_workspace/models/rdp.py:151-156 | Once cancelled, an RDP is cancelled in every later state of every run, or deleted without its key being reused. |
| RdpTheorems.SuccessLeavesByReset | src/country_workspace/rdp/lifecycle.py:73-84 | In a reachable state only the reset block of that RDP changes SUCCESS, to CANCELLED, and only for the latest successful RDP. |
| RdpTheorems.AttemptsMatchStatus | src/country_workspace/models/rdp.py:89-108 | PUSH_PENDING holds exactly when an attempt id is set, and two unfinished RDPs of a programme are the same RDP, also across the clean replacement. |
| RdpTheorems.CleanupIsExclusive | src/country_workspace/admin/program.py:78-108 | While `cleanup_in_progress` is set no RDP of the programme is PUSH_PENDING and no step creates one. |
| RdpTheorems.ThresholdForever | src/country_workspace/rdp/lifecycle.py:187-200 | No step of any run changes the threshold an operation was created with. |
| RdpTable.EvaluationDecides | src/country_workspace/rdp/push/workflow.py:156-223 | For every state and threshold: what an evaluation decides and leaves, told in numbers of findings and individuals and not through the decision itself. |
| RdpTable.ResetGivesBack | src/country_workspace/rdp/lifecycle.py:73-84 | An allowed reset clears `removed` of everybody the RDP stands for, changes no other beneficiary and no other RDP, and keeps the recorded id; any other reset changes nothing. |
| RdpTable.TableHolds | src/country_workspace/rdp/push/workflow.py:87-541 | What each event makes of each RDP row, written out as a table of statuses, ids, attempts, operations, findings and jobs and independent of the steps; it holds in every state. |
| RdpTable.FlagsHold | src/country_workspace/rdp/push/workflow.py:412-427 | Which beneficiaries' `removed` each event sets or clears: a success removes everybody it stands for, a reset gives them back, nothing else changes a flag. |
| RdpTable.CreationHolds | src/country_workspace/rdp/lifecycle.py:53-70 | A creation is refused in cleanup and beside an unfinished RDP; otherwise the new row has the chosen selection, a waiting operation for each threshold and one job for each, or the evaluation job. |
| RdpTable.ReplacementHolds | src/country_workspace/rdp/lifecycle.py:187-249 | The new row of a clean replacement waits without jobs, forces COUNT 0 on the biometric operation and keeps the other thresholds. |
| RdpTable.RequestsHold | src/country_workspace/rdp/push/workflow.py:311-366 | HOPE is asked for one RDI by each claimed worker that passed its preflight, and for one reset by each preparation with an id; no other event asks for anything. |
| RdpTable.DataWorkerHolds | src/country_workspace/rdp/push/workflow.py:446-513 | The stages of a data worker: what it does next depends on what HOPE answered and on whether it still owns the attempt. |
| RdpTable.DeletionHolds | src/country_workspace/tasks.py:30-90 | What a deletion of beneficiaries leaves in every table, selections and findings included. |
| RdpTable.CleanupHolds | src/country_workspace/admin/program.py:78-108 | The flag is set exactly when it is not set and no push of the programme is pending, and cleared only after all RDPs of the programme are deleted; nothing else is touched. |
| RdpInvariant.ResetKeepsOthers | src/country_workspace/rdp/repository.py:110-117 | A reset leaves the beneficiaries of every other successful RDP removed. |
| RdpInvariant.DeleteInv | src/country_workspace/tasks.py:30-90 | Deleting any beneficiaries with everything that cascades keeps the invariant. |
| RdpInvariant.PurgeInv | src/country_workspace/tasks.py:325-327 | Deleting the RDPs of a programme in cleanup keeps the invariant. |
| RdpWorkspace.Workspace.CreateRdp | src/country_workspace/rdp/lifecycle.py:53-70 | The block is the creation step; a second unfinished RDP is refused. Keeps the invariant. |
| RdpWorkspace.Workspace.ResetRdp | src/country_workspace/rdp/lifecycle.py:73-84 | Exactly when this is the latest success outside cleanup: it becomes CANCELLED with its id kept, everybody it stands for has `removed` cleared, and no other row changes; otherwise nothing changes. Keeps the invariant. |
| RdpWorkspace.Workspace.CancelRdp | src/country_workspace/rdp/lifecycle.py:130-161 | The locked half of the cancellation is the cancel step. Keeps the invariant. |
| RdpWorkspace.Workspace.CreateCleanRdp | src/country_workspace/rdp/lifecycle.py:203-266 | All checks and the replacement together are the clean-replacement step. Keeps the invariant. |
| RdpWorkspace.Workspace.ContinueCleanReplacement | src/country_workspace/rdp/deduplication/workflow.py:308-317 | Schedules the replacement's operations unless it is no longer pending or the programme is being cleaned. Keeps the invariant. |
| RdpWorkspace.Workspace.ClaimRdpOperation | src/country_workspace/rdp/operations/repository.py:31-50 | Claims a waiting or failed operation of a pending RDP and counts the run. Keeps the invariant. |
| RdpWorkspace.Workspace.FailRdpOperation | src/country_workspace/rdp/operations/repository.py:53-65 | Fails a running operation and reports whether it did. Keeps the invariant. |
| RdpWorkspace.Workspace.CompleteRdpOperation | src/country_workspace/rdp/operations/completion.py:10-28 | Finish, check and schedule in one transaction; an exception rolls it back and fails the operation. Keeps the invariant. |
| RdpWorkspace.Workspace.RetryFailedOperations | src/country_workspace/rdp/operations/workflow.py:50-63 | Creates one job per failed operation and reports their number; nothing during cleanup. Keeps the invariant. |
| RdpWorkspace.Workspace.EvaluateForPush | src/country_workspace/rdp/push/workflow.py:156-223 | Status, job and verdict by the operation's own threshold, in reals: review exactly when there are more affecting findings than a COUNT allows, or more per represented individual than a RATE allows and the two products do not round to the same 28 digits; otherwise a new attempt with its preparation job; an error when nobody is represented; nothing when it is not ready. Keeps the invariant. |
| RdpWorkspace.Workspace.ClaimReviewPush | src/country_workspace/rdp/push/workflow.py:248-269 | Starts an attempt from review only. Keeps the invariant. |
| RdpWorkspace.Workspace.RetryRdpPush | src/country_workspace/rdp/push/workflow.py:272-292 | Starts an attempt from FAILURE with all operations successful only. Keeps the invariant. |
| RdpWorkspace.Workspace.FailPending | src/country_workspace/rdp/push/workflow.py:87-108 | Fails the matching attempt; a recorded id wins over the caller's, which wins over "N/A". Keeps the invariant if no other success holds the beneficiaries when an id is passed, which every step that calls it ensures. |
| RdpWorkspace.Workspace.SchedulePush | src/country_workspace/rdp/push/workflow.py:111-132 | Creates the data job once, clears the id only then, and queues again exactly while the job is unclaimed. Keeps the invariant. |
| RdpWorkspace.Workspace.FinishAlreadyMerged | src/country_workspace/rdp/push/workflow.py:430-436 | Finishes the attempt if it is still current, otherwise does nothing to the tables. Keeps the invariant. |
| RdpWorkspace.Workspace.ClaimDataPush | src/country_workspace/rdp/push/repository.py:30-39 | Succeeds exactly when the attempt is current and no id is set, and then writes "N/A". Keeps the invariant. |
| RdpWorkspace.Workspace.RecordRdi | src/country_workspace/rdp/push/workflow.py:468-480 | Records the created id if the attempt is still current. Keeps the invariant. |
| RdpWorkspace.Workspace.CompletePush | src/country_workspace/rdp/push/workflow.py:486-494 | Completes the attempt if it is current and still holds the worker's id. Keeps the invariant. |
| RdpWorkspace.Workspace.FailStuckPush | src/country_workspace/rdp/push/workflow.py:517-541 | Fails a prepared attempt whose data push was never scheduled. Keeps the invariant. |
| RdpWorkspace.Workspace.BeginCleanup | src/country_workspace/admin/program.py:78-108 | Sets the flag unless it is set or a push is pending. Keeps the invariant. |
| CompletionLocks.NoLostWakeUp | src/country_workspace/rdp/operations/completion.py:10-28 | Statement by statement, with any number of transactions completing, failing and claiming operations of one RDP under read-committed visibility, the evaluation job is committed once all operations have succeeded outside cleanup, and never before. |
| CompletionLocks.NeverStuck | src/country_workspace/rdp/operations/completion.py:10-28 | The locks are taken in an order that never blocks: while a transaction is open, one of them can take its next step. |
| CompletionLocks.CompletesAlone | src/country_workspace/rdp/operations/completion.py:10-28 | The six statements of a transaction that meets no other complete its operation as in one step. |
| CompletionLocks.CommitIsAtomic | src/country_workspace/rdp/operations/repository.py:68-85 | At its commit an interleaved completion has the effect of completing the operation in one step, which justifies the granularity of the RDP steps. |
| PushPolicy.ThresholdDecides | src/country_workspace/rdp/push/policy.py:34-51 | For all numbers: a threshold counts as exceeded if and only if it is exceeded in reals and, for a rate, the two products do not round to the same `Decimal`; rounding never makes up an excess. |
| PushPolicy.ContextIsNearest | src/country_workspace/rdp/push/policy.py:45-49 | The rounding meant is to the nearest number of 28 digits, ties to the even one. |
| PushPolicy.ThresholdIsExact | src/country_workspace/rdp/push/policy.py:34-51 | As long as the two products have at most 28 digits, the comparison of rounded decimals decides the exact rational inequality, for counts and rates. |
| PushPolicy.RoundingCanDecide | src/country_workspace/rdp/push/policy.py:45-49 | Numbers for which an exceeded rate goes unnoticed because both products round to the same number. |
| PushPolicy.FormThresholdsFit | src/country_workspace/rdp/push/policy.py:44-49 | Every threshold of the form with fewer than 10^16 individuals and findings is such a case. |
| RdpValidation.PreflightErrors | src/country_workspace/rdp/validation.py:18-59 | Empty exactly when something is selected, the selection meets no other open or successful RDP, every member, collector or selected individual (and household) was checked without errors, and in household mode none of the individuals is in an open or successful RDP of individuals. |
| RdpValidation.Collect | src/country_workspace/rdp/validation.py:31-39 | Reports exactly the invalid rows and exactly the rows that another RDP selects. |
| RdpValidation.RowwiseIsMeetsNoOther | src/country_workspace/rdp/validation.py:26-28 | The row-by-row check is disjointness from the selections of all other open and successful RDPs of that mode. |
| CleanReplacement.BuildBiometricFindings | src/country_workspace/rdp/deduplication/workflow.py:80-115 | All or nothing: local findings in order exactly when every status and reference can be read and every first individual belongs to the RDP; a foreign counterpart becomes none. |
| CleanReplacement.SyncDecision | src/country_workspace/rdp/deduplication/workflow.py:145-201 | When a result is ignored, fails the operation or completes it: completion needs a deduplicated set, the announced count, no system error and only valid findings. |
| CleanReplacement.StoredFindingsAllCount | src/country_workspace/rdp/deduplication/repository.py:65-69 | Because system errors fail the operation, every stored finding counts towards the threshold. |
| CleanReplacement.CleanListKeepsOrder | src/country_workspace/rdp/deduplication/repository.py:72-77 | The clean list is in the order of the old one. |
| CleanReplacement.CleanListRebuilds | src/country_workspace/rdp/deduplication/repository.py:72-77 | The clean list and the excluded beneficiaries, put together in order, are the old selection. |
| CleanReplacement.CleanListIsCleanSelection | src/country_workspace/rdp/lifecycle.py:212-229 | The list is the selection the replacement receives. |
| CleanReplacement.CleanRepresentsTheUnaffected | src/country_workspace/rdp/deduplication/repository.py:42-57 | The clean selection represents exactly the old individuals who are on neither side of an affecting finding and, in household mode, share no household with one who is. |
| CleanReplacement.ZeroThresholdReviews | src/country_workspace/rdp/push/workflow.py:181-203 | With the forced COUNT 0 threshold an evaluation asks for review exactly when a finding affects HOPE, otherwise pushes. |
| CleanReplacement.ReplacementOutcome | src/country_workspace/rdp/lifecycle.py:187-249 | A replacement leaves the old RDP cancelled with its rejection job, the new one pending without jobs, with the clean selection, the same operations and the forced threshold, and all other rows alone. |
| CleanReplacement.CleanRdpVerdict | src/country_workspace/rdp/lifecycle.py:187-249 | Over whole runs: whenever the clean RDP is evaluated, review means that its own findings affect HOPE and pushing means that none does. |
| BatchCleanup.Store.ReferencedCollectorReparenting | src/country_workspace/tasks.py:208-237 | The rows ordered by batch and `setdefault` map every id named by a household outside the chunk to the least such batch, and no other id. |
| BatchCleanup.Store.CleanupChunk | src/country_workspace/tasks.py:253-276 | One turn with its cascades leaves exactly the declarative result for the chunk; the counters are exact for batches and households, and count of individuals only those deleted directly. |
| BatchCleanup.Store.CleanupBatches | src/country_workspace/tasks.py:240-278 | For every batch list, chunk size and point of cancellation the result is that of one cleanup of the batches processed; the counters of batches and households are exact, that of individuals lies between those that go while their household stays and all that are gone. It stops exactly at the first chunk before which a cancellation was requested. |
| BatchCleanup.GuardMeans | src/country_workspace/rdp/repository.py:83-107 | The guard of `batch_cleanup` refuses exactly when an unfinished RDP selects a household or individual of the batch, a household with a member in it, or an individual of a household in it. |
| BatchCleanup.Store.BatchCleanup | src/country_workspace/tasks.py:347-370 | Refuses exactly when an unfinished RDP refers to the batch in one of the four ways; any exception leaves the database as it was. |
| BatchCleanup.CleanedTwice | src/country_workspace/tasks.py:253-276 | Cleaning two lists one after the other is cleaning their union, although the first may move a collector onto a batch that the second deletes. |
| BatchCleanup.CollectorSurvives | src/country_workspace/tasks.py:208-219 | A household-less collector of a listed batch survives if and only if a household of the programme outside the list refers to it; then only its batch changes, to a surviving batch that refers to it. |
| BatchCleanup.OthersGoWithTheirBatch | src/country_workspace/tasks.py:262-276 | Households go exactly with their batch, members with their household, and everything else outside the list is untouched. |
| BatchCleanup.ProgramCleanupIsComplete | src/country_workspace/tasks.py:317-322 | Cleaning all batches of a programme leaves nothing of it and changes no row of another programme. |
| BatchCleanup.BatchCleanupKeepsPushSet | src/country_workspace/rdp/repository.py:83-107 | The push set of an unfinished RDP of any programme is the same after `batch_cleanup` if and only if each of its collectors is kept: it is no member of a household of the batch, and if it lies in the batch another household of the batch's programme names it, which an RDP of that programme guarantees. Members always stay, with their data. |
| BatchCleanup.SelectionKept | src/country_workspace/tasks.py:357-364 | The selection of every unfinished RDP survives the cleanup. |
| BatchCleanup.MemberCollectorIsLost | src/country_workspace/tasks.py:347-366 | A store in which the guard lets the cleanup through and a collector of an unfinished RDP is deleted with the household it is a member of. |
| BatchCleanup.CountedAreGone | src/country_workspace/tasks.py:269-270 | The individuals counted are among those gone; members deleted by cascade are not counted. |
| OnaImport.ExactlyOnce | src/country_workspace/contrib/ona/import_processing.py:175-236 | Over any sequence of runs stopped by faults, cancellations and time boxes anywhere, the committed submissions are a duplicate-free prefix of the stream after the first cursor, the cursor is the last of them, and a completed run left nothing out that was there when it began. |
| OnaImport.Database.ImportSubmissions | src/country_workspace/contrib/ona/import_processing.py:175-236 | One run commits the next k submissions and leaves the cursor at the last of them however it was left; it is left after the submission at which the time was up and before the one at which a cancellation was seen, and at no other for these reasons; a completed one has committed all it could see at the start. |
| OnaImport.Database.ImportAll | src/country_workspace/contrib/ona/import_processing.py:157-170 | The chain of continuation jobs over a finite stream ends, after at most one run more than there are submissions, with all of them committed in order. |
| KoboImport.NextQuery | src/country_workspace/contrib/kobo/api/client/helpers.py:90-103 | After any stop the query above the new cursor leaves out no uncommitted id exactly when no unserved id lies below the one committed last, finds none again exactly when no id committed by the run lies above it, and so finds exactly what is left when both hold. |
| KoboImport.InStepIffInOrder | src/country_workspace/contrib/kobo/sync.py:311-363 | Over any sequence of runs, each on any order of answer and stopped anywhere: the commits are free of duplicates and the next query finds exactly the rest after every run, if and only if every run stops in order. |
| KoboImport.StaysInStep | src/country_workspace/contrib/kobo/sync.py:315-363 | One run keeps an import in step if and only if it stops in order. |
| KoboImport.ExactlyOnceIffInStep | src/country_workspace/contrib/kobo/sync.py:315-363 | When a run completes, whatever came before, every id on the server has been committed exactly once if and only if the import was in step when that run began. |
| KoboImport.FirstDisorderShows | src/country_workspace/contrib/kobo/sync.py:315-363 | The first stop out of order costs an id or a duplicate in the run that completes next; without it there is neither. |
| KoboImport.AtMostOnce | src/country_workspace/contrib/kobo/sync.py:315-363 | No id is committed twice if no run leaves a committed id above its cursor. |
| KoboImport.AtLeastOnce | src/country_workspace/contrib/kobo/sync.py:315-363 | A completed run has left nothing out if no run skipped an id. |
| KoboImport.LostForever | src/country_workspace/contrib/kobo/sync.py:352-363 | An id that a cursor has passed uncommitted is never committed, whatever runs follow. |
| KoboImport.EveryStopInOrder | src/country_workspace/contrib/kobo/api/client/helpers.py:90-103 | Every possible stop is in order if and only if the server answers in increasing id order, which the client does not request. |
| KoboImport.LostSubmission | src/country_workspace/contrib/kobo/sync.py:333-363 | On the answer 2, 1 stopped by the time box after one submission, submission 1 is never committed by any continuation. |
| KoboImport.CommittedTwice | src/country_workspace/contrib/kobo/sync.py:333-363 | On the answer 2, 1 a run that completes leaves the cursor at 1, and the next import commits submission 2 again. |
| KoboImport.DisordersCanCancel | src/country_workspace/contrib/kobo/sync.py:315-363 | Three runs in which two stops out of order make up for each other, so exactly once over a whole history does not need order at every stop. |
| KoboImport.Import.ImportAsset | src/country_workspace/contrib/kobo/sync.py:288-363 | On any answer and stopped anywhere the loop is a run in the sense above, and the household ids of the batch stay 1..n. |
| KoboImport.Import.ImportAll | src/country_workspace/contrib/kobo/sync.py:390-484 | The chain of continuation jobs ends after at most one run more than there are ids, its commits are those of a history, and on ordered answers every id is committed exactly once. |
| PushProcessing.PushRdp | src/country_workspace/rdp/push/workflow.py:453-484 | From preflight to completion with the identity serializer: no RDI is requested after a preflight error and nothing is sent after an error. It succeeds if and only if its last call is a completion that HOPE answered, and if and only if there was no preflight error, an RDI was created, every reply accepted its whole batch with valid mapping entries, no batch failed to be prepared and every household's references are among the ids HOPE named. Completion is requested only when all rows were posted and counted. |
| PushProcessing.PushProcessor.PushData | src/country_workspace/rdp/push/workflow.py:387-409 | The same for the steps alone and any serializer, with the rows of the batches whose payload is not empty; every post has at most ten rows. |
| PushProcessing.PushProcessor.PushBatched | src/country_workspace/rdp/push/processor.py:302-330 | Without errors the loop has posted exactly the batches with a payload, in order, all counted; with an earlier error it posts nothing. |
| PushProcessing.PushProcessor.Process | src/country_workspace/rdp/push/processor.py:237-300 | A reply is counted exactly when it accepts the whole batch; otherwise an error is recorded. |
| PushProcessing.PushProcessor.MapReferences | src/country_workspace/contrib/hope/rdi/mappings.py:25-62 | Records an error exactly when a role or member has no HOPE id. |
| PushProcessing.PushProcessor.LoadMapping | src/country_workspace/contrib/hope/rdi/mappings.py:9-22 | Joins the valid entries and records an error exactly when one is refused. |
| PushProcessing.LastPairCounts | src/country_workspace/contrib/hope/rdi/mappings.py:9-22 | Of several entries for one id the last one counts. |
| PushProcessing.ErrorListIsPrefix | src/country_workspace/rdp/push/processor.py:67-77 | After any number of messages the list is all of them, cut to length, up to 299, and from the 300th on the first 299 and one marker at the end. |
| PushProcessing.AppendedAllIsCapped | src/country_workspace/rdp/push/processor.py:21-25 | The list never exceeds 300 entries and the marker is at most its last entry. |
| PushProcessing.SentIsEverything | src/country_workspace/rdp/push/processor.py:313-325 | All rows are sent, and the totals equal their number, exactly when the serializer empties no batch. |
| FlexMarkers.TwoPhasesAreOne | src/country_workspace/contrib/ona/attachments.py:76-93 | Marking and resolving equals one direct substitution over the nested tree if and only if no text outside the attachment answers begins with the pending prefix. |
| FlexMarkers.PipelineIsSubstitution | src/country_workspace/contrib/ona/transformers.py:57-69 | Mark, flatten, resolve gives what substituting and flattening gives if and only if the flattened tree keeps no text with the pending prefix that marking did not put there; a submission without such texts is enough, and one overwritten at a colliding path does no harm. |
| FlexMarkers.MarkingCommutesWithFlattening | src/country_workspace/contrib/ona/transformers.py:57-73 | Marking after flattening gives what marking before it gives if and only if no value that the flattened tree keeps names an attachment while a system field encloses it and its own path does not end in one; colliding paths are decided by the value that wins. |
| FlexMarkers.MarkingDoesNotCommuteWithFlattening | src/country_workspace/contrib/ona/transformers.py:72-73 | A submission in which the condition fails: one text below a system field. |
| FlexMarkers.MarkedIsIdentity | src/country_workspace/contrib/ona/attachments.py:76-93 | Marking changes a tree exactly when a text outside its system fields names an attachment. |
| FlexMarkers.ResolvingCommutesWithFlattening | src/country_workspace/utils/flex_files.py:217-240 | Markers may be resolved before or after flattening. |
| FlexMarkers.FlattenOnaData | src/country_workspace/contrib/ona/transformers.py:57-69 | The loop yields slash paths, later equal paths replacing earlier ones. |
| FlexMarkers.FlattenHoldsLastLeaf | src/country_workspace/contrib/ona/transformers.py:57-69 | Flattening has exactly the slash paths of the leaves, each with the value of the last leaf in document order that has this path. |
| FlexMarkers.NoMarkerSurvives | src/country_workspace/utils/flex_files.py:217-240 | No marker is left in a resolved tree. |
| FlexMarkers.ResolvedIsIdentity | src/country_workspace/utils/flex_files.py:203-214 | Resolving changes a value exactly when it holds a marker. |
| FlexMarkers.Downloader.Mark | src/country_workspace/contrib/ona/attachments.py:78-93 | Marks against the final memo; every attachment named outside system fields is downloaded exactly once. |
| FlexMarkers.Record.WriteFlexFile | src/country_workspace/utils/flex_files.py:46-84 | Reuses the row of the same field and content or appends one; the reference names exactly one row, which has the bytes. |
| FlexMarkers.Record.MaterializePendingFiles | src/country_workspace/utils/flex_files.py:134-170 | Both payloads are resolved with one set of references; no marker survives, every file is written once and every reference leads to its bytes. |
| HopeBlob.Record.SyncRecordBlobs | src/country_workspace/services/hope_blob.py:61-112 | For any names, shared keys included: a sync that ends tracks exactly the current files in scope, deletes exactly the blobs of tracked fields without a file, and, started in agreement, leaves hashes and blobs in agreement if and only if no two fields with one key clash; from any start agreement also needs every field to be covered. One that raises leaves the hashes and what was covered. Blobs of no field concerned are untouched, and where keys are distinct fields outside `only` keep theirs. |
| HopeBlob.Record.AgreementExactly | src/country_workspace/services/hope_blob.py:80-107 | From any storage a sync starts on: agreement afterwards holds if and only if fields that share a key are to have the same hash and every field to be tracked has its blob already or gets one stored. |
| HopeBlob.Record.StillCovered | src/country_workspace/services/hope_blob.py:80-107 | A sync that raises midway, in either loop, leaves every field covered that was, so without a clash the same sync tried again ends in agreement. |
| HopeBlob.Record.UsualCase | src/country_workspace/services/hope_blob.py:97-101 | Agreement covers every field, and distinct keys never clash. |
| HopeBlob.TwinLosesItsBlob | src/country_workspace/services/hope_blob.py:104-107 | A run over two names with one key and one file: the second loses its file, and the sync deletes the blob of the first, whose hash and file stay. |
| HopeBlob.SameFileIsDropped | src/country_workspace/services/hope_blob.py:104-107 | Whatever sync ends on that record, the first field keeps its file and its hash and has no blob. |
| HopeBlob.TwinOverwritesTwin | src/country_workspace/services/hope_blob.py:97-101 | A run over two names with one key and two files, started in agreement on nothing, ends without agreement. |
| HopeBlob.DifferentFilesClash | src/country_workspace/services/hope_blob.py:97-101 | Two files under one key clash. |
| HopeBlob.RevertedFileStaysWrong | src/country_workspace/services/hope_blob.py:97-101 | Two runs: the first stores a new file and raises at another field; the file is changed back, and the second run finds the hash unchanged and leaves the wrong blob. |
| HopeBlob.Record.KeysCanCollide | src/country_workspace/models/mixins.py:22-33 | Two different field names can have the same blob key. |
| HopeBlob.SanitizedName | src/country_workspace/models/mixins.py:22-33 | A sanitized name is the name without the blanks around it, with every character outside the allowed ones replaced by an underscore. |
| Base64.GroupsHoldTheBits | src/country_workspace/utils/flex_files.py:39-43 | Three bytes and their four characters are the same 24 bits, most significant first. |
| Base64.DecodeOfEncode | src/country_workspace/utils/flex_files.py:39-43 | Decoding an encoded file gives its bytes (section 4 of RFC 4648). |
| Base64.EncodeOfDecode | src/country_workspace/management/commands/migrate_flex_files.py:43-46 | Encoding what a readable text decodes to gives the text back exactly when its padding bits are zero. |
| MigrateFlexFiles.UriRoundTrip | src/country_workspace/management/commands/migrate_flex_files.py:38-47 | A written data-URI parses to its mimetype and bytes (section 3 of RFC 2397). |
| MigrateFlexFiles.SameText | src/country_workspace/management/commands/migrate_flex_files.py:38-47 | Writing a parsed data-URI gives the same text exactly when the base64 is canonical and the mimetype is the one written. |
| MigrateFlexFiles.Record.ConvertAndRestore | src/country_workspace/management/commands/migrate_flex_files.py:208-266 | Forward and back over a whole record, with or without earlier rows: no row is left and every top-level value of both payloads stands for the bytes it stood for, inline or in an own row. Without earlier rows and with one mimetype for each content a value is the same again exactly when it was no readable data-URI or names its mimetype and has canonical base64. |
| MigrateFlexFiles.ConvertThenRestore | src/country_workspace/management/commands/migrate_flex_files.py:208-266 | Value by value: a readable data-URI comes back with its bytes, as the identical text exactly under the condition above; a reference stays one exactly when the record owns no such row and otherwise becomes that row's data-URI; every other value comes back as it was. |
| MigrateFlexFiles.OwnReferenceIsInlined | src/country_workspace/management/commands/migrate_flex_files.py:228-266 | A record that already referred to a file of its own gets a data-URI in its place. |
| MigrateFlexFiles.ConvertingKeepsFiles | src/country_workspace/management/commands/migrate_flex_files.py:208-226 | Converting keeps the bytes that every value stands for. |
| MigrateFlexFiles.RestoringKeepsFiles | src/country_workspace/management/commands/migrate_flex_files.py:228-266 | Restoring keeps the bytes that every value stands for although it deletes all rows. |
| MigrateFlexFiles.Record.ConvertTwice | src/country_workspace/management/commands/migrate_flex_files.py:208-226 | The second conversion of a record reports nothing to do and leaves payloads and rows as the first left them: the rows between the runs are the rows at the end. |
| MigrateFlexFiles.IdenticalText | src/country_workspace/management/commands/migrate_flex_files.py:208-266 | With one mimetype per content and no earlier rows the identical text returns exactly when the text names its mimetype and is canonical. |
| MigrateFlexFiles.MimetypeKept | src/country_workspace/management/commands/migrate_flex_files.py:216-225 | Under one mimetype per content the row a text leads to keeps that text's mimetype, although rows are shared. |
| MigrateFlexFiles.Record.ConvertRecord | src/country_workspace/management/commands/migrate_flex_files.py:208-226 | Reports a change exactly when something readable is inline; then both payloads are substituted, rows are only appended, and every reference leads to the bytes of its text. |
| MigrateFlexFiles.Record.RestoreRecord | src/country_workspace/management/commands/migrate_flex_files.py:228-266 | Writes the files of all owned rows back inline and leaves no row. |
| AuroraMerge.MergeTwice | src/country_workspace/contrib/aurora/crypto.py:46-76 | Wherever the merge is defined, merging the same second tree again changes nothing, lists merged elementwise included. |
| AuroraMerge.ListsMergeByElement | src/country_workspace/contrib/aurora/crypto.py:61-68 | Where two different lists meet, the result has the length of the first; element i is the key-wise merge of the two elements below the second length and the first list's element after that. |
| AuroraMerge.ListMergeRaises | src/country_workspace/contrib/aurora/crypto.py:61-68 | Two different lists raise exactly when the second is longer or some element of it is not a dict, is a non-empty dict for something that is none, or conflicts. |
| AuroraMerge.SecondLeavesStay | src/country_workspace/contrib/aurora/crypto.py:56-75 | Every leaf of the second tree, reached through dicts and list positions, is at the same place of the result, up to Python's equality. |
| AuroraMerge.FirstTreeStays | src/country_workspace/contrib/aurora/crypto.py:56-75 | Where the second tree has nothing, the result is what the first tree has, through dicts and list positions. |
| AuroraMerge.NothingIsInvented | src/country_workspace/contrib/aurora/crypto.py:56-75 | Every leaf of the result is at the same place a leaf of one of the two trees. |
| AuroraMerge.MergeRaisesAtConflicts | src/country_workspace/contrib/aurora/crypto.py:56-75 | The whole merge raises exactly when the two trees conflict at some path. |
| AuroraMerge.DictsEqual | src/country_workspace/contrib/aurora/crypto.py:59-60 | The equality that keeps a value: dicts by keys in any order, lists by position, True as 1. |
| AuroraMerge.MergeRaises | src/country_workspace/contrib/aurora/crypto.py:61-73 | The merge raises exactly when the two values of some key cannot be merged. |
| AuroraMerge.Merge | src/country_workspace/contrib/aurora/crypto.py:46-76 | The loop over the second dict computes the merge and terminates on nested trees. |

## Left out

Assumptions of the RDP workflow:

- HOPE never answers the id "N/A" and never an empty id; attempt ids and primary keys are never reused.
- Job rows of existing RDPs are not deleted and statuses are not edited by hand in the admin.
- A programme keeps its beneficiary group; an RDP selects beneficiaries of its own programme; members are imported together with their household and never change household.
- Beneficiaries change `removed` only in the modelled blocks; imports create them with the flag cleared.
- One cleanup of a programme runs at a time, and the flag is cleared only after its RDPs are deleted.
- The parts of a preflight that read validation results are an arbitrary boolean in `RdpSteps`; `RdpValidation` models them by themselves and takes the ids that role fields name as a parameter.
- At most one live RDI in HOPE is not claimed, because an attempt can be failed while its create request is in flight.

Parts of the repository that are not modelled:

- HTTP clients, Celery, Redis locks and Azure storage: their answers are parameters, and a worker that dies is one that takes no further step.
- Logs, notifications, signals, permission checks and the DedupEngine approval after a push: they do not feed back into the rows modelled.
- Building and uploading a DedupEngine set (`run_biometric_deduplication`): its internals belong to the remote service; a run ends in one of the modelled operation blocks.
- `clean_program_data` beyond its batches and its flag: the checks on other jobs and the deletion of RDIs and job rows.
- Chunking in `cleanup_merged_rdp_data`: the workflow allows any deletion of beneficiaries at any time instead.
- Account and document columns, field cleaning, name parsing and grouping of flex fields, which are single-branch mappings.
- `remove_nested_value` and `get_nested_value`, which only select the repeated group of a submission.
- Dry runs, limits, batching and orphan rows of the migration command: one record at a time is modelled.
- Decryption of Aurora payloads and the digest function: a SHA-256 digest is a constructor of its content, that is, free of collisions.
- The text formats fixed by `hope_flex_fields` are not part of this model. A reference is taken to be `flexfile:` and the UUID of its row, where only what tells it from a pending marker and a data-URI is used; the default mimetype is taken to be `application/octet-stream`.
- UUIDs of file rows never repeat, and no payload names a row that is still to be created.

What the stated contracts do not capture:

- AuroraMerge.Merge: does not model that merged dicts are updated in place and share subtrees with the second tree, because trees are values here; NaN, which is not equal to itself, is left out.
- BatchCleanup.Store.CleanupBatches: does not model characters that are digits for Unicode but not for `int`, because such a reference makes the push query itself raise.
- OnaImport.ExactlyOnce: does not model a process killed between a commit and the cursor write, a failing cursor write, or submissions deleted on the server during a run.
- KoboImport.Import.ImportAsset: does not model households of the batch deleted between two runs of one import.
- KoboImport.NextQuery: takes the pages of an answer as one list, so it does not model pages that repeat or skip ids because the server changes between them.
- HopeBlob.Record.SyncRecordBlobs: does not model a change of the office, programme code or year in the keys of a record between two syncs.
- MigrateFlexFiles.ConvertThenRestore: does not model references nested below the top level, because the command only reads top-level values.
- FlexMarkers.Downloader.Mark: does not model a download error other than a missing or oversized file, because it abandons the whole submission before anything is stored.
- PushProcessing.PushProcessor.Process: does not model the wording of errors and their hints of ids.
- PushProcessing.PushProcessor.PushBatched: does not model the fields inside a payload, only the rows it stands for and whether it is empty.
- RdpTheorems.WaitingOperationsHaveJobs: does not claim that the job runs, because queueing after commit may fail silently.
