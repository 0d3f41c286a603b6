# Delivery engine and stream pieces of the terminal bridge

A Dafny model of the log-package delivery engine of `terminal_bridge` and of four pieces where a
streaming, parsing or structural transformation must agree with a simple specification. Every
theorem below is for all inputs, all runs or all reachable states.

| file | what it models |
|---|---|
| `DeliveryPhase.dfy`, `DeliveryFencing.dfy` | the runner as a concurrent protocol: lock regions, ownership tests and external effects as atomic steps of any number of goroutines |
| `DeliverySteps.dfy`, `DeliveryLostJobs.dfy`, `DeliveryContinuations.dfy`, `DeliverySharedCopy.dfy` | the effects on the local copy that no test precedes: who can still make them, why nobody else can, and how a run goes on to make them |
| `DeliveryRetries.dfy`, `DeliveryAtBest.dfy` | resumes, retries and the queue; the agreement of the runner with the functions of one job; the main path |
| `DeliveryDrivers.dfy`, `DeliveryCancels.dfy` | how many goroutines drive one job, and which run a submit tells to stop |
| `DiskAdmission.dfy`, `Sums.dfy` | disk admission of any number of pulls on one directory without a lock across the reads |
| `ArchivePull.dfy`, `Bytes.dfy` | the resumable pull with its streaming digest |
| `PartChunking.dfy`, `DeliveredArchive.dfy` | cutting into parts, the size guard, merging, the sequential uploader; pulls and puts together |
| `UploadRound.dfy` | one upload round: dispatcher, worker group and cancellation |
| `DeliveryJobs.dfy` | the job's phase, progress, part list and the classification of a failed round |
| `DeliveryCompletion.dfy`, `DrivenDeliveries.dfy` | the life of a delivery up to the complete request, over retries, resumes and crashes, with one run and with many at once |
| `UploadPacing.dfy`, `StallDetection.dfy` | the two control loops |
| `LocalCopies.dfy`, `LetterCase.dfy` | cleanup and eviction of local copies |
| `ShellWords.dfy` | shell quoting, the token scanner and the unwrapping of dispatchers |
| `CrlfStream.dfy` | the CRLF-normalizing reader |
| `LogReplay.dfy` | the log hub with its subscribers and replay |
| `SemanticTree.dfy`, `SemanticContent.dfy`, `SemanticText.dfy`, `SemanticSpaces.dfy`, `SemanticLines.dfy`, `SemanticRender.dfy`, `Subsequences.dfy` | the HTML-to-text renderers and their integrity report |
| `Options.dfy` | a result that may be absent |

How it is built:

- Code that changes things step by step is a method or a class here, proved against a function; a
  protocol is a state machine whose step is a function, and a run is a sequence of states and steps
  or the list of steps from a start.
- A step is as small as the regions the program holds a lock for: between any two steps every other
  goroutine may run. Cancellation is a notice that may come at any moment, never a guarantee.
- Network, file system and clock appear as parameters: what a removal, a probe, a PUT, a POST or a
  read answers is arbitrary. A digest is an arbitrary streaming hash.

Where the code and its own words disagree, the model follows the code:

- `localCopyReferences` is last-writer-wins per path, so the invariant claimed at
  terminal_bridge/delivery_local_store.go:205 holds only for the last record
  (`ProtectedIffLastClaimIsLive`, `LiveCopyMayBeRemoved`).
- `saveJob` checks and then writes outside the lock, so "not the executor, no journal write"
  (terminal_bridge/delivery_runner.go:498-500) can fail by one write (`JournalMayEndStale`).
- The runner speaks of an ownership test before every external effect
  (terminal_bridge/delivery_runner.go:187); `pullArchive` removes and appends without one, on a
  file named by the task id, which the generations of a task share (`LostJobMayTouchLaterIff`).
- `resume` and the deferred cleanup of `runJob` look neither at a running goroutine nor at who
  registered the cancel function, and a submit takes none for a job that is over
  (`AtMostOneDriverIff`, `SubmitMissesTheRunIff`).
- `advance` normalizes the phase under the lock and looks at it again without; a job that is
  cancelled in between finds no stage and is marked done (`CancelAtTheSwitchEndsDone`), against
  terminal_bridge/delivery_job.go:71-77.
- A pull whose directory cannot be made or whose prefix cannot be read again stores zero pulled
  bytes and is retried as an ordinary failure (`UnreadablePrefixMayRepeatForEver`).
- A job that carries uploaded parts never goes back to an incomplete pull
  (`RegisteredPartsAbandonThePull`).
- The size guard compares sizes, not bytes (`SameSizeRebuildMixes`).
- The renderers take a comment for text (`CommentsAreWrittenIff`), which code blocks and tables
  leave out.
- A zero pace resolves to one stream, not to the default number of streams
  (`ZeroPaceIsOneStream`); all pace theorems are therefore over an arbitrary stored pace.
- `pullArchive` ignores a failing removal of an oversized file; it then appends to it and still
  reports the digest of the source (`PullOnce` states exactly when).
- A volume with exactly zero free bytes is taken for a failed probe (`ZeroFreeIsAdmitted`).
- The overflow message of the log hub speaks of the oldest entry; the new one is lost as well
  (`OverflowDropsInPairs`).
- `normalizePtyOutput` calls itself idempotent; it is so only without a CR before a CRLF
  (`NormalIsIdempotentIff`).
- The integrity report hashes the payload of a code block, not the lines written for it
  (`CodeIsVerbatimIff`, `CleanReportMayLoseALine`).
- `uploadArchiveParts` pads the last part with zeros when the request states no total size
  (`ArchivePartIsTheCutIff`).

## Model

| member | source | states |
|---|---|---|
| `DeliveryFencing.StepKeepsWellFormed` | terminal_bridge/delivery_runner.go:246-403 | every atomic step keeps the registry consistent: jobs point at structures with their id and no id is left without an owner |
| `DeliveryFencing.OwnershipIsNeverRegained` | terminal_bridge/delivery_runner.go:175-191 | in every interleaving of submits, runs, workers, retries, resumes and cancels, a job that is not the owner at one moment is never the owner later |
| `DeliveryFencing.TaskIdsStayPresent` | terminal_bridge/delivery_runner.go:254-272 | an id once present in the job table stays present: a submit replaces, it never vacates |
| `DeliveryFencing.EveryEffectWasFenced` | terminal_bridge/delivery_runner.go:190-203 | every tested effect (a PUT, the complete POST, a journal write, the deletion of a copy no longer wanted) follows an ownership test of the same goroutine that passed while its job was the owner, with no tested effect in between |
| `DeliveryFencing.LateEffectWasTestedInTime` | terminal_bridge/delivery_runner.go:1544-1555 | a tested effect of a job that has lost ownership was tested before the loss, and its goroutine performed no tested effect since |
| `DeliveryFencing.AtMostOneLateEffectPerGoroutine` | terminal_bridge/delivery_runner.go:1600-1606 | after the loss each upload worker, run, resume or cancel goroutine performs at most one more tested effect |
| `DeliveryFencing.LateEffectsAreBounded` | terminal_bridge/delivery_runner.go:1281-1301 | in total a job that lost ownership performs no more tested effects than it had goroutines between test and effect at that moment |
| `DeliveryFencing.NoRunStartsAfterReplacement` | terminal_bridge/delivery_runner.go:378-403 | a replaced job never registers another advance, whether it was queued, asleep in backoff or being resumed |
| `DeliveryFencing.NoBackoffRequeuesAfterReplacement` | terminal_bridge/delivery_runner.go:508-525 | a backoff goroutine that wakes after the replacement leaves and does not touch the queue |
| `DeliveryFencing.JournalMayEndStale` | terminal_bridge/delivery_runner.go:205-212 | false as promised: a run in which a replaced job overwrites the journal of its replacement, because saveJob tests and then writes outside the lock |
| `DeliveryFencing.LostJobMayWriteJournalIff` | terminal_bridge/delivery_runner.go:205-220 | the exact extent: a job that lost ownership can still write the journal if and only if one of its goroutines has passed the test for it and not written yet |
| `DeliveryFencing.LostJobMayPerformLaterIff` | terminal_bridge/delivery_runner.go:190-203 | the same for every tested effect: a lost job can still send a part, ask for the merge, write the journal or delete the copy if and only if a goroutine of it has passed the test for just that |
| `DeliveryFencing.OneJobMayBeDrivenTwice` | terminal_bridge/delivery_runner.go:340-357 | a run in which resume starts a second advance of a job that is still running |
| `DeliveryFencing.StaleRunMayDropNewCancel` | terminal_bridge/delivery_runner.go:413-419 | a run in which the deferred cleanup of a replaced run removes the cancel function of the new one |
| `DeliverySharedCopy.LateTouchWasPossible` | terminal_bridge/log_collect_transfer.go:242-299 | the two effects no test precedes, the removal and the appends of pullArchive: a job that lost ownership makes one only if at every earlier moment since the loss it could come to make one, by the condition of `LostJobMayTouchLaterIff` |
| `DeliverySharedCopy.AppendsAreUnbounded` | terminal_bridge/log_collect_transfer.go:288-312 | a goroutine on the pull branch may append any number of blocks to the copy: no ownership test and no bound ends the read loop |
| `DeliverySharedCopy.LostJobMayTouchLaterIff` | terminal_bridge/delivery_runner.go:577-635 | a job that is no longer the owner can still remove or extend the copy of its replacement if and only if one of its goroutines is on the pull branch and not past pullArchive, or is before the switch at a phase that leads there, or has not normalized the phase of a job that is retrying, or that another goroutine may set back to retrying, and that has no parts and no whole pull then; for a job marked as replaced only a goroutine does so whose watchdog has seen a stall or may still see one |
| `DeliverySharedCopy.MarkedJobsNeedAStall` | terminal_bridge/delivery_runner.go:455-466 | once a job marked as replaced is failed, no stall of it has been seen and nobody can bring it back to uploading, only a goroutine on the pull branch and not past pullArchive counts |
| `DeliveryLostJobs.CannotTouchStays` | terminal_bridge/delivery_runner.go:577-635 | no step gives this ability to a lost job that does not have it: not another run, a resume, a worker, a watchdog, the relaxation of TLS or the end of any round |
| `DeliverySharedCopy.SingleRunMayTouchLaterIff` | terminal_bridge/delivery_runner.go:590-610 | for a lost job that is driven once only the first of these counts: a goroutine on the pull branch and not past pullArchive |
| `DeliverySharedCopy.SecondDriverRevivesThePull` | terminal_bridge/delivery_runner.go:455-461 | why the others count for a job driven twice: one goroutine has stalled in its pull and left it, a resume has registered another, a submit replaces the job while neither is on the pull branch, and one still gets there |
| `DeliverySharedCopy.ReplacedPullExtendsTheCopy` | terminal_bridge/delivery_runner.go:1082-1084 | a run in which the copy of the owner, named by the task id, ends with a block of the job it replaced |
| `DeliverySharedCopy.ReplacedPullRemovesTheCopy` | terminal_bridge/log_collect_transfer.go:242-244 | a run in which the replaced job removes the copy the owner is writing |
| `DeliveryDrivers.AtMostOneDriverIff` | terminal_bridge/delivery_runner.go:340-357 | a job has at most one place in the queue, run that has not come to its cleanup, backoff sleeper or pending enqueue throughout a run if and only if every resume of it was taken while it had none |
| `DeliveryDrivers.OneGoroutineDrives` | terminal_bridge/delivery_runner.go:378-406 | then at most one goroutine drives the job at any moment, and it is not in the queue meanwhile |
| `DeliveryDrivers.TokensAfter` | terminal_bridge/delivery_runner.go:223-243 | a resume adds exactly one driver of its job, no other step adds any, the start of a backoff goroutine included, and a new job starts with at most one |
| `DeliveryCancels.LeaveDropsAnotherIff` | terminal_bridge/delivery_runner.go:413-419 | the deferred cleanup removes another run's cancel function if and only if the one registered for the task is not its own |
| `DeliveryCancels.CancelEntryIff` | terminal_bridge/delivery_runner.go:396-419 | while a running job stays the owner its task has no cancel function if and only if a run of the task left and none registered since, and has the run's own if and only if none registered or left since this one did |
| `DeliveryCancels.SubmitTellsTheRunIff` | terminal_bridge/delivery_runner.go:254-281 | a submit that replaces a running job takes the run's own cancel function if and only if the job was not over and no run of the task registered or left since this one did, and none at all if and only if the job was over, or a run left and none registered since |
| `DeliveryCancels.SubmitMissesTheRunIff` | terminal_bridge/delivery_runner.go:254-281 | for a job driven once the submit tells the run or nobody, and nobody if and only if the job was over already, or a run of the task that had registered earlier, an earlier round of the same job included, cleaned up while this one was running |
| `DeliveryCancels.CancelledRunIsNotTold` | terminal_bridge/delivery_runner.go:360-375 | one of the two ways to miss it: a run in which a cancel comes before the registration, marks the job as failed during the pull, and the next submit therefore does not look for the cancel function that is there |
| `DeliveryCancels.OwnRoundMayDropTheCancel` | terminal_bridge/delivery_runner.go:413-419 | the other way, with one job and no resume: the cleanup of the first round deletes the cancel function of its own retry, which the backoff goroutine started before |
| `DeliveryFencing.DeliveryRunner.CheckOwner` | terminal_bridge/delivery_runner.go:175-188 | ownerIntact decides the ownership predicate the run theorems are about |
| `DeliveryFencing.DeliveryRunner.Submit` | terminal_bridge/delivery_runner.go:246-272 | the lock-held region of submit, field by field: the new structure waits, the same session is reused, otherwise the old job is failed and marked, its id goes to the new one and its cancel function is taken out; everything else stays |
| `DeliveryFencing.DeliveryRunner.Register` | terminal_bridge/delivery_runner.go:396-406 | runJob registers exactly when its job is the owner, and otherwise changes nothing |
| `DeliveryFencing.DeliveryRunner.SaveJobLocked` | terminal_bridge/delivery_runner.go:215-220 | the locked save writes the journal exactly when the job is the owner |
| `DeliveryFencing.DeliveryRunner.ResumeJob` | terminal_bridge/delivery_runner.go:340-353 | resume finds the job of the id, puts it to retrying and clears its wait for credentials, and changes no other field and no other job; an unknown id is reported |
| `DeliveryRetries.ResumeClears` | terminal_bridge/delivery_runner.go:340-357 | a resumed owner that is not marked as replaced is eligible for a requeue at once, whatever it waited for before |
| `DeliveryRetries.ResumedJobIsRetriedAgain` | terminal_bridge/delivery_runner.go:507-524 | over runs: after a resume, until a round of the job ends with an error of credentials, each round that leaves it retrying may start a backoff goroutine |
| `DeliveryRetries.SleeperWakesIff` | terminal_bridge/delivery_runner.go:151-156 | a backoff goroutine that wakes goes to the queue if and only if its job is retrying, waits for no credentials and is still the one of its id |
| `DeliveryRetries.RetryMayBeQueued` | terminal_bridge/delivery_runner.go:508-518 | from the end of a round that is retried there is a continuation in which the job is in the queue again |
| `DeliveryRetries.QueueIsFifo` | terminal_bridge/delivery_runner.go:223-243 | the queue is first in, first out, holds sixteen jobs and drops what it cannot hold; a job found at start is queued unless it waits for credentials; nothing else touches the queue |
| `DeliveryRetries.NormalizesIff` | terminal_bridge/delivery_job.go:71-105 | the runner normalizes and refuses phases exactly as normalizeDeliveryPhase does for some job of which it knows as much |
| `DeliveryRetries.ClassifiesIff` | terminal_bridge/delivery_runner.go:436-487 | the runner ends a failed round exactly as the classification of runJob does for some facts, error and progress, the backoff goroutine included |
| `DeliveryRetries.SwitchesAgree` | terminal_bridge/delivery_runner.go:577-635 | the switch of advance leads to the same stage in the runner and in the life of a delivery |
| `DeliveryRetries.RelaxedAtMostOnce` | terminal_bridge/delivery_runner.go:1455-1472 | over runs certificates are given up at most once for a job, however many goroutines run it |
| `DeliveryAtBest.DeliveryMayBeDone` | terminal_bridge/delivery_runner.go:577-660 | the main path exists: a run from the submission over the pull, a part sent by a worker and the complete request to done |
| `DiskAdmission.DiskNeed` | terminal_bridge/delivery_disk.go:63-80 | what is needed exceeds what remains by at least 64 MiB and by at least a twentieth, rounding included; nothing remains, nothing is needed |
| `DiskAdmission.AdmissionMeans` | terminal_bridge/delivery_disk.go:82-132 | an admitted pull fits beside everything the others owe; a refusal blames the others exactly when the pull alone would have fitted; a failed probe lets it through |
| `DiskAdmission.AdmittedIff` | terminal_bridge/delivery_disk.go:82-132 | a pull that lacks something is accepted on a probed volume if and only if the free space covers what it lacks, what the others are counted for and the slack, which is 64 MiB or a twentieth, whichever is more |
| `DiskAdmission.PullIsLetInIff` | terminal_bridge/delivery_runner.go:1108-1141 | publishing, looking, reserving and probing together: with honest records a job starts to write if and only if the free space covers what it lacks, the slack, and what the other listed jobs lack, none counted twice |
| `DiskAdmission.BytesAreConserved` | terminal_bridge/delivery_runner.go:1143-1176 | free bytes and copies add up to the same over every step, but for what others free, files that were there and a failed removal |
| `DiskAdmission.PendingLocalBytes` | terminal_bridge/delivery_runner.go:1053-1076 | the loop adds up the unlanded bytes of every other listed job of the directory that has published its size |
| `DiskAdmission.StepKeepsInv` | terminal_bridge/delivery_runner.go:1082-1141 | each unlocked step of any number of pulls, of pulls that are no longer listed too, keeps the admission invariant |
| `DiskAdmission.NoDiskOvercommit` | terminal_bridge/delivery_disk.go:113-132 | however pulls interleave, what all admitted pulls still write never exceeds the free space, so no admitted pull runs out of space, as long as no more than 64 MiB of what others write have escaped each admission, no probe meets exactly zero free bytes and files that are too long can be removed |
| `DiskAdmission.SafeWithinIff` | terminal_bridge/delivery_disk.go:63-80 | the slack is exactly what may escape: every run in which at most h bytes have escaped each admission is safe if and only if h is at most 64 MiB |
| `DiskAdmission.NothingUncounted` | terminal_bridge/delivery_runner.go:1053-1076 | nothing escapes while every job that still writes is listed and reports no more than it has on disk |
| `DiskAdmission.ProbeIsSafeIff` | terminal_bridge/delivery_disk.go:90-110 | from any state of the invariant a probe keeps what is admitted within the free space if and only if the volume is not at exactly zero free bytes |
| `DiskAdmission.ZeroFreeIsAdmitted` | terminal_bridge/delivery_disk.go:90-110 | false without a condition: exactly zero free bytes read as a failed probe and are admitted |
| `DiskAdmission.StaleProgressOvercommits` | terminal_bridge/delivery_runner.go:1064-1073 | one byte over that bound: a job that claims bytes no longer on disk is not counted by the next admission |
| `DiskAdmission.OversizedCopyOvercommits` | terminal_bridge/delivery_runner.go:1113-1118 | one byte over that bound: a file longer than the source skips the check, and the space its removal frees is granted to a pull that had read its reservation before |
| `DiskAdmission.FailedRemovalOvercommits` | terminal_bridge/log_collect_transfer.go:242-244 | false without a condition: a file that is too long and cannot be removed is appended to without any admission |
| `DiskAdmission.UnlistedWriterOvercommits` | terminal_bridge/delivery_runner.go:1053-1076 | one byte over that bound: a pull that was cancelled or replaced is no longer counted and still writes |
| `DeliveryJobs.WithPartAddsOne` | terminal_bridge/delivery_job.go:237-245 | registering a part is idempotent, adds exactly that number once, and leaves a list that grew sorted |
| `DeliveryJobs.DeliveryJob.AddUploadedPart` | terminal_bridge/delivery_job.go:237-245 | the scan and the sorted insert change the part list and nothing else |
| `DeliveryJobs.DeliveryJob.FinishRound` | terminal_bridge/delivery_runner.go:433-492 | the lock-held end of a round: attempts renewed by progress, a stall before everything else, then superseded, cancelled, unauthorized, fatal, budget |
| `DeliveryJobs.FailureClasses` | terminal_bridge/delivery_runner.go:420-487 | what each class of error does without a stall: any progress renews a retry; without, a full or busy disk ends the job at once, an ordinary error at the fifth round in a row, a transient one at the eighth |
| `DeliveryJobs.BarrenRoundsEnd` | terminal_bridge/delivery_runner.go:420-487 | over rounds: from a fresh start such a run of failures ends with the first, the fifth or the eighth round and not before |
| `DeliveryJobs.WhatAPullReports` | terminal_bridge/delivery_runner.go:1143-1215 | what a pull reports, by what happened to it, and that only a moved source and a failed verdict discard the copy, with its parts |
| `DeliveryJobs.WhereAJobGoesOn` | terminal_bridge/delivery_job.go:71-105 | a retrying job goes to uploading with a part or the whole pull, to pulling with some bytes, to waiting with none; working phases stay |
| `DeliveryJobs.ProgressIsTheShare` | terminal_bridge/delivery_job.go:207-233 | the number shown is half the share of the bytes, or fifty and half the share of the parts, rounded down |
| `DeliveryJobs.ProgressInRange` | terminal_bridge/delivery_job.go:207-233 | reported progress lies in 0..100, below 50 while pulling and above it while uploading |
| `DeliveryJobs.ProgressIsMonotone` | terminal_bridge/delivery_job.go:207-233 | along any delivery until it fails, over failed rounds that are retried and their normalization, reported progress never falls |
| `DeliveryJobs.RetryKeepsProgressIff` | terminal_bridge/delivery_job.go:207-233 | a round that ends retrying keeps the number shown if and only if it was collecting or pulling, has a part registered, or has the whole pull |
| `DeliveryJobs.NormalizingKeepsProgress` | terminal_bridge/delivery_job.go:78-101 | resuming a retrying job at its normalized phase shows the number it showed before |
| `DeliveryJobs.NormalizingIsConservative` | terminal_bridge/delivery_job.go:78-107 | a job that is over is refused, normalizing never jumps to completing, and normalizing twice is normalizing once |
| `DeliveryJobs.UploadingHasTheArchiveIff` | terminal_bridge/delivery_job.go:78-101 | a retrying job that normalizes to uploading has its whole archive if and only if no part is registered or the pull is complete |
| `DeliveryJobs.RegisteredPartsAbandonThePull` | terminal_bridge/delivery_handlers.go:111-116 | false without that condition: a submission that carries parts and loses its link while pulling is retried at uploading, where the size guard fails it for good |
| `DeliveryJobs.RetryingIsRequeuedAndFailedIsNot` | terminal_bridge/delivery_runner.go:433-525 | a failed round leaves the job retrying if and only if a backoff goroutine is started that will requeue it |
| `DeliveryJobs.PulledIsKeptIff` | terminal_bridge/delivery_runner.go:1143-1225 | a pull that may be retried keeps the parts, and keeps the pulled bytes if and only if there were none, or directory and prefix could be read and the transfer got as far as the record |
| `DeliveryJobs.RoundKeepsProgressIff` | terminal_bridge/log_collect_transfer.go:233-251 | a round that does not end fatally keeps what was pulled if and only if it could be read again |
| `DeliveryJobs.FailingRoundMakesProgressOrEnds` | terminal_bridge/delivery_runner.go:433-492 | a failing round that read its prefix again and did not stall ends the job or makes (missing parts, unpulled bytes, attempts left) lexicographically smaller |
| `DeliveryJobs.RetriesAreBounded` | terminal_bridge/delivery_runner.go:421-492 | between two resumes, without stalls and as long as what was pulled can be read again, a job fails at most 8 times the missing parts and unpulled bytes, plus the attempts left |
| `DeliveryJobs.UnreadablePrefixMayRepeatForEver` | terminal_bridge/log_collect_transfer.go:247-251 | why it must be readable: a prefix that cannot be read again resets the pulled bytes to zero, the next round gets them back, and for every n there is a run of 2n such rounds that ends where it began |
| `DeliveryJobs.StallsMayRepeatForEver` | terminal_bridge/delivery_runner.go:456-461 | why the bound needs the absence of stalls: a stalled round without progress leaves the job exactly where it was |
| `UploadRounds.StepKeepsInv` | terminal_bridge/delivery_runner.go:1368-1432 | every step of dispatcher and workers keeps: each number handed out is uploaded or in one worker's hands unless the round is cancelled, and errors cancel |
| `UploadRounds.RoundIsCompleteOrStopped` | terminal_bridge/delivery_runner.go:1368-1449 | when all workers have ended and the context is live every part is uploaded; without an error but with a part missing the outer context is already done |
| `UploadRounds.UploadedIsWhatFinished` | terminal_bridge/delivery_runner.go:1399-1412 | over every run of a round, stopped or not: what is uploaded are the parts at the start and exactly those whose PUT has finished |
| `UploadRounds.NothingStartsOnceStopped` | terminal_bridge/delivery_runner.go:1370-1376 | once a round is stopped no worker starts another part, and the dispatcher hands out at most the one it is offering |
| `UploadRounds.ReasonsAreRecorded` | terminal_bridge/delivery_runner.go:1383-1398 | a round has failed exactly if some PUT failed in it, and is cancelled exactly by that |
| `UploadRounds.PartsAreSentOnce` | terminal_bridge/delivery_runner.go:1368-1432 | two workers never send the same part and a part that is uploaded is not sent again in the round |
| `UploadRounds.NeverStuck` | terminal_bridge/delivery_runner.go:1414-1432 | with at least one worker some goroutine of the round can always go on |
| `UploadRounds.RoundsAreBounded` | terminal_bridge/delivery_runner.go:1414-1432 | however the scheduler interleaves, a round takes at most ten steps a part and a few more |
| `DeliveryCompletion.StepKeepsInv` | terminal_bridge/delivery_runner.go:577-660 | every event in the life of a delivery, a step inside the upload round and a crash included, keeps phase, part list, job file and requests consistent |
| `DeliveryCompletion.LifeIsHonest` | terminal_bridge/delivery_runner.go:1441-1449 | over every life of a delivery driven by one run at a time no complete request leaves with a part missing; completing means all parts are there, in memory and on disk; done means completed with exactly the parts listed, unless a run skipped the request |
| `DeliveryCompletion.PartsAreWhatFinished` | terminal_bridge/delivery_runner.go:1399-1412 | over runs, retries, failures, cancels and resumes the job lists exactly the parts it had and those whose PUT has finished since; only a discard or a crash takes one away |
| `DeliveryCompletion.UndisturbedDeliveryIsDone` | terminal_bridge/delivery_runner.go:577-660 | for every schedule of a round without an error or a cancel: the delivery asks once, with every part, and is done |
| `DeliveryCompletion.CrashReturnsToTheSave` | terminal_bridge/delivery_runner.go:88-142 | a crash goes back to the job as it was saved last, whatever has happened since |
| `DeliveryCompletion.SwitchSkipsIff` | terminal_bridge/delivery_runner.go:590-635 | a run gets behind all stages without asking if and only if its job was cancelled between the normalization of the phase and the switch on it |
| `DeliveryCompletion.CancelAtTheSwitchEndsDone` | terminal_bridge/delivery_runner.go:636-660 | and a job that is cancelled there always ends as done, with whatever parts it has and no request |
| `DeliveryCompletion.SkippingNeedsACancel` | terminal_bridge/delivery_runner.go:590-660 | without a cancel there nothing is ever skipped |
| `DrivenDeliveries.CompleteIsNeverAskedWithAPartMissing` | terminal_bridge/delivery_runner.go:340-357 | over every life of a delivery with any number of goroutines, the same holds as long as every resume is taken while nobody drives the job, the exact condition for one driver at a time |
| `DrivenDeliveries.TwoRunsMayAskWithAPartMissing` | terminal_bridge/delivery_runner.go:1281-1301 | why it takes one run at a time: resumed while pulling, one run discards the copy and the part list while the other asks for the merge, with a part missing |
| `DeliveryCompletion.FenceRefusesAnIncompleteUpload` | terminal_bridge/delivery_runner.go:1600-1606 | when upload returned without error and a part is missing, the fence of complete refuses |
| `PartChunking.PartsTileTheFile` | terminal_bridge/delivery_runner.go:1519-1535 | parts 1 to PartCount are the consecutive non-empty pieces of the file, none longer than a chunk; every further part is refused |
| `PartChunking.ChunkingRoundTrip` | terminal_bridge/log_collect_transfer.go:512-515 | cutting and merging gives the file back if and only if the part count is the ceiling of size over chunk |
| `PartChunking.MergeIsSourceIff` | terminal_bridge/delivery_runner.go:1334-1339 | for all puts of rounds that passed the size guard, of whatever files: the merge is the source if and only if what is held last under each number is the source's own cut |
| `PartChunking.ShiftedCutsMayMerge` | terminal_bridge/delivery_runner.go:1718-1728 | why the guard must have passed: without it wrong cuts may even merge to the source |
| `PartChunking.PrefixRoundsMergeIff` | terminal_bridge/delivery_runner.go:1718-1728 | when the local files of the rounds are prefixes of the source, any mix of parts from earlier and later rounds merges to it if and only if none is missing |
| `PartChunking.SameSizeRebuildMixes` | terminal_bridge/delivery_runner.go:1718-1728 | false without a condition: a package rebuilt with the same size passes the guard and merges into a hybrid |
| `PartChunking.UnguardedRoundsMayMix` | terminal_bridge/delivery_runner.go:1718-1728 | without a known submitted size packages of different sizes mix as well; a known size refuses one of the two rounds |
| `PartChunking.ArchivePartIsTheCutIff` | terminal_bridge/log_collect_transfer.go:417-428 | a stated size cuts the file exactly; without one a part is the right piece if and only if the file has a full chunk there, since the rest is sent as zeros |
| `PartChunking.UploadArchiveParts` | terminal_bridge/log_collect_transfer.go:387-456 | the loop sends the missing parts in order and stops at the first that fails |
| `PartChunking.SequentialUploadIsComplete` | terminal_bridge/log_collect_transfer.go:387-456 | parts already held are not disturbed, and success means every missing part is held as cut |
| `PartChunking.SequentialUploadMerges` | terminal_bridge/log_collect_transfer.go:387-456 | a successful sequential upload of a whole file merges to the file |
| `ArchivePull.AbsorbedInPieces` | terminal_bridge/log_collect_transfer.go:177-193 | hashing the kept prefix and then the new bytes is hashing the whole |
| `ArchivePull.ResolvePullStart` | terminal_bridge/log_collect_transfer.go:157-170 | the start offset never exceeds the local file |
| `ArchivePull.CommandContinuesTheFile` | terminal_bridge/log_collect_transfer.go:130-135 | the remote command prints exactly the bytes the local prefix lacks |
| `ArchivePull.ProgressStep` | terminal_bridge/log_collect_transfer.go:202-217 | the step is a hundredth of the total, but no less than 4 and no more than 64 MiB |
| `ArchivePull.CopyOutput` | terminal_bridge/log_collect_transfer.go:288-312 | for any script of reads: how many bytes land and are hashed, and how the loop ends, is decided by the reads up to the first that is not an ordinary one; progress is reported whenever a step more has come |
| `ArchivePull.PullArchive` | terminal_bridge/log_collect_transfer.go:226-325 | the file is what was kept and a prefix of what was asked for, of exactly the length the reads bring; the pull succeeds if and only if it is not blocked and the file is complete or the transfer ends with the known size, and every other end has its own error; a success has the digest of all of it |
| `ArchivePull.PullOnce` | terminal_bridge/log_collect_transfer.go:226-325 | against an unchanged source of known size: the attempt succeeds if and only if directory and prefix are all right and the file is complete or the transfer ends with all it lacks; it is fatal exactly if the output was too short; otherwise every byte that arrived is kept; and the exact condition for the file to be a prefix of the source |
| `ArchivePull.PullUntilDone` | terminal_bridge/log_collect_transfer.go:226-325 | any number of attempts lose nothing they have of the source, and the first one that brings all the file lacks ends them with the source and its digest |
| `ArchivePull.AcceptedIsTheSource` | terminal_bridge/delivery_runner.go:1251-1274 | what the verdict is worth, for each baseline: with SHA-256 a file of the right size is accepted if and only if it is the source or collides with it, with only MD5 the same for MD5, and without a baseline whatever it is |
| `ArchivePull.PullAndVerify` | terminal_bridge/delivery_runner.go:1143-1225 | a pull and its verdict: an accepted file is the source exactly when it was not too long or could be removed, with an MD5 baseline unless the MD5 collides; a pulled prefix is always accepted and is the source |
| `DeliveredArchive.Deliver` | terminal_bridge/delivery_runner.go:1334-1375 | over any number of rounds the merge on the platform is the source if and only if no part is missing, and none is once every part has been put by a round that pulled all |
| `DeliveredArchive.AcceptedRoundsMergeIff` | terminal_bridge/delivery_runner.go:1251-1274 | when the source may be rebuilt: rounds whose file a SHA-256 baseline accepted merge to the source if and only if no part is missing, unless a file collides |
| `UploadPacing.NextUploadPace` | terminal_bridge/delivery_pace.go:131-195 | the code with its halving loop computes the decision function |
| `UploadPacing.HalvesOnlyWhileNeeded` | terminal_bridge/delivery_pace.go:165-173 | halving stops at the first number of streams that fits: what was halved last did not fit |
| `UploadPacing.ResolveIsIdempotent` | terminal_bridge/delivery_pace.go:75-98 | resolve makes any stored pace legal, leaves legal ones alone and is idempotent |
| `UploadPacing.ZeroPaceIsOneStream` | terminal_bridge/delivery_pace.go:75-82 | a job without a stored pace starts on one stream with 300 seconds |
| `UploadPacing.DecisionIsSufficient` | terminal_bridge/delivery_pace.go:160-195 | after a timed-out round with throughput either a part is predicted to fit the new timeout, truncation included, or the pace is one stream at 1200 seconds |
| `UploadPacing.DecisionIsNotExcessive` | terminal_bridge/delivery_pace.go:160-195 | a decision takes no more than it needs: the timeout is 1.6 times the prediction, rounded down, up to the cap and never below what it was, and streams are given up only while a part does not fit |
| `UploadPacing.DecisionIsMonotone` | terminal_bridge/delivery_pace.go:131-195 | streams only go down, patience only goes up, and a round without timeouts changes nothing |
| `UploadPacing.PaceConverges` | terminal_bridge/delivery_pace.go:75-195 | over any run of rounds under one ceiling the pace stays legal and changes at most a fixed number of times |
| `UploadPacing.StuckRounds` | terminal_bridge/delivery_pace.go:149-159 | rounds without progress halve the streams and double the patience, exactly |
| `UploadPacing.StuckRoundsReachTheFloor` | terminal_bridge/delivery_concurrency.go:25 | under the limit of four streams two rounds without progress reach one stream at 1200 seconds, and logarithmically many do under any limit |
| `StallDetection.StallTracker.Observe` | terminal_bridge/delivery_stall.go:34-48 | the tracker fires exactly when some earlier observation has had the same signature ever since, all watched, for at least the timeout |
| `StallDetection.WatchStall` | terminal_bridge/delivery_runner.go:532-560 | the watchdog ends a round at the first observation that is a stall and not before |
| `StallDetection.MovingIsNotStalled` | terminal_bridge/delivery_runner.go:562-574 | a round in which phase, parts or bytes changed within the window is never ended |
| `StallDetection.UnmovingIsStalled` | terminal_bridge/delivery_runner.go:562-574 | and a pull or an upload that shows the same counters for the whole window is stalled |
| `LocalCopies.References` | terminal_bridge/delivery_local_store.go:139-159 | the loops over memory jobs and job files build the reference table |
| `LocalCopies.ProtectedIffLastClaimIsLive` | terminal_bridge/delivery_local_store.go:139-159 | a copy is protected if and only if the last record that names its path is not terminal, whatever the other records say |
| `LocalCopies.LiveCopyMayBeRemoved` | terminal_bridge/delivery_local_store.go:198-205 | false as promised: a pulling job's copy is removed when a later record of the same path is failed |
| `LocalCopies.CountsAddUp` | terminal_bridge/delivery_local_store.go:250-263 | every removal in the report has exactly one reason |
| `LocalCopies.LocalStore.Sweep` | terminal_bridge/delivery_local_store.go:265-280 | the first pass removes exactly what the switch selects and the system does not refuse; a dry run only reports it |
| `LocalCopies.LocalStore.EvictUntilUnderCap` | terminal_bridge/delivery_local_store.go:293-343 | eviction removes the evictable files of the shortest oldest-first prefix that brings the total under the cap |
| `LocalCopies.LocalStore.Reconcile` | terminal_bridge/delivery_local_store.go:206-287 | by the last record that names its path each candidate is taken or left: delivered at once, failed after the failure TTL, unnamed after an hour, any other never, each with its reason in the report; what goes beyond that goes because of the cap, down to the cap or until only live and refused files are left; every byte is accounted for, and a dry run removes nothing |
| `LocalCopies.DueIff` | terminal_bridge/delivery_local_store.go:258-278 | the switch selects a candidate for a reason if and only if its last record says so |
| `ShellWords.ScanFirstShellToken` | terminal_bridge/main.go:2370-2439 | the scanner with its loops computes the scanning function, errors included |
| `ShellWords.ScanUndoesQuote` | terminal_bridge/log_collect.go:184-186 | scanning a quoted argument before a word end gives the argument back for all three printers; only an empty argument at the very end is refused |
| `ShellWords.ScanQuoted` | terminal_bridge/main.go:2636-2653 | whatever follows, the scanner reads exactly the quoted text and goes on outside quotes |
| `ShellWords.QuoteIsInjective` | terminal_bridge/main.go:2636-2653 | two arguments are never printed alike |
| `ShellWords.WordsAreRead` | terminal_bridge/main.go:2370-2443 | every word of the shell grammar is read: characters, escapes, single quotes, and double quotes with their five escapes, behind blanks and up to a blank, an operator or the end |
| `ShellWords.NoWordIsRead` | terminal_bridge/main.go:2370-2443 | no word is read from blanks alone, from an operator in front or from a quote left open |
| `ShellWords.ExtractReachesTheCommand` | terminal_bridge/main.go:2351-2365 | unwrapping returns a command unchanged exactly when no word follows a marker in it, shrinks it otherwise, and is idempotent |
| `ShellWords.ExtractUndoesWrap` | terminal_bridge/main.go:2351-2365 | through any depth of dispatchers without a marker in their prefixes the innermost command comes back |
| `ShellWords.ExtractOfAnEmptyCommand` | terminal_bridge/main.go:2351-2365 | the one exception: an empty command with nothing behind it is not unwrapped |
| `CrlfStreams.NormalSplits` | terminal_bridge/main.go:1450-1453 | replacing CRLF piecewise is replacing it in the whole unless the cut separates CR from LF |
| `CrlfStreams.PairsAreReplaced` | terminal_bridge/main.go:1450-1453 | each pair of CR and LF becomes one LF, and what stands between stays |
| `CrlfStreams.ChunkingDoesNotMatter` | terminal_bridge/main.go:1484-1521 | for every split into non-empty chunks the output and the final flush are one replace-all over the whole input |
| `CrlfStreams.EmptyChunkLosesACr` | terminal_bridge/main.go:1486-1496 | an empty chunk would drop a pending CR, which the guard in Read excludes |
| `CrlfStreams.CrlfReader.Absorb` | terminal_bridge/main.go:1484-1513 | absorb emits the settled part of pending CR and chunk, and keeps a trailing CR back |
| `CrlfStreams.CrlfReader.Read` | terminal_bridge/main.go:1461-1482 | a read hands out the next bytes of the normalized stream, and the end exactly when none are left |
| `CrlfStreams.ReadAll` | terminal_bridge/main.go:1461-1521 | whatever the chunks and read sizes, all that is read is the replace-all of the input |
| `CrlfStreams.NormalIsIdempotentIff` | terminal_bridge/main.go:1523-1526 | normalizing twice changes nothing if and only if no CR stands before a CRLF |
| `LogReplay.LogHub.Publish` | terminal_bridge/main.go:4213-4240 | publish drops entries below the level, stamps, rotates the ring and hands the entry to each eligible subscriber |
| `LogReplay.LogHub.AddSubscriber` | terminal_bridge/main.go:4329-4337 | a new subscriber starts unbound with the watermark after the last number: what is in the ring is history for it, what comes is live and never history, and nobody else changes |
| `LogReplay.LogHub.SetCase` | terminal_bridge/main.go:4362-4385 | binding resets the cursor on a change of case and hands out the replay |
| `LogReplay.LogHub.ReplayForCase` | terminal_bridge/main.go:4391-4417 | the loop selects the unseen older entries of the case and the recent ones of no case, and moves the cursor past all it looked at |
| `LogReplay.HandedIsLiveReplayLive` | terminal_bridge/main.go:4362-4417 | a subscriber bound to one case is handed everything live until the bind, then the replay, then its case live; further binds to the case add nothing |
| `LogReplay.EveryEntryIsHandedOnce` | terminal_bridge/main.go:4213-4255 | with rising numbers every entry is handed over at most once: those of the case live, or from the ring at the bind if they are older; older ones of no case exactly if they are no more than five minutes old or have no time; those of other cases only live before the bind |
| `LogReplay.SentInOrder` | terminal_bridge/main.go:4292-4327 | as long as its queue has room a connection is sent everything it is handed, once and in order, but for what is still in the queue |
| `LogReplay.RingHoldsTheLatest` | terminal_bridge/main.go:4229-4233 | the ring is the last cap entries of everything published, so being still in the ring is being among those |
| `LogReplay.SwitchingBackReplaysAgain` | terminal_bridge/main.go:4364-4367 | why one case: leaving a case and coming back replays its history again |
| `LogReplay.OverflowDropsInPairs` | terminal_bridge/main.go:4272-4290 | a full queue loses the oldest and the new entry: from 2000 on every second entry takes another one with it |
| `SemanticTree.RenderingKeepsOrder` | data-pipeline/kbd/converter.py:490-699 | for every tree the emitted list, code and image events are the document's in order with none invented, and all of them if and only if the tree is well nested |
| `SemanticTree.UnstructuredIsQuiet` | data-pipeline/kbd/converter.py:591-599 | a block without blocks, structures and images inside has no events to lose, so its text path is safe |
| `SemanticContent.FlowMarks` | data-pipeline/kbd/converter.py:546-604 | the markers in the rendered content are the images among the emitted events, in the same order |
| `SemanticContent.TextIsKeptIff` | data-pipeline/kbd/converter.py:490-604 | in a document with flat tables and no images in code blocks what is written of its text and images is in document order, and none of it is lost if and only if the document is well texted |
| `SemanticContent.CommentsAreWrittenIff` | data-pipeline/kbd/converter.py:568-573 | for every tree: a character of a comment is written if and only if one that is not blank stands where the renderers take it for text |
| `SemanticContent.ContentIsKeptIff` | data-pipeline/kbd/converter.py:490-604 | in such a document nothing is invented if and only if no comment is taken for text, and exactly its content is written if and only if it is also well texted |
| `SemanticContent.CommentBecomesText` | data-pipeline/kbd/converter.py:490-497 | false without a condition: a comment behind a word is written as a word of its own |
| `SemanticContent.UnixBreaksKeepsVisible` | data-pipeline/kbd/converter.py:433-434 | normalizing line breaks of a payload loses no visible character |
| `SemanticText.TightBreaksKeepsContent` | data-pipeline/kbd/converter.py:515-516 | tightening line breaks loses and moves no visible character and no marker |
| `SemanticText.SqueezedKeepsContent` | data-pipeline/kbd/converter.py:494-496 | collapsing white space loses and moves no visible character and no marker |
| `SemanticText.SplitLinesKeepsContent` | data-pipeline/kbd/converter.py:559-567 | cutting text into lines loses and moves no visible character and no marker |
| `SemanticText.FewBreaksKeepsContent` | data-pipeline/kbd/converter.py:700-701 | collapsing blank lines loses and moves no visible character and no marker |
| `SemanticSpaces.SqueezedIsSingle` | data-pipeline/kbd/converter.py:494-496 | collapsing leaves single blanks and the same words |
| `SemanticSpaces.TightBreaksIsTight` | data-pipeline/kbd/converter.py:515-516 | no blank is left beside a line break |
| `SemanticSpaces.FewBreaksAreFew` | data-pipeline/kbd/converter.py:700-701 | no more than two line breaks in a row are left, and text without three of them stays as it is |
| `SemanticSpaces.SplitAllIsUndone` | data-pipeline/kbd/converter.py:518-530 | cutting into lines and joining give the text back, and no line holds a break |
| `SemanticSpaces.UnixBreaksReplaces` | data-pipeline/kbd/converter.py:433-434 | each CR with its LF, and each CR alone, becomes one line feed |
| `SemanticLines.CodeLinesShowThePayload` | data-pipeline/kbd/converter.py:518-530 | a fenced block shows exactly the visible characters of its payload and keeps earlier lines |
| `SemanticLines.CellTextsShowTheCells` | data-pipeline/kbd/converter.py:537-543 | the cells of a table row show exactly their text, scripts, style sheets and comments left out |
| `SemanticLines.FenceIsLongerThanAnyRun` | data-pipeline/kbd/converter.py:518-521 | nothing in a payload can close its code block |
| `SemanticLines.FenceIsNotLonger` | data-pipeline/kbd/converter.py:518-521 | and the fence is no longer than that takes |
| `SemanticLines.CodeIsVerbatimIff` | data-pipeline/kbd/converter.py:486-488 | at the left margin a code block shows its payload line for line if and only if no line ends in a blank and no empty line follows another |
| `SemanticLines.CleanReportMayLoseALine` | data-pipeline/kbd/converter.py:700-719 | the integrity report can be clean although a line of a code block is lost |
| `SemanticRender.Renderer.InlineText` | data-pipeline/kbd/converter.py:490-516 | inline text records the images it passes, shows text and markers in document order, keeps the words apart and whole, and leaves no blank beside a line break |
| `SemanticRender.Renderer.RenderCode` | data-pipeline/kbd/converter.py:518-533 | a code block records its payload and shows it, then every image inside it |
| `SemanticRender.Renderer.RenderTable` | data-pipeline/kbd/converter.py:535-544 | a table emits no event and shows the text of its cells row by row |
| `SemanticRender.Renderer.RenderContainer` | data-pipeline/kbd/converter.py:556-604 | a container emits the events of its flow and writes exactly its visible content, in order, after what was there |
| `SemanticRender.Renderer.RenderListItem` | data-pipeline/kbd/converter.py:606-675 | a list item does the same, whichever child writes the first line; an item of text alone starts with its marker |
| `SemanticRender.Renderer.RenderList` | data-pipeline/kbd/converter.py:677-698 | a list records its count when ordered, renders its li children and nothing else, and gives them the markers of their numbers |
| `SemanticRender.ItemsAreNumbered` | data-pipeline/kbd/converter.py:685-697 | items are numbered from the start of the list, or 1, each one more than the item in front of it, but for an item that names its number |
| `SemanticRender.DigitsReadBack` | data-pipeline/kbd/converter.py:693 | a printed number reads back as itself, without a leading zero |
| `SemanticRender.Render` | data-pipeline/kbd/converter.py:453-719 | the four integrity checks all pass if and only if the tree is well nested; the text shows exactly the rendered content, its markers in the order of the emitted images, with at most one empty line in a row |
| `SemanticRender.HtmlToText` | data-pipeline/kbd/converter.py:722-728 | text is returned exactly for well-nested trees, with the mapped images in document order; it shows a comment exactly when one is taken for text; in a plain document it shows all the text if and only if the document is well texted |

## Left out

- SSH, WebSocket, HTTP, TLS and SFTP clients, including the one-time TLS relaxation beyond its effect on phase and error class: plumbing around libraries.
- Session lifecycle, reaper and detach logic: its interesting claims fail under fine interleavings and only weak facts would remain.
- Text heuristics, error message wording, metrics, tracing, environment parsing of the policies: settled by reading.
- Backoff durations and wall-clock sleeps: only their order matters to the protocol.
- Retries inside one part upload: a finished PUT stands for one to three requests with the same bytes.
- The journal copy written under the name of a superseded job, except as a record in `LocalCopies`.
- Reading the journal back at start: a job that is recovered is an arbitrary non-terminal job under an id that has no job yet.
- Restart replay of an old log file into the ring: `EveryEntryIsHandedOnce` assumes that ring numbers rise, which that replay can break.
- A subscriber whose connection was removed and that is bound afterwards: subscribers are values in the table of connections, so a removed one is gone.
- `KeepDelivered` and the deletion after a completed delivery, except as an ownership-tested effect in `DeliveryFencing`.
- DiskAdmission.NoDiskOvercommit: the jobs of one directory on one volume, nobody else writing it; a resumed job beside its own earlier run is a second listed entry that is counted, while the program keeps one record of the two and leaves it out by its id; the bound on what escapes is exact (`SafeWithinIff`), and the other two circumstances, no failing removal and no volume at exactly zero free bytes, each have a lemma with a run that fails without it.
- ArchivePull.PullArchive: an existing local file that cannot be inspected reads as an absent one in the code; here the size is always known.
- DeliverySharedCopy.LostJobMayTouchLaterIff: a copy is the list of jobs that wrote its blocks. The cancel notice is sent outside the lock, so it may come after everything said here; it is not a step of its own, only an error any stage may end with. When a watchdog sees its stall is open as long as the phase is a watched one (`StallDetection` has the window), and an upload need not wait for its other workers when one has failed. The number of attempts is not part of this state: a failed round of a job that is not marked as replaced may be retried if its error may (`DeliveryJobs` has the budget); a stalled round, the one that counts for a marked job, needs no attempt.
- PartChunking.MergeIsSourceIff: for puts of rounds that passed the guard; without the guard the equivalence is false (`ShiftedCutsMayMerge`).
- UploadPacing.DecisionIsSufficient: rates are real numbers, so float rounding is not modelled; the clamps of the code bound the result.
- LocalCopies.LocalStore.Reconcile: path keys are lower-cased, not cleaned of dot segments, and directory entries whose information cannot be read are not modelled.
- SemanticRender.Renderer.RenderContainer: states events, visible content and that earlier lines stay; the characters the renderer adds (indentation, list markers, fences, separators) are in the bodies and in `Appended`, `CodeLines` and `RowLine`, not in this contract.
- SemanticContent.ContentIsKeptIff: like `TextIsKeptIff` only for the documents named there.
- SemanticContent.TextIsKeptIff: documents without rows inside rows, cells inside cells and images in code blocks, because a table repeats the text of nested rows and cells and images move behind the text of their code block.
- Strings of ruby annotations and templates, which code blocks and tables leave out as they do comments: here they are text.
- SemanticText.TightBreaksKeepsContent: white space is the ASCII white space, not the Unicode one.
- ShellWords.ScanFirstShellToken: strings are code points, so the replacement of invalid UTF-8 is not modelled.
- DeliveryJobs.RetriesAreBounded: between resumes, without stalls, with a stable source size, a local copy that is not cleaned up and can be read again, as the retry budget itself assumes; the stall and the unreadable copy each have a lemma with an endless run.
