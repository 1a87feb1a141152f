# Verified model of the call service

This project models the parts of the repository whose correctness rests on interleavings, failures or
arithmetic, and proves properties of them in Dafny. `dafny verify dfyconfig.toml` checks everything.

| file | what it models |
|---|---|
| `CallLeg.dfy`, `DurableJobs.dfy` | one outbound provider leg under every interleaving of `start`, any number of `stop` calls, provider callbacks, reconciliation runs, data deletion and process deaths, over the compare-and-set operations of the job queue |
| `CallProcess.dfy` | `start` and `stop` as the source writes them, a class with one `Await` per await, in which any awaited operation may throw and the rest of the system takes any steps |
| `Answering.dfy` | the answering transition under the call lock, and any number of workers dispatching the terminal action |
| `RecordingDeletion.dfy` | user deletion, retention and call-data deletion of one recording against the provider |
| `Preparation.dfy`, `PreparationRuns.dfy` | one brief-compilation job with its retries, deferrals and fixed deadline; its attempts when they overlap, under the lease fence |
| `ProviderUsage.dfy`, `UsageReport.dfy`, `OperationalCost.dfy`, `Folds.dfy` | the cost overview: routing, the accumulating loop, the report and its laws |
| `Slogan.dfy`, `Crop.dfy` | line breaking of the social image; the crop of an upload from the browser's fractions to the server's pixels |
| `AccountExport.dfy` | the keyset-paged export over a store that changes underneath it |
| `OutboundControl.dfy` | the outbound switch and its latest-request-wins protocol |
| `LiveEvents.dfy`, `LiveEventRuns.dfy` | the subscriber registry of one instance, and event fan-out over several |
| `SessionCookie.dfy` | the session cookie headers, the browser in between, and the parser |
| `MarkdownBlocks.dfy` | the block parser of the design documents |
| `ReviewConsolidation.dfy` | consolidating review records |
| `Traces.dfy`, `Text.dfy`, `Options.dfy` | runs of a step function; splitting, joining, trimming and decimal notation; optional values |

Every stretch of source between two awaits is one atomic step. A protocol is a state machine given by a
total step function in which a step that is not enabled changes nothing; a theorem about all runs
quantifies over all lists of steps. Where the source is a class or a loop, the model has that class or
loop, proved against the functions that the theorems speak about.

Each protocol has two kinds of results: what holds in every run, whatever fails and interferes, and what one
operation does when nothing disturbs it, from every state in which it can begin. The first say that nothing
goes wrong, the second that the ordinary answer is given.

## Where the code and its description differ

- The cover of a provider leg is not complete: a leg can be let go of in three ways, each shown by a
  reachable run (`ProcessDeathLetsGo`, `DataDeletionLetsGo`, `FiveFailedRunsLetGo`), and by no other
  (`CoveredUnlessLetGo`, `LettingGoHasACause`). The deadline is retired not only by a run that recorded a
  terminal status (`DeadlineRetired`).
- An outstanding reconciliation deadline is blind exactly when the data of its call have been deleted
  (`OutstandingDeadlineStops`): the job may have been put back by an administrator
  (`RetryAfterDeletionIsBlind`) or by a hang-up recovery that was under way (`LateRecoveryIsBlind`), and an
  id that comes back later does not help, because the call is no longer found (`BlindThoughAttached`).
- A call can be stopped locally without any provider stop having been issued
  (`StoppedWithoutProviderStop`): `stop` reads the attempt before it re-reads the call. A `stop` can also
  throw after it has stopped the call locally, because the repository reads the call back after its commit
  (`ChangeLocally`).
- `dispatchAsyncAnswering` ignores what `prepareAgentHangup` returns, so a hang-up can go out without an
  outstanding recovery job, exactly when one of the two reads of the request does not find the attempt live
  and the latest one (`HangUpWithoutRecoveryJob`), or the job row was cancelled by a deletion before the
  enqueue, which then changes nothing (`HangUpWithCancelledJob`); `JobExactlyIfTargetSeen` proves the
  condition. Failures of the reads between the claim and the `try` block end the dispatch for good, without
  an update and without recovery (`FailedReadSpendsTheClaim`).
- A recording can be erased locally while the provider keeps it, exactly when the provider id arrives
  between the read and the erasure of a data deletion (`DeletedOnlyAfterProvider`,
  `ErasedWhileProviderHolds`). Its id can also arrive after the erasure, because a late provider status
  writes the call id back (`IdArrivesAfterErasure`). The `already_deleted` shortcut is sound.
- One call whose data are deleted inside its snapshot read, after the row was read, or between its first
  ownership check and the reads of its outcome and texts makes the whole export reject, so calls owned
  throughout are then not exported (`OneVanishingCallRejectsAll`); `ListCalls` gives the exact condition. The
  reads throw in the PostgreSQL repository, which the model follows.
- `failDurableJob` queues a deferred job again whatever its retryable flag says; a deferral asked for close
  to the deadline therefore still costs one more attempt. The claims stay bounded
  nevertheless (`RunToEnd`, `FewLateClaims`, `ClaimsAreBounded`).
- The outbound switch depends on its disabled button: a refresh started while a change is applied would
  leave the applying flag up for good (`RefreshNeedsTheGuard`).
- An unsubscribe handle used twice can cut off other subscribers (`SecondUse`).
- The in-memory repository restarts a cancelled job and the PostgreSQL repository does not; the model follows
  PostgreSQL.

## Model

| member | source | states |
|---|---|---|
| CallLeg.CoveredUnlessLetGo | apps/api/src/call-service.ts:792-864 | In every interleaving of one start, any number of stops, callbacks, reconciliation runs, data deletions and process deaths, a leg whose id start received is not covered (ended, stop issued, id still held, deadline outstanding) if and only if it is live, unstopped and no longer held while its deadline is dead, was cancelled, or never existed because the process died with the id in hand |
| CallLeg.LettingGoHasACause | apps/api/src/call-service.ts:1687-1728 | Each of the three ways has its cause in the run: five claims of the deadline, a data deletion, a death of the process; a run with none of them keeps every leg covered |
| CallLeg.DeadlineRetired | apps/api/src/call-service.ts:1687-1728 | The only steps that take an outstanding deadline away: a run that saw the terminal provider status and recorded it, the fifth failed claim, or deletion of the data of a finished call |
| CallLeg.OutstandingDeadlineStops | apps/api/src/call-service.ts:1687-1728 | In every run, administrator retries and late recoveries included, with the deadline queued and its leg live and unstopped: the next undisturbed reconciliation run issues the stop, whatever non-terminal status the provider reports, if and only if the data of the call have not been deleted |
| CallLeg.FindingRunStops | apps/api/src/call-service.ts:1687-1720 | From any state with a queued deadline and a live, unstopped leg, the undisturbed run stops it if and only if the call is still found and its attempt carries the id |
| CallLeg.WholeRunSettles | apps/api/src/call-service.ts:1687-1728 | For every report of the provider an undisturbed run, its claim and its report to the queue included, succeeds exactly if it found the call and the id and recorded a terminal status, with the call over; otherwise the claim is used up and the job is queued again, or dead after the last; a leg that is not over is stopped |
| CallLeg.EndedLegSettles | apps/api/src/call-service.ts:1702-1720 | In every run: once the leg has ended, the next undisturbed run settles the queued deadline as succeeded if and only if the data of the call have not been deleted |
| CallLeg.StepKeepsInv | apps/api/src/storage/in-memory-call-repository.ts:3030-3112 | Every step of every participant keeps the invariant: program points, guards between commit and snapshot, what retires the job, and what each run may rely on across its awaits |
| CallLeg.OverStaysOver | apps/api/src/storage/call-repository.ts:1166-1177 | Along every run an ended leg, a terminal status and an issued stop stay so: neither stop nor a provider status leaves a terminal status |
| CallLeg.RunEffects | apps/api/src/storage/in-memory-call-repository.ts:3965-4041 | Every step of a reconciliation run, its read of the call that fails after a data deletion included, keeps the core and the other runs, and only its report retires the deadline, as succeeded after a terminal status or as dead once the claims are used up |
| CallLeg.StoreEffects | apps/api/src/storage/in-memory-call-repository.ts:3882-3949 | Of all callbacks, sweeps, recoveries, administrator retries and deletions, with the read and the enqueue of a hang-up recovery as separate steps, only the sweep of the last lease and data deletion retire the deadline |
| CallLeg.CallbackApplies | apps/api/src/storage/call-repository.ts:1166-1177 | What a provider status changes: it attaches the leg; a terminal one ends an open call with that status; any other only takes a call from its start to the dial and from the dial to the conversation |
| CallLeg.AttachmentAsks | apps/api/src/call-service.ts:838-848 | The attachment records the leg and asks for a deadline exactly while the call is open; it restarts none |
| CallLeg.MarkEndsTheCall | apps/api/src/call-service.ts:1931-1937 | The mark ends a call that is still open and leaves one that is over; when one of its two awaits throws, the status stays |
| CallLeg.FaultEndsTheRun | apps/api/src/call-service.ts:1687-1701 | A run in which one of its reads throws fails and does nothing else |
| CallLeg.RecoveryAsks | apps/api/src/call-service.ts:1013-1021 | The enqueue of a hang-up recovery leaves an outstanding deadline unless a deletion cancelled it |
| CallLeg.AbsentDeadlineIsAsked | apps/api/src/storage/postgres-call-repository.ts:6622-6651 | An open call with a known leg and no deadline gets a fresh one from the seeding and from the restart recovery |
| CallLeg.RestartEndsOrFollows | apps/api/src/storage/postgres-call-repository.ts:7192-7255 | A restart fails exactly the open calls without a known leg, asks for a deadline only for an open call with one, and restarts none |
| CallLeg.DeletionErases | apps/api/src/storage/postgres-call-repository.ts:2062-2112 | A data deletion is refused while the call is open, and otherwise leaves neither the id nor an outstanding deadline |
| CallLeg.LostRunIsMadeUpFor | apps/api/src/storage/postgres-call-repository.ts:6800-6835 | A run whose lease ran out is queued again while claims are left and dead-lettered afterwards |
| CallLeg.StoppedWithoutProviderStop | apps/api/src/call-service.ts:902-929 | A reachable run: the call is stopped locally while its leg is live and no provider stop was issued, because stop read the attempt before the attachment and the call after it; only the deadline covers the leg |
| CallLeg.ProcessDeathLetsGo | apps/api/src/call-service.ts:835-846 | A reachable run: the process dies between receiving the id and attaching it, and nothing covers the leg |
| CallLeg.DataDeletionLetsGo | apps/api/src/storage/in-memory-call-repository.ts:1406-1551 | A reachable run: deleting the data of a stopped call cancels the only cover of a live leg |
| CallLeg.FiveFailedRunsLetGo | apps/api/src/jobs/durable-job.ts:94-104 | A reachable run: five failing reconciliation runs give a live leg up |
| CallLeg.RetryAfterDeletionIsBlind | apps/api/src/storage/postgres-call-repository.ts:7132-7168 | A reachable run: a dead job put back after the data of its call were deleted is outstanding without the id of the live leg |
| CallLeg.BlindThoughAttached | apps/api/src/storage/postgres-call-repository.ts:2957-2962 | A reachable run: a late provider status writes the id back after the deletion, and the outstanding job stays blind because its read of the call finds nothing |
| CallLeg.LateRecoveryIsBlind | apps/api/src/call-service.ts:1006-1021 | A reachable run without any administrator: a hang-up recovery that read its target enqueues after the call was stopped and its data deleted, so the restarted job is blind |
| CallProcess.CallService.Start | apps/api/src/call-service.ts:765-878 | Exactly a ready call is started: undisturbed, it is reserved and dialled and ends started if the provider dials, as failed otherwise, while any other call is returned as it is. For every choice of failing await and every interference: an id that start received ends with a stop issued, or attached to an open call with its deadline created and the maximum-duration timer pending; a failed attachment always issued the stop; a start that fails leaves the call over unless marking it threw |
| CallProcess.CallService.ReserveCall | apps/api/src/call-service.ts:765-785 | The call is reserved exactly if it is ready and neither await throws; one that is not ready is returned unchanged |
| CallProcess.CallService.Dial | apps/api/src/call-service.ts:792-836 | Under every interference the dial yields an id exactly if none of its four awaits throws and the provider creates the leg while the last one is awaited; otherwise no id is held and the call is over unless marking it failed threw |
| CallProcess.LegNeedsDial | apps/api/src/call-service.ts:825-831 | Whatever the others do, a leg comes into being only while start dials, and then exactly when the provider creates it |
| CallProcess.CallService.PrepareDial | apps/api/src/call-service.ts:792-824 | The three steps before the dial: ready exactly if none of them throws |
| CallProcess.CallService.AttachAndRead | apps/api/src/call-service.ts:838-848 | Attachment and snapshot read: failed exactly through one of the two awaits or deleted data, active only on an open, attached call |
| CallProcess.CallService.AttachOrStop | apps/api/src/call-service.ts:838-878 | After the dial, under every interference: attached to an open call with deadline and timer, or stop issued; the two failure branches and the terminal branch each issue it |
| CallProcess.CallService.StopUnattached | apps/api/src/call-service.ts:849-857 | A leg that could not be attached has its stop issued whether or not the provider answers and whether or not marking the call failed succeeds |
| CallProcess.CallService.MarkFailedIfActive | apps/api/src/call-service.ts:1931-1937 | The failure path keeps the invariant, takes back no stop, and leaves the call over unless its last await threw |
| CallProcess.CallService.Stop | apps/api/src/call-service.ts:902-945 | Under every interference: a stop that commits locally has issued the provider stop, and had it accepted, whenever its first read saw an id; the request comes before the local change and a refusal changes nothing locally; a call that was terminal at the start, or that cannot be read, is left alone, with no request, write or telemetry; every other stop first records that it was requested, and a refused one last that it failed; a stop that throws after its commit is one that committed; lost telemetry never decides the outcome |
| CallProcess.CallService.ReadBeforeStop | apps/api/src/call-service.ts:903-906 | The attempt is read before the call is re-read: the id known to stop is that of the first read, whatever happens before the second; a call terminal at the re-read ends the stop |
| CallProcess.CallService.ReadAttempt | apps/api/src/call-service.ts:903-904 | The first read yields the id that the attempt carries after whatever the others did while it was awaited |
| CallProcess.CallService.AskTheProvider | apps/api/src/call-service.ts:921-929 | Without an id nothing is asked; an accepted request is in the log before anything is decided; a refusal leaves a failed request in the log and no local stop |
| CallProcess.CallService.ChangeLocally | apps/api/src/storage/postgres-call-repository.ts:5638-5697 | The commit and the read back are two awaits: the local stop is written exactly if the first does not throw, also when the second does; what is written is decided by the status at that moment: "stopped" only on a call that was still open |
| CallProcess.CallService.ReadBack | apps/api/src/call-service.ts:930-933 | Whatever happens after the commit, the stop stays committed and comes last in the log but for telemetry; it answers exactly if the read succeeds, and records a success exactly if the call then reads as stopped |
| CallProcess.CallService.RecordStop | apps/api/src/call-service.ts:908-920 | A telemetry write of stop appends to the log whether it is lost or not and changes neither the program point nor the call |
| CallProcess.OthersLeaveStart | apps/api/src/call-service.ts:765-864 | Whatever else runs while start waits leaves its program point and its id alone |
| CallProcess.OthersLeaveStop | apps/api/src/call-service.ts:902-945 | Whatever else runs while one stop waits leaves that stop alone |
| CallProcess.LocalStopComesLast | apps/api/src/call-service.ts:920-933 | A log without refusal or local stop, then a local stop, then telemetry, has no local stop after a refusal and no provider request after a local stop |
| AnsweringPolicy.DispatchIsFinal | apps/api/src/telephony/answering-policy.ts:12-62 | Once a terminal action was dispatched, no transition of any kind with any input makes a dispatch applicable again |
| AnsweringPolicy.DispatchClaims | apps/api/src/storage/in-memory-call-repository.ts:1959-1980 | An applied dispatch stores the claim and hands out the stored decision, which is never consent |
| AnsweringPolicy.AnswerDecides | apps/api/src/telephony/answering-policy.ts:44-60 | The first answer to a running, addressed attempt is always taken: a conversation exactly for a human or, under the current policy, an unknown voice; the message exactly for the end of a greeting when there is one to leave; a hang-up otherwise, as failed for an answer that the detection mode cannot give; without a stream the message is issued at once |
| AnsweringPolicy.AnswerOnce | apps/api/src/telephony/answering-policy.ts:44-50 | A detection result counts once; its deadline replaces a missing one, or a consent that no stream has used, by a failed hang-up, and nothing else |
| AnsweringPolicy.StreamAfterConsent | apps/api/src/telephony/answering-policy.ts:31-34 | Without streaming before the answer, a stream is let in exactly after a consent, and only once |
| AnsweringPolicy.ActionAfterAnswer | apps/api/src/telephony/answering-policy.ts:31-40 | With a stream let in before the answer: it is let in at once, no action is handed out before the answer, and after it exactly if there is no consent, namely the decided one; a message counts as issued then |
| AnsweringPolicy.ConversationIsFinal | apps/api/src/telephony/answering-policy.ts:41-46 | No late answer, deadline or action ends a conversation that has begun |
| AnsweringPolicy.DeadlineCloses | apps/api/src/telephony/answering-policy.ts:41-45 | The deadline of an asynchronous detection ends everything but a conversation that has begun, by a hang-up, and lets no stream in afterwards |
| AnsweringPolicy.PlaybackEndsOnce | apps/api/src/telephony/answering-policy.ts:26-29 | The end of a playback is taken exactly after one was issued, once, and changes nothing else |
| AnsweringPolicy.BindingFixesTheLeg | apps/api/src/telephony/answering-policy.ts:18-25 | Binding fixes the leg of the attempt, starts a state in which nothing has happened, and leaves an existing one alone |
| AnsweringPolicy.OnlyWhileRunning | apps/api/src/storage/in-memory-call-repository.ts:1959-1971 | A foreign request changes nothing; once the call is over or being stopped only the binding of its own leg and a playback report apply; after a recorded consent, or when the answer carries its action out itself, no action and no expiry does |
| AnsweringPolicy.RepeatedEventIsDropped | apps/api/src/storage/in-memory-call-repository.ts:1972-1980 | A transition that applies stores its state and its event once; one that does not apply leaves everything, and one whose event is stored already leaves the answering state |
| AnsweringDispatch.AtMostOneUpdate | apps/api/src/call-service.ts:957-978 | For any number of workers, failures and deaths: at most one live update, a message only for a message decision, a hang-up only after its recovery request ran to completion |
| AnsweringDispatch.ClaimedActionIsTaken | apps/api/src/call-service.ts:957-974 | For every claim: the undisturbed dispatch plays the message, or else hangs up behind an outstanding recovery job, exactly once, and answers true |
| AnsweringDispatch.FailedActionIsRecovered | apps/api/src/call-service.ts:964-978 | For every claim: when the update fails, or there is no voicemail to play, the request of the catch block leaves an outstanding job before the error is rethrown |
| AnsweringDispatch.ReadsDecide | apps/api/src/call-service.ts:960-963 | After the claim the worker goes on to its action exactly while the attempt is the latest one, open, of version 3 and not being stopped; otherwise it answers false and changes nothing |
| AnsweringDispatch.RequestRuns | apps/api/src/call-service.ts:1006-1021 | An undisturbed recovery request for a live target ends with an outstanding job exactly if the row was not cancelled |
| AnsweringDispatch.FailedRequestIsRetried | apps/api/src/call-service.ts:964-978 | A recovery request that fails before the hang-up is made again by the catch block, and one that fails there ends the dispatch; nothing else changes |
| AnsweringDispatch.ExpiryBeatsDispatch | apps/api/src/call-service.ts:980-1001 | A deadline that ends the call first leaves nothing to dispatch |
| AnsweringDispatch.JobTakesItsCourse | apps/api/src/jobs/durable-job-worker.ts:253-281 | A requested job is run and ends, or is queued again, after a failure or when its worker is gone, while attempts are left |
| AnsweringDispatch.DeclinedDispatch | apps/api/src/call-service.ts:957-959 | A dispatch that does not apply answers false and changes nothing |
| AnsweringDispatch.DeletionHidesTheTarget | apps/api/src/storage/postgres-call-repository.ts:2062-2112 | A deletion is refused while the call is open; afterwards no recovery request finds a target and no job is left |
| AnsweringDispatch.FailedUpdateIsRecovered | apps/api/src/call-service.ts:964-978 | Only the claiming worker acts; true is returned exactly for its one update; the original error is rethrown only after the recovery request completed |
| AnsweringDispatch.HangUpWithoutRecoveryJob | apps/api/src/call-service.ts:1006-1021 | From every state that hands out a hang-up there is a run that hangs up without a recovery job: the attempt ends between claim and request, the request declines, and its result is not looked at |
| AnsweringDispatch.HangUpWithCancelledJob | apps/api/src/storage/postgres-call-repository.ts:6570-6625 | Both reads can find the target and the hang-up still go out without a job: the data are deleted before the enqueue, which leaves the cancelled row as it is |
| AnsweringDispatch.FailedReadSpendsTheClaim | apps/api/src/call-service.ts:958-963 | A reachable run in which a read between the claim and the try block fails; in every continuation of it no dispatch of the attempt updates the call or asks for recovery |
| AnsweringDispatch.JobBeforeHangUp | apps/api/src/call-service.ts:1006-1021 | Whatever else happens to the call and its job, as long as the claimed attempt stays live and the latest one and the data are kept, the job was outstanding before the hang-up and before any error is rethrown |
| AnsweringDispatch.JobExactlyIfTargetSeen | apps/api/src/call-service.ts:1006-1021 | In every run a hang-up was preceded by its outstanding job if and only if the attempt was live at the first read of the recovery request and the latest one at the second, and the job row was not cancelled at the enqueue; the same of the request in the catch block before the error is rethrown |
| AnsweringDispatch.StepKeepsInv | apps/api/src/call-service.ts:957-978 | Every step of every worker, of the job and of the rest of the call keeps: one owner, what it did at each await, and the dispatched answering state |
| AnsweringDispatch.ClaimKeepsInv | apps/api/src/telephony/answering-policy.ts:35-40 | A dispatch is claimed only while there is no owner, and the claim keeps the invariant |
| RecordingDeletion.DeletedOnlyAfterProvider | apps/api/src/call-service.ts:1295-1351 | Over user deletion, retention and data deletion in any interleaving: a recording whose provider id was attached beforehand is marked deleted or erased while the provider keeps it if and only if an erasure that had read no id met a row that carried one; counting ids that arrive later, the only other case is an id first attached to an erased row; "already_deleted" and "deleted" are always truthful |
| RecordingDeletion.UserDeletionDeletes | apps/api/src/call-service.ts:1206-1229 | The undisturbed deletion by a user succeeds exactly for a recording that is available with its id, which it deletes at the provider and then marks deleted, or that is deleted already; otherwise it changes nothing |
| RecordingDeletion.RetentionDeletes | apps/api/src/call-service.ts:1658-1685 | So does the undisturbed retention job, which also succeeds for a call without a recording |
| RecordingDeletion.DataDeletionErases | apps/api/src/call-service.ts:1295-1351 | The undisturbed data deletion succeeds exactly for a call that is over and not yet erased: it erases both provider ids, marks a recording deleted, deletes one with an id at the provider first, and records which case it was |
| RecordingDeletion.RefusalKeepsTheRecording | apps/api/src/call-service.ts:1206-1229 | A provider that throws leaves the recording here and there, and the operation fails |
| RecordingDeletion.FailureKeepsTheRecording | apps/api/src/call-service.ts:1206-1229 | So does every other await that throws, at whatever point of the three operations |
| RecordingDeletion.HistoryIsTrue | apps/api/src/call-service.ts:1295-1351 | Every step keeps the three facts that the theorems tell of the past true to what happened: an id was there when the row became deleted, an erasure overlooked one, an id came after the deletion |
| RecordingDeletion.RecordingRuns | apps/api/src/storage/in-memory-call-repository.ts:3266-3410 | A recording starts once and on an open call whose leg is known, and fails only while it runs |
| RecordingDeletion.CallbackRecords | apps/api/src/storage/in-memory-call-repository.ts:3412-3455 | A recording callback attaches the id; a finished recording is available, an available one stays so, a deleted one stays deleted |
| RecordingDeletion.RecordingBecomesAvailable | apps/api/src/storage/in-memory-call-repository.ts:3266-3460 | The ordinary life of a recording is a reachable run: it starts, is attached, ends with the call and becomes available |
| RecordingDeletion.ErasedWhileProviderHolds | apps/api/src/call-service.ts:1318-1345 | That exception is reachable: the id arrives between the read and the erasure |
| RecordingDeletion.IdArrivesAfterErasure | apps/api/src/storage/postgres-call-repository.ts:5289-5319 | The other case is reachable: a provider status after the erasure writes the call id back, and a recording callback then attaches its id to the erased row |
| RecordingDeletion.StepKeepsInv | apps/api/src/call-service.ts:1206-1229 | Every step of the three operations and of the callbacks, those after an erasure included, keeps what each process relies on after its provider delete |
| RecordingDeletion.ProviderDeletes | apps/api/src/telephony/twilio-telephony-provider.ts:212-219 | A provider delete that returns, found or already gone, leaves no copy; one that throws changes nothing |
| Preparation.PreparationJob.RunToEnd | apps/api/src/call-service.ts:1521-1655 | Every run of a preparation job, one attempt after the other, ends, however often attempts fail or are deferred; the number of attempts is bounded by the remaining time and the attempt limit; at most one publication, whose last check was before the deadline; success only with a published brief |
| Preparation.PreparationJob.Process | apps/api/src/call-service.ts:1521-1617 | An attempt that starts at or after the deadline fails for good; one that holds its lease, has its input and is in time at both checks publishes; a publication follows two deadline checks and the abort check; which failure every other attempt ends in; only an attempt that started in time is deferred |
| Preparation.MapError | apps/api/src/call-service.ts:1618-1654 | A compiler error is retried exactly if it allows that and its delay ends before the deadline; exactly a busy provider is deferred; spending and repository refusals are final, anything else is retried; the delay asked for is kept up to a day |
| Preparation.PreparationJob.Turn | apps/api/src/jobs/durable-job-worker.ts:253-281 | One turn moves the clock by at least five seconds before the next, and counts every attempt that began at or after the deadline; an attempt that publishes settles the job, one that cannot any more gives it up, a lost one is made up for while attempts are left, a busy provider costs none |
| Preparation.RetryDelay | apps/api/src/jobs/durable-job.ts:106-109 | The retry delay lies between five seconds and a quarter of an hour |
| Preparation.DelaysDouble | apps/api/src/jobs/durable-job.ts:106-109 | The first delay is the shortest, and each further one twice the last until the longest |
| PreparationRuns.PublishedOnceInTime | apps/api/src/storage/in-memory-call-repository.ts:615-645 | However attempts overlap after lost leases, the brief is published at most once, by an attempt whose last check was before the deadline and inside the deadline of the row; success means published, and a row given up never is |
| PreparationRuns.AttemptSettles | apps/api/src/call-service.ts:1521-1655 | From every state in which the job can be claimed, the undisturbed attempt succeeds exactly if the brief is visible already or compiled from its input in time, and then it is visible; otherwise it counts unless deferred and is made up for after its delay, or the job is given up with its row |
| PreparationRuns.FaultIsMadeUpFor | apps/api/src/call-service.ts:1521-1655 | Each single fault of an attempt that would publish costs one attempt and is made up for while there are more; only a refusal is final; a brief that was written stays |
| PreparationRuns.TooLateIsFinal | apps/api/src/call-service.ts:1580-1617 | A brief that is compiled too late ends the job with its row |
| PreparationRuns.FencedOpening | apps/api/src/storage/in-memory-call-repository.ts:4637-4648 | A worker without the lease, or whose row was given up, does not begin to compile |
| PreparationRuns.LeaseLasts | apps/api/src/jobs/durable-job-worker.ts:240-251 | A lease lasts exactly for its length from its last renewal |
| PreparationRuns.SweepReleases | apps/api/src/storage/postgres-call-repository.ts:6800-6858 | A sweep leaves a valid lease alone; otherwise the job is due at once, or dead with its row after the last attempt |
| PreparationRuns.DeletionWithdraws | apps/api/src/storage/postgres-call-repository.ts:1932-1981 | A deletion withdraws what is not published, and no worker can publish it any more |
| PreparationRuns.StaleWorkerIsHarmless | apps/api/src/storage/in-memory-call-repository.ts:4637-4648 | Whatever a worker without the lease does, renewing included, neither the job, its due time and lease, nor the row nor the publications change |
| PreparationRuns.FewLateClaims | apps/api/src/storage/in-memory-call-repository.ts:3995-4041 | In every run with overlapping attempts at most three claims happen at or after the deadline, so deferrals cannot prolong the job beyond it |
| PreparationRuns.ClaimsAreBounded | apps/api/src/storage/postgres-call-repository.ts:6868-6905 | However attempts overlap, fail, are deferred or lose their lease: five seconds times the number of all claims is at most the time left to the deadline at the start plus twenty seconds |
| PreparationRuns.AttemptsOverlap | apps/api/src/storage/in-memory-call-repository.ts:3882-3949 | Reachable: a worker that lost its lease and its successor are both about to publish, and only the successor may |
| PreparationRuns.StepKeepsInv | apps/api/src/call-service.ts:1521-1617 | Every step of every worker, with or without the lease, keeps the job, the row and what each worker checked |
| UsageReport.ReportBuilder.Build | apps/api/src/admin-operations.ts:189-278 | The report of the accumulating loop equals the plain sums, unions, sorted lists and capped records of the whole bucket list |
| UsageReport.ReportBuilder.AddBucket | apps/api/src/admin-operations.ts:207-238 | One turn of the loop turns the sums over a list into the sums over the list with the bucket appended, for all nine components, versions, counters and records |
| UsageReport.ReportBuilder.AddShares | apps/api/src/admin-operations.ts:228-237 | The inner loop adds to every component exactly what the bucket contributes to it, and nothing to the others |
| UsageReport.ReportBuilder.CountBucket | apps/api/src/admin-operations.ts:210-227 | Relevant and unpriced buckets, versions and records grow by what this bucket brings |
| UsageReport.ReportBuilder.KeepRecent | apps/api/src/admin-operations.ts:268-272 | The counting filter keeps exactly the records with fewer than a hundred of their type before them |
| UsageReport.ReportBuilder.Finish | apps/api/src/admin-operations.ts:239-278 | Sorting, shortening, status and headline of the finished fields |
| UsageReport.CostConservation | apps/api/src/admin-operations.ts:244-275 | The headline is the sum over the buckets outside telephony of each one's single primary amount |
| UsageReport.HeadlineUnknown | apps/api/src/admin-operations.ts:273-275 | The headline is null exactly when no bucket has a primary amount |
| UsageReport.PrimaryOnce | apps/api/src/admin-operations.ts:280-359 | One bucket enters the headline once, through its first destination, and not again through text and audio |
| UsageReport.MainContribution | apps/api/src/admin-operations.ts:280-359 | Outside the two realtime details a bucket contributes to a component only as its first destination |
| UsageReport.DetailsFollow | apps/api/src/admin-operations.ts:312-345 | Behind the first destination there are only realtime details; a telephony leg has no priced part |
| UsageReport.IncompleteConservation | apps/api/src/admin-operations.ts:217-231 | The incomplete counts of the components other than the two details sum to the unpriced buckets |
| UsageReport.CountersAreRoutedSums | apps/api/src/admin-operations.ts:393-426 | Every counter of a component is the sum over the buckets routed to it |
| UsageReport.RoutingFeeds | apps/api/src/admin-operations.ts:280-359 | Read from the side of a component: which operations, stages and samples feed it, and which of the prices it takes: the duration of what is spoken live, text and audio of a conversation, no estimate for a leg, the whole price of everything else |
| UsageReport.ComponentIsItsUsage | apps/api/src/admin-operations.ts:207-238 | Every one of the nine components is the plain sum of counters, missing records, amounts and models over the buckets that feed it |
| UsageReport.ReportShowsUsage | apps/api/src/admin-operations.ts:189-278 | A finished report shows in each component exactly those sums, and all of the models unless there are too many |
| UsageReport.StatusTells | apps/api/src/admin-operations.ts:250-267 | The report is unavailable exactly if nothing was lost and no usage is estimated, partial exactly if something was lost or some estimated usage is not fully priced; its versions are those of the estimated usage |
| UsageReport.RecordTells | apps/api/src/admin-operations.ts:219-226 | A request record shows the amount that stands for it and misses nothing exactly if that amount is final; what it misses otherwise |
| UsageReport.RecordsAreDated | apps/api/src/admin-operations.ts:219-226 | There is exactly one record for each bucket of a known request, in their order |
| UsageReport.OrderIsIrrelevant | apps/api/src/admin-operations.ts:189-278 | For any collation, ties included, reports built from two permutations of the same buckets agree in every field but the record list, and in that list too unless two different records tie both in start and in id |
| UsageReport.ReportConserves | apps/api/src/admin-operations.ts:189-278 | Of any finished report under any collation: headline and its null case, incomplete counts, newest-first order, and exactly the first hundred records of each type |
| UsageReport.DestinationsAreDistinct | apps/api/src/admin-operations.ts:280-359 | No bucket reaches the same component twice |
| UsageReport.AddShareAdds | apps/api/src/admin-operations.ts:393-426 | Adding a bucket in place to a component adds its counters, missing records, amount and model to the sums, with no model twice |
| ProviderUsage.RecentKeepsTheFirst | apps/api/src/admin-operations.ts:268-272 | For each operation type the retained records are the first hundred of the sorted list: a dropped one is preceded by a hundred kept ones |
| ProviderUsage.RecentStaysSorted | apps/api/src/admin-operations.ts:268-272 | The retained records stay in newest-first order and are all from the list |
| ProviderUsage.TotalsAdd | apps/api/src/admin-operations.ts:393-426 | Component totals with nullable amounts form a commutative monoid, which makes the order of buckets irrelevant |
| OperationalCost.TotalIsRoundedUp | apps/api/src/admin-operations.ts:91-134 | A total exists exactly when a rate is configured, is complete exactly when all are, and is never below the exact cost nor a micro-dollar per rate above it |
| OperationalCost.Estimate | apps/api/src/admin-operations.ts:428-437 | The estimate is the least whole number not below seconds times rate over sixty, absent exactly without a rate |
| Folds.FoldPermutes | apps/api/src/admin-operations.ts:207-238 | A sum over buckets does not depend on their order |
| Folds.SortPermutes | apps/api/src/admin-operations.ts:268-268 | Sorting two permutations without ties gives the same list |
| Slogan.SloganLayout | apps/api/src/og-renderer.ts:21-45 | Any input: refused as invalid or unsupported exactly when it is; otherwise at most two lines of width at most 1000 that re-join to the normalised text, at the largest size where any such break exists; too long if and only if no break into two lines exists at size 48 |
| Slogan.LargestSize | apps/api/src/og-renderer.ts:31-44 | The loop over the three sizes for a normalised text |
| Slogan.Wrap | apps/api/src/og-renderer.ts:33-41 | At one size: a break in which no line could take the next word, or a word that is too wide |
| Slogan.TightIsMinimal | apps/api/src/og-renderer.ts:36-41 | Greedy wrapping is minimal: it needs no more lines than any break of the text, if width grows with words |
| Slogan.GreedyDecides | apps/api/src/og-renderer.ts:36-42 | The greedy lines are at most two exactly when some break into at most two lines exists |
| Slogan.WideWord | apps/api/src/og-renderer.ts:37-37 | A word that is too wide rules out every break at that size |
| Slogan.LinesRejoin | apps/api/src/og-renderer.ts:38-41 | Joining the lines with spaces gives back the words joined with spaces |
| Slogan.NormalisedIsItsWords | apps/api/src/og-renderer.ts:22-24 | Normalisation keeps every word of the input, in order, with single spaces between them, and nothing else |
| Slogan.CollapsedIsNormal | apps/api/src/og-renderer.ts:24-24 | A trimmed, non-empty input with its white space collapsed consists of non-empty words between single spaces |
| SocialCrop.EditorStaysInside | apps/web/components/admin-og-console.tsx:101-104 | Every crop the editor can produce lies inside the image and passes the schema |
| SocialCrop.EditorAccepted | apps/api/src/og-renderer.ts:80-85 | For an editor crop the ratio check never decides: the server accepts it exactly when its pixel size is at least 600 by 315 |
| SocialCrop.RatioError | apps/api/src/og-renderer.ts:83-83 | Half a pixel on each side moves the ratio by at most 0.5 (1 + 1200/630) / height |
| SocialCrop.HalfPixel | apps/api/src/og-renderer.ts:80-82 | Rounding the start and clamping the length move a length by at most half a pixel |
| SocialCrop.ExtractedInside | apps/api/src/og-renderer.ts:80-87 | Whatever passes the schema and the server's checks is an area inside the image of at least 600 by 315 pixels |
| SocialCrop.ExtractedIsTheCrop | apps/api/src/og-renderer.ts:80-87 | The extracted area is the crop that was sent: its edges to half a pixel, its sides too but for the millionth that the schema lets stick out |
| SocialCrop.SlidersPlace | apps/web/components/admin-og-console.tsx:101-104 | The sliders divide the room beside and above the area, to half a pixel |
| SocialCrop.ZoomDecides | apps/web/components/admin-og-console.tsx:101-103 | An editor crop is accepted from 600 exact pixels of width on and refused below 599.5, for every slider position |
| SocialCrop.LargeEnoughImages | apps/web/components/admin-og-console.tsx:101-104 | Without zoom every image of at least 600 by 315 pixels is accepted |
| SocialCrop.EditorSides | apps/web/components/admin-og-console.tsx:102-103 | Both sides of the crop are one exact length, in the ratio 1200 to 630 |
| SocialCrop.HandMadeCropRefused | packages/contracts/src/og-images.ts:18-19 | A crop that passes the schema and is large enough can still fail the ratio check |
| AccountExport.ListCalls | apps/api/src/account-data-export-service.ts:75-119 | Under any concurrent changes with immutable sort keys on a finite store the loop ends; it rejects if and only if a call on one of its pages vanishes inside its snapshot read, after the row, or between its first check and an associated read; otherwise the export is in strict newest-first order, so no call appears twice, every call owned from the first listing to the end is exported, and the records are exactly the successful checked readings of the items of all pages |
| AccountExport.OneVanishingCallRejectsAll | apps/api/src/account-data-export-service.ts:88-97 | Two calls of one user, the first owned at every moment: for each moment at which the data of the second may be deleted, whether the export rejects, which it does inside the snapshot read and between the first check and the reads that insist on the call |
| AccountExport.ReadPage | apps/api/src/account-data-export-service.ts:88-111 | Exactly the items whose reading succeeds are kept, in page order; the page is rejected exactly when a read that insists on its call, inside the snapshot or after the first check, finds it gone |
| AccountExport.KeptChecked | apps/api/src/account-data-export-service.ts:89-109 | A kept record passed an ownership check before and after its reads, and holds what each read saw at its moment |
| AccountExport.OwnedIsKept | apps/api/src/account-data-export-service.ts:89-109 | A call owned throughout a page is always kept from it |
| AccountExport.PageOf | apps/api/src/storage/in-memory-call-repository.ts:524-560 | A listing is strictly ordered, holds only matching calls, and whatever it leaves out is below the cursor that it returns |
| AccountExport.PagesAreFull | apps/api/src/storage/in-memory-call-repository.ts:524-560 | A page holds a hundred calls at most; there is a next one exactly if it is full and a call is left below its cursor |
| AccountExport.NoneMissed | apps/api/src/account-data-export-service.ts:112-117 | After each page a call owned throughout is exported already or below the next cursor |
| AccountExport.AppendPage | apps/api/src/account-data-export-service.ts:111-115 | A page appended to the records keeps the strict order, and the next cursor is behind all of them |
| AccountExport.RemainingShrinks | apps/api/src/account-data-export-service.ts:112-117 | Each cursor leaves strictly fewer calls of the finite universe below it |
| OutboundControl.FlagsAreTrue | apps/web/components/admin-outbound-control.tsx:12-70 | In every run, while mounted, a loading or applying flag is up exactly when the request of the newest number is of that kind and unanswered; never both |
| OutboundControl.RefreshNeedsTheGuard | apps/web/components/admin-outbound-control.tsx:87-87 | Starting a refresh keeps the flags true if and only if no change is being applied, which is what the disabled button ensures |
| OutboundControl.SupersededIsIgnored | apps/web/components/admin-outbound-control.tsx:22-31 | A response to a superseded request changes nothing that is shown, however late it comes |
| OutboundControl.SupersededLeaveNoTrace | apps/web/components/admin-outbound-control.tsx:17-70 | For any order of responses the display is what it would be had superseded responses never come |
| OutboundControl.EnableOnlyWhenDisabled | apps/web/components/admin-outbound-control.tsx:43-56 | An enable request is sent only by a confirmed submission of a superadmin while the newest request was answered "disabled" |
| OutboundControl.AfterLossOnlyDisable | apps/web/components/admin-outbound-control.tsx:60-69 | After a failed or lost response to the newest request a submission can only send disable |
| OutboundControl.RequestIsAnswered | apps/web/components/admin-outbound-control.tsx:17-70 | Appearing, a click and an accepted submission each send one request, which the flags show until its answer is on display; a lost answer is shown as an error with the state unknown |
| OutboundControl.NothingElseIsSent | apps/web/components/admin-outbound-control.tsx:43-56 | Nothing else sends a request, or changes anything before an answer or the end of the component |
| OutboundControl.LeavingSilences | apps/web/components/admin-outbound-control.tsx:34-41 | Leaving makes whatever is under way stale and changes nothing that is shown |
| OutboundControl.StepKeepsInv | apps/web/components/admin-outbound-control.tsx:17-70 | Every handler, response, mount and unmount keeps: numbers, answers, flags, and what is shown when nothing is under way |
| OutboundControl.Component.Refresh | apps/web/components/admin-outbound-control.tsx:17-20 | The synchronous part of a refresh: new number, loading, error cleared |
| OutboundControl.Component.RefreshSettled | apps/web/components/admin-outbound-control.tsx:21-32 | Answer, failure and finally of a refresh, each only for the newest number |
| OutboundControl.Component.InvalidatePendingRequests | apps/web/components/admin-outbound-control.tsx:34-36 | Leaving makes every pending request stale and changes nothing that is shown |
| OutboundControl.Component.ChangeControl | apps/web/components/admin-outbound-control.tsx:43-54 | A request is sent exactly under the guards of role, reason, flags and confirmation, and asks to enable exactly when the shown switch is off |
| OutboundControl.Component.ChangeSettled | apps/web/components/admin-outbound-control.tsx:55-69 | Answer, failure and finally of a change, each only for the newest number |
| LiveEvents.RegistryIsExact | apps/api/src/call-service.ts:754-763 | With each handle used at most once, and no function listening twice to a call at a time, the registry holds exactly the live subscribers, each once, and no empty set |
| LiveEvents.SecondUse | apps/api/src/call-service.ts:759-762 | Using a handle again changes somebody's subscription if and only if the call has a newer set, whose listeners are all cut off, or the same function has joined the same set again, which loses it |
| LiveEvents.SecondUseCutsOff | apps/api/src/call-service.ts:759-762 | Such a newer set arises when a subscriber joins after the last one left |
| LiveEvents.JoinKeepsInv | apps/api/src/call-service.ts:754-757 | Joining, also again after leaving, keeps the correspondence of handles, sets and the registry |
| LiveEvents.LeaveKeepsInv | apps/api/src/call-service.ts:759-762 | Leaving keeps it, also when the last subscriber drops the set |
| LiveEvents.Instance.Subscribe | apps/api/src/call-service.ts:754-763 | The new registry and the handle that remembers the set object |
| LiveEvents.Instance.Unsubscribe | apps/api/src/call-service.ts:759-762 | The remembered set loses the subscriber; the call is dropped if that set is empty |
| LiveEvents.Instance.Publish | apps/api/src/call-service.ts:1962-1970 | Each current subscriber gets the event once, in order; a signal follows exactly for other events than transcript deltas in a publishing mode |
| LiveEvents.Instance.HandleRemoteCallChange | apps/api/src/call-service.ts:1978-1988 | A signal is followed up only from another instance and with listeners here; after the read each listener of that moment gets one update, none when the call is gone |
| LiveEventRuns.ToldOnce | apps/api/src/call-service.ts:1962-1988 | In any run over any instances no subscriber is told about the same change twice |
| LiveEventRuns.LocalDelivery | apps/api/src/call-service.ts:1962-1963 | A published event is told to exactly the subscribers listening there at that moment, and the rest of the run adds none there |
| LiveEventRuns.RemoteDelivery | apps/api/src/call-service.ts:1962-1988 | A signal that is not lost reaches exactly the listeners of the moment on another instance, if the modes of the two instances and the event call for one and the call is still there |
| LiveEventRuns.ListenersComeAndGo | apps/api/src/call-service.ts:754-763 | Joining and leaving change who listens by exactly that subscriber, call and instance |
| LiveEventRuns.SignalsAreUsedUp | apps/api/src/call-service.ts:1978-1988 | A lost signal tells nobody, and one that was followed up is gone |
| LiveEventRuns.NoEcho | apps/api/src/call-service.ts:1978-1982 | No instance is ever told about its own change by its own signal |
| LiveEventRuns.ReceivingSendsNothing | apps/api/src/call-service.ts:1978-1988 | In every run there are exactly as many changes as were published, and each signal under way belongs to one of them, for an event and between instances whose modes call for it |
| LiveEventRuns.StepKeepsInv | apps/api/src/call-service.ts:1962-1988 | Every step keeps: distinct listeners, an entry-free log for a change still on its way, and no follow-up of an own signal |
| SessionCookie.TokenRoundTrip | apps/api/src/app.ts:3016-3042 | Among any other cookies in any order the server reads back exactly the token that it set, if it is non-empty, without ";" and without surrounding blanks |
| SessionCookie.NoTokenAfterwards | apps/api/src/app.ts:3044-3064 | After a clearing header, or one set with no time left, no token is read |
| SessionCookie.ModesAreSeparate | apps/api/src/app.ts:2986-2987 | Setting or ending the session of one mode leaves what the other mode reads as it was |
| SessionCookie.ParserLooksUp | apps/api/src/app.ts:3000-3014 | On any header of clean pairs the parser returns the value of the first pair with the session's name, and none for an empty value |
| SessionCookie.SessionTokenFromHeaders | apps/api/src/app.ts:3000-3014 | The early-return loop finds what the first part with the name holds |
| SessionCookie.PairRead | apps/api/src/app.ts:3010-3011 | A clean pair, with "=" allowed in its value, is read back with or without a space in front |
| SessionCookie.AttributesOfMode | apps/api/src/app.ts:3029-3041 | Every session cookie is HttpOnly, SameSite=Lax and for the whole site, and Secure exactly in production |
| SessionCookie.PrefixIsEnforced | apps/api/src/app.ts:2986-2987 | Without the secure attribute a browser keeps nothing under the production name |
| SessionCookie.Received | apps/api/src/app.ts:3029-3041 | The header stores the token under the mode's name, or removes it when the age is zero, and meets the rules of the name prefix |
| SessionCookie.SplitJoined | apps/api/src/app.ts:3009-3009 | Splitting the header at ";" gives its parts with their leading spaces |
| MarkdownBlocks.Markdown | Design/system-2026-09-07/build-docs.py:15-44 | The parser ends with pieces that cover the document line by line, each well formed and as long as its kind allows; its output and contents are those of the pieces |
| MarkdownBlocks.ReadingIsUnique | Design/system-2026-09-07/build-docs.py:15-44 | A document has one reading into pieces, and that reading uses up exactly its lines |
| MarkdownBlocks.NothingLost | Design/system-2026-09-07/build-docs.py:17-43 | The lines of the pieces, in order, are the document: every line is consumed exactly once, also after an unterminated fence |
| MarkdownBlocks.OneReading | Design/system-2026-09-07/build-docs.py:17-43 | The lines determine their pieces: any two such coverings are equal |
| MarkdownBlocks.AnchorsDistinct | Design/system-2026-09-07/build-docs.py:25-27 | No two headings share an anchor |
| MarkdownBlocks.ContentsAreHeadings | Design/system-2026-09-07/build-docs.py:28-28 | The contents list is exactly the level-2 headings of the document, in order, each once |
| MarkdownBlocks.TextIsShown | Design/system-2026-09-07/build-docs.py:15-44 | The blocks show all text of the document, in order: every line but the blank ones and the fences |
| MarkdownBlocks.BlockShows | Design/system-2026-09-07/build-docs.py:20-43 | Each block shows the text of its piece and is of its kind; a list is numbered or its first item has a bullet |
| MarkdownBlocks.HeadingsAreRead | Design/system-2026-09-07/build-docs.py:24-27 | One to four "#", a space and a text are read back as that level and text |
| MarkdownBlocks.HeadingShows | Design/system-2026-09-07/build-docs.py:24-27 | Nothing else is a heading |
| MarkdownBlocks.ItemsAreRead | Design/system-2026-09-07/build-docs.py:36-38 | A bullet, or digits and a period, and a space make an item |
| MarkdownBlocks.ItemsHaveMarks | Design/system-2026-09-07/build-docs.py:36-38 | Nothing else is an item |
| MarkdownBlocks.LinesAreRead | Design/system-2026-09-07/build-docs.py:19-43 | What a line starts, and whether it continues a paragraph, by its first characters |
| MarkdownBlocks.AnchorsNumbered | Design/system-2026-09-07/build-docs.py:26-27 | Headings carry anchors of strictly growing numbers |
| MarkdownBlocks.TakeRun | Design/system-2026-09-07/build-docs.py:31-32 | The inner loop takes in the longest run of lines that fit |
| MarkdownBlocks.TakeCode | Design/system-2026-09-07/build-docs.py:21-23 | The fence loop takes in the lines up to the next fence or the end |
| MarkdownBlocks.SameLength | Design/system-2026-09-07/build-docs.py:20-43 | Two pieces that start at the same line end at the same line |
| ReviewConsolidation.Consolidate | Design/implementation-2026-09-07/consolidate-review.py:10-28 | For each key exactly its last accepted record with that record's index, in the order of first acceptance; the excluded counts are those of the two reasons |
| ReviewConsolidation.VerdictTells | Design/implementation-2026-09-07/consolidate-review.py:12-24 | Why a record is left out: wrong size, loading, without its theme, or else not on the page that its name asks for |
| ReviewConsolidation.NoneUncounted | Design/implementation-2026-09-07/consolidate-review.py:12-24 | Accepted and excluded records add up to the total |
| ReviewConsolidation.Replace | Design/implementation-2026-09-07/consolidate-review.py:25-26 | Assigning an existing key keeps its position and takes the new record |
| ReviewConsolidation.Append | Design/implementation-2026-09-07/consolidate-review.py:25-26 | A new key goes to the end |

## Left out

- CallLeg.CoveredUnlessLetGo: counts a provider stop as cover once it is issued, not once the provider accepted it, as the source's own branches do.
- CallLeg.OutstandingDeadlineStops: due times, lease lengths and the two-second and sixty-second delays are abstracted, since any queued job may be claimed at any moment; no liveness of the worker is claimed.
- CallProcess.CallService.Start: the statuses before "ready", the destination check and the mock provider's scheduled status changes are not modelled.
- CallProcess.CallService.Stop: publication of events, outcome synchronisation and waking the worker after the local stop are not modelled.
- AnsweringDispatch.JobExactlyIfTargetSeen: speaks of the job at the end of the request; a deletion may still cancel it before the hang-up is issued.
- AnsweringDispatch.AtMostOneUpdate: a live update counts when it is issued; what the provider makes of an update whose answer was lost is not modelled, nor is the TwiML text; an attempt's terminal status and its end time are taken to be written together, as the repository does.
- RecordingDeletion.DeletedOnlyAfterProvider: one call with one recording; transcripts and archives are not modelled.
- Preparation.PreparationJob.RunToEnd: cancellation by a deletion is in PreparationRuns; the compiler's provider requests, checkpoints and heartbeats are outside the attempt; the wall clock is an integer that does not go back; attempts follow one another, overlapping ones are in PreparationRuns.
- PreparationRuns.PublishedOnceInTime: there is one clock, where the source has that of the database and those of its workers; a job is not prepared again once it has ended; every claim has a fence of its own, as worker, generation and attempt number together give it.
- UsageReport.ReportBuilder.Build: prices come from an arbitrary function of the bucket, string orders from arbitrary total preorders, of which only the code unit order is taken to tell different strings apart; fields copied through unchanged are not modelled.
- Slogan.SloganLayout: font metrics are an arbitrary advance per text, with growth assumed only where minimality needs it; which characters are supported is an arbitrary predicate; NFC normalisation is not modelled and lengths count characters.
- SocialCrop.EditorAccepted: arithmetic over exact reals, without floating-point rounding; image decoding, orientation and resizing are not modelled, and the browser and the server are taken to see the same image size.
- AccountExport.ListCalls: the reads inside one snapshot that insist on the call are one step, the last of them, since a deletion is permanent; any other storage failure, which also rejects the export, and the sanitising copies are not modelled; ids and timestamps are ordered as integers.
- OutboundControl.FlagsAreTrue: each handler is taken to see the latest rendered state; unmounting ends a component for good once a change was sent.
- LiveEventRuns.ToldOnce: the channel may delay, reorder and lose signals but not duplicate them; subscribers do not join or leave inside a delivery; instances do not come and go.
- LiveEvents.RegistryIsExact: set objects are numbered values in the registry, so that a handle can refer to a dropped one.
- SessionCookie.TokenRoundTrip: of the browser only the name-value pair, the name prefix rule and an age of zero are modelled; computing the age from the clock is not.
- MarkdownBlocks.Markdown: cutting the text into lines and rendering inline markup, cells and list items as HTML are not modelled; the outputs are block values.
- ReviewConsolidation.Consolidate: reading and writing the files and the issue summary are not modelled.
- The answer-detection deadline, post-call transcription, timers other than the maximum duration, pricing tables, HTTP routes, schemas, rate limits and authorization would only add easy members or depend on code outside these files.
- Protocol state machines are values rather than objects: they quantify over interleavings, which one object's methods cannot.
