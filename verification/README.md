# Verification of Worktree Control's concurrent core

A Dafny model of the parts of Worktree Control where several things happen at once or where one text must be read
back exactly as it was written, with proofs of the properties the code is built around.

How the model is written:

* **Step machines.** Code with awaits, timers, child processes or other processes is a state, an event type, `Enabled`
  and `Next`. A step is one synchronous stretch of the original (in-process code) or one file-system call (code shared
  by processes). Lemmas about histories hold for every interleaving of every length, including crashes.
* **Objects.** Where the original mutates an object in a loop, a class has the same fields and methods. Each method
  states its whole new state as the step function of the old one. Where the steps have an invariant the class has it as
  `Valid()`, and each call keeps it or says exactly when it does, so the lemmas about the steps are lemmas about the
  class. Fields marked `ghost`, and numbers that name calls, jobs or sessions, are histories the properties speak of.
* **Pure code** is functions, compared with an independent reference wherever there is one: writing each line alone,
  reading a whole text at once, escaping in one pass, counting from scratch.

What the outside world decides (command results, short reads, write failures, clocks, random identifiers, crashes) is a
parameter or an event, never a constant. SHA-256 is an arbitrary function.

## What was found

Places where the code does not meet the expectation one would bring to it. Each has the exact condition and a concrete
input or a reachable history.

* A run cancelled during its preflight keeps its `queued` record until its log is closed. If the preflight answers
  `match` first, the run starts although cancelled, possibly beside another run in the same worktree, and its slot is
  freed without stopping its process group (`CancelledRunStartsBesideAnother`, `StepKeepsExactlyWhenAllowed`,
  `TooLateFreesALiveSlot`).
* The output timer can store `passed` before the finish observation; a controller that dies then leaves that verdict
  behind (`EarlyVerdictIsReachable`, `TimerStoresEarlyVerdictExactly`, `EarlyVerdictSurvivesRestart`).
* Enqueue and finish are never compared directly, so `observed_match` lets their commits differ exactly when the
  preflight names none (`EndsAgreeExactlyThroughPreflight`).
* A comment longer than 64 KiB, or a line at the limit with its carriage return, is accepted or refused by the
  dashboard's event reader depending on how the network cut it (`ChunkingIrrelevantExactly`, `LongCommentReadsTwoWays`).
* A test log that is opened again between pruning's check and its unlink is removed although its run is open
  (`ReopenedLogIsLost`, `UnlinksDeadExactly`). The test queue opens each log once, for a run with a new id, so this input
  exists at the log writer's own interface only.
* A drop-in whose write fails half-way is not in the rollback's record: it is the one thing that differs after the
  rollback (`RollbackRestoresExactly`, `PartialDropInStays`).
* A rollback that cannot delete or rewrite a file ends there: a legacy service that was active and has been told to stop
  is not started again (`RollbackCompletesExactly`, `FailedRemovalStrandsLegacy`).
* The unit reader accepts carriage returns and dollar signs that the unit writer refuses
  (`AcceptedCommandPrintsBackExactly`, `DollarIsReadButNotWritten`).
* Two processes that retry one failed restore at once are answered with different operations
  (`ConcurrentRetriesDisagree`; `LegalExactly` says which rewrites come too late). Within one process that cannot happen
  (`OneProcessAdmissionsAgree`).
* `initialize` on a session closed before it was initialized shifts two gauges for good, by exactly the number of such
  calls (`GaugesDriftByLateSteps`, `LateInitializationIsCounted`).
* The lock's third attempt is never made (`SecondAttemptCreates`), and a guard left by a crash blocks every later
  acquisition until an operator looks (`AbandonedGuardBlocks`), as its documentation says.

## Model

| member | source | states |
|---|---|---|
| SourceAttribution.CollectObservationReasons | src/server/test-source-attribution.ts:24-32 | the loop over observations collects the reasons of each, in order and without repetition, cut at twelve |
| SourceAttribution.QualifyIdempotent | src/server/test-source-attribution.ts:34-45 | qualifying qualified evidence changes nothing, even when its reason list was cut |
| SourceAttribution.ObservedMatchExactly | src/server/test-source-attribution.ts:34-45 | the positive verdict is given exactly when all three observations are complete and clean and neither neighbouring pair disagrees on head, branch or digest |
| SourceAttribution.ObservedMatchIsOneSource | src/server/test-source-attribution.ts:15-45 | with head and digest present throughout, the positive verdict means one head and one digest, although only neighbours are compared |
| SourceAttribution.OtherVerdictsExactly | src/server/test-source-attribution.ts:34-45 | the source counts as changed exactly if a neighbouring pair disagrees, and as uncertain exactly if it neither changed nor is confirmed |
| SourceAttribution.ReasonsExactly | src/server/test-source-attribution.ts:24-45 | unless its list is full, qualified evidence names a reason exactly if it named it before or an observation or a change gives it |
| SourceAttribution.EndsAgreeExactlyThroughPreflight | src/server/test-source-attribution.ts:15-22 | without that, the ends may name different commits exactly when the preflight names none |
| TestQueueHistories.StepKeepsExactlyWhenAllowed | src/server/test-job-manager.ts:98-164 | a step keeps the queue invariant (per-run soundness and worktree exclusion) if and only if it is no preflight answer that starts a run whose cancellation is being stored |
| TestQueueHistories.StepKeepsAwake | src/server/test-job-manager.ts:184-212 | every such step leaves the pump pending, a finalization in flight, or nothing in the queue admissible |
| TestQueueHistories.AdmitAllKeeps | src/server/test-job-manager.ts:194-206 | the admission loop keeps the invariant, stays within the limit and never admits into an occupied worktree |
| TestQueueSafety.PreflightAnsweredGood | src/server/test-job-manager.ts:214-250 | the preflight's answer leaves its run sound if and only if it does not start one that was cancelled meanwhile |
| TestQueueSafety.FinishObservedGood | src/server/test-job-manager.ts:317-337 | judging a finished process and its finish observation keeps the run sound: `passed` only with a clean exit and a matching source |
| TestQueueResults.SlotsAreExclusive | src/server/test-job-manager.ts:184-307 | in every reachable state no two runs in `active` or `preparing` share a worktree |
| TestQueueResults.NoLostWakeup | src/server/test-job-manager.ts:184-249 | in every reachable state: closed, pump pending, finalization in flight, or every queued run is blocked by the limit or an occupied worktree |
| TestQueueResults.OccupancyWithinLimit | src/server/test-job-manager.ts:184-206 | in every reachable state, a step that raises the number of slots leaves it within the limit in force |
| TestQueueResults.OccupancyIsBounded | src/server/test-job-manager.ts:166-206 | over every history, whatever the limit is set to, never more than its maximum of sixteen slots are taken |
| TestQueueResults.SlotsOutliveProcesses | src/server/test-job-manager.ts:309-422 | in every reachable state, a slot with a process is freed only after its process group was stopped |
| TestQueueResults.TooLateFreesALiveSlot | src/server/test-job-manager.ts:221-236 | every excluded answer does start a process whose slot the finalization in flight then frees unstopped |
| TestQueueResults.AdmittedIsFirst | src/server/test-job-manager.ts:196-206 | an admitted run was the first of its worktree in the queue, and its worktree was free |
| TestQueueResults.AdmittedOldestFirst | src/server/test-job-manager.ts:191-206 | a run of a worktree is admitted before every other one waiting for it that was queued later |
| TestQueueResults.PumpAdmitsAs | src/server/test-job-manager.ts:205-219 | an observed run admitted by the pump awaits its preflight in its slot and has no process; any other has started, unless starting it failed |
| TestQueueResults.PassedMeans | src/server/test-job-manager.ts:309-348 | in every reachable state a run ended as `passed` exited with 0 and without errors; an observed one was complete and clean at all three moments, and where they name a commit and a digest, it was one commit and one digest |
| TestQueueResults.PassIsEarned | src/server/test-job-manager.ts:309-411 | in every reachable state the finalization stores `passed` if and only if the process reported 0, uncancelled and in time, its log closed, and an observed source was confirmed |
| TestQueueResults.JudgementExactly | src/server/test-job-manager.ts:317-320 | when the output has closed a run is judged cancelled, timed out, passed or failed by its flags, in that order, and then by what the process reported |
| TestQueueResults.VerdictFollowsFlags | src/server/test-job-manager.ts:317-411 | in every reachable state what is stored for a run with a process follows its flags: cancelled exactly if that was requested, timed out exactly if it was judged so |
| TestQueueResults.TimerStoresEarlyVerdictExactly | src/server/test-job-manager.ts:464-472 | the output timer stores `passed` exactly while the finish observation of a run that succeeded is awaited |
| TestQueueResults.EarlyVerdictSurvivesRestart | src/server/test-job-manager.ts:464-472 | that verdict survives a restart without a finish observation |
| TestQueueResults.RestartIsInitial | src/server/test-job-manager.ts:59-66 | any other restart begins with every unfinished run interrupted and every kept verdict earned |
| TestQueueCounterexample.CancelledRunStartsBesideAnother | src/server/test-job-manager.ts:147-158 | a reachable history in which the late answer puts two runs into one worktree |
| TestQueueEarlyVerdict.EarlyVerdictIsReachable | src/server/test-job-manager.ts:464-472 | a reachable history, without such an answer, in which `passed` is stored before its finish observation and kept by a restart |
| TestJobManagers.TestJobManager.Enqueue | src/server/test-job-manager.ts:98-145 | a closed queue refuses, a key is replayed for the same target only, and a full queue refuses; else a new run of this input is stored under its key and the pump woken; the queue stays sound |
| TestJobManagers.TestJobManager.Cancel | src/server/test-job-manager.ts:147-164 | an agent may cancel its own runs only; a queued run gives up its place and is being stored as cancelled, a running process is marked and its cleanup begins, anything else stays as it is |
| TestJobManagers.TestJobManager.RunPump | src/server/test-job-manager.ts:187-211 | the pump's loops (listing, finding a free worktree, splicing) admit exactly the runs the one-pass specification admits, and keep the object sound |
| TestJobManagers.TestJobManager.PreflightAnswered | src/server/test-job-manager.ts:221-236 | the preflight's answer starts the run exactly over the source that was queued, and else fails it for the right reason; it leaves the object sound if and only if it does not start a run whose cancellation is being stored |
| TestJobManagers.TestJobManager.OutputCloses | src/server/test-job-manager.ts:315-320 | a run whose output has closed is judged by its flags and its report, and one that failed names an error by the time it is finished |
| TestJobManagers.TestJobManager.GroupStopFails | src/server/test-job-manager.ts:338-343 | a cleanup that failed keeps the slot and its worktree, stores why, and can be tried again |
| TestJobManagers.TestJobManager.FinishObserved | src/server/test-job-manager.ts:321-337 | after the finish observation a run that succeeded stays `passed` if and only if its source is unbroken over all three moments, a failed one names an error, and its finalization is under way |
| TestJobManagers.TestJobManager.FinalizationStores | src/server/test-job-manager.ts:401-412 | the run is stored as it was judged, a log that failed turns a pass into a failure, and its slot is free |
| ControllerLock.MutualExclusion | src/server/controller-lock.ts:23-85 | over every interleaving and crash at most one live process owns the lock, and the file carries exactly its record |
| ControllerLock.RecordStaysUntilOwnRelease | src/server/controller-lock.ts:57-81 | a live owner's record is changed by nothing but that owner's release |
| ControllerLock.SecondAttemptCreates | src/server/controller-lock.ts:46-84 | after one replacement the file is absent, so the third attempt and the final error are never reached |
| ControllerLock.UncontendedAcquires | src/server/controller-lock.ts:29-71 | a process left alone gets the lock over no file or a dead owner's, by its own calls |
| ControllerLock.AbandonedGuardBlocks | src/server/controller-lock.ts:28-36 | a guard whose maker died lets nobody acquire until an operator removes it |
| ControllerLockFiles.AcquireControllerLock | src/server/controller-lock.ts:23-85 | undisturbed, it succeeds if and only if there is no guard, the lock is free and the write succeeds; each refusal is given exactly for its own cause, a live owner always with its process id, and only a failed write or a success changes the file |
| ControllerLockFiles.LockHandle.Release | src/server/controller-lock.ts:57-69 | it removes the file at most once and only while it carries its own token |
| DashboardEvents.ConsumeDashboardEvents | src/features/dashboard/dashboard-events.ts:34-47 | the reading loops deliver what the specification over chunks delivers |
| DashboardEvents.ChunkingIrrelevantExactly | src/features/dashboard/dashboard-events.ts:34-47 | every cutting of a text reads like the whole text if and only if it holds no over-long line that the line rules let pass |
| DashboardEvents.LongLineAcceptedExactly | src/features/dashboard/dashboard-events.ts:16-32 | those lines are comments, and a line of exactly the limit before its carriage return |
| DashboardEvents.FieldLineMeans | src/features/dashboard/dashboard-events.ts:16-32 | what a field line does: `data` adds its value, `event` names the event, any other only counts towards the limit |
| DashboardEvents.BlankLineMeans | src/features/dashboard/dashboard-events.ts:16-22 | a blank line delivers the lines gathered, joined by line feeds, if there are any, and starts afresh |
| DashboardEvents.LongCommentReadsTwoWays | src/features/dashboard/dashboard-events.ts:34-47 | an event behind a long comment: delivered when the text comes in one piece, refused when it is cut behind the comment |
| DashboardEvents.FramesRead | src/server/events.ts:24-55 | the text of a list of server frames within the limit reads as exactly those events |
| DashboardEvents.StreamRoundTrip | src/features/dashboard/dashboard-events.ts:8-54 | however the frames' text is cut, the client delivers exactly the events sent |
| EventStreams.EventStream.Publish | src/server/events.ts:31-64 | the publication loop yields the specified pending kinds, ids and timer |
| EventStreams.CollectIdsOutcome | src/server/events.ts:33-40 | collecting ids keeps at most 128, covers each, or says all projects |
| EventStreams.PublishPends | src/server/events.ts:31-42 | a publication is added to what the pending fields stand for |
| EventStreams.EachChangeCoversItsWindow | src/server/events.ts:31-62 | over every history, each connected client is written one frame when the timer fires, and it tells of exactly what was published since the change before it; nobody else is written anything, and clients with a full buffer are dropped |
| EventStreams.PublicationsAreSentExactly | src/server/events.ts:41-62 | what was published since the last change has a timer running for it if and only if the stream was not closed while one was running |
| EventStreams.ClientsMissNothing | src/server/events.ts:24-62 | the revisions a connected client is sent increase without a gap from the one it was greeted with |
| RotatingLog.HistoryRecords | src/server/log-writer.ts:28-70 | over every history the files hold the accepted lines as if each were written alone; after a failure, the first of them and at most a part of the one batch whose write failed |
| RotatingLog.CloseLosesNothing | src/server/log-writer.ts:28-82 | without an I/O failure every line written before `close` is on disk, in order, when it resolves |
| RotatingLog.BatchIsLines | src/server/log-writer.ts:50-59 | one write of a batch is the same as writing its lines one by one |
| RotatingLog.LinesStayWhole | src/server/log-writer.ts:28-70 | at every moment of every history, in flight or failed, the two files hold consecutive whole lines, none split, moved or lost between them, except that part of one batch |
| RotatingLog.FilesStayBounded | src/server/log-writer.ts:28-70 | at every moment of every history only a single line or the initial content can exceed 5 MiB, in either file |
| RotatingLog.DrainEnds | src/server/log-writer.ts:37-69 | a drain left alone writes all it has and stops |
| RotatingLogFiles.RotatingLogFile.FillBatch | src/server/log-writer.ts:50-57 | the inner loop takes exactly the lines that fit the batch and the file, and counts their bytes |
| RotatingLogFiles.RotatingLogFile.Resume | src/server/log-writer.ts:37-60 | each stretch between awaits is the step of the specification, and keeps what the drain knows at its next await; it never takes a line from an empty queue |
| LogPruning.CallsAreServed | src/server/log-writer.ts:140-169 | when a prune call resolves, a whole scan began after it, and each file that scan found was unlinked, or at some moment of it was no test log or that of an open, finishing or retained run |
| LogPruning.CallsAreSettled | src/server/log-writer.ts:140-169 | every call before closing is settled once, in order, and none is left when no pruning is under way |
| LogPruning.UnlinksDeadExactly | src/server/log-writer.ts:151-160 | no log of an open, finishing or retained run is being unlinked, until a step revives the run |
| LogPruning.LiveLogsAreSpared | src/server/log-writer.ts:118-160 | over every history without such a step |
| LogPruning.ReopenedLogIsLost | src/server/log-writer.ts:118-160 | a reachable state in which the log of a run that is open, and is on disk, is being unlinked: the next step removes it |
| SystemdArguments.QuoteBodyIsEscape | src/cli/service-manager.ts:830-833 | the three replacements in their order are one-pass escaping: no escape is escaped again |
| SystemdArguments.PrintedCommandReadsBack | src/cli/service-manager.ts:166-172 | reading a printed command returns the arguments, for any characters |
| SystemdArguments.SpecifierFreeExactly | src/cli/service-manager.ts:169-171 | a matched body passes the percent check exactly when printing could have written it |
| SystemdArguments.AcceptedCommandPrintsBackExactly | src/cli/service-manager.ts:830-833 | printing any accepted command gives the same text if and only if the text has no NUL, line break or dollar |
| SystemdUnits.RenderedUnitReadsBack | src/cli/service-manager.ts:158-184 | the start arguments of any unit that can be rendered are read back unchanged, whatever else the unit holds |
| SystemdUnits.RenderSucceedsExactly | src/cli/service-manager.ts:806-838 | rendering succeeds exactly for printable arguments and paths and an absolute directory |
| SystemdUnits.InheritsFrom | src/cli/service-manager.ts:154-163 | the legacy definition is read only where the new one is missing, none if both are, and only a regular file of at most 256 KiB |
| SystemdUnits.UnbrokenDefinitionReadsBack | src/cli/service-manager.ts:158-184 | an installed definition with any arguments free of NUL and line breaks gives them back, dollar signs included |
| SystemdUnits.DollarIsReadButNotWritten | src/cli/service-manager.ts:830-833 | a whole definition whose argument is inherited although the unit that should replace it cannot be rendered |
| ServiceOptions.ParseOptions | src/cli/service-options.ts:23-52 | the loop computes the specified parse in each mode, with each error |
| ServiceOptions.ParseGivesParsed | src/cli/service-options.ts:23-52 | what parsing accepts: known flags once, one valid value each, targets repeatable, nothing both set and unset |
| ServiceOptions.FlattenParses | src/cli/service-options.ts:61-63 | parsing a printed map gives the same map in the same order, for every map parsing can produce |
| ServiceOptions.ResolveServiceInstallArguments | src/cli/service-options.ts:66-81 | the merge loops compute the specified merge or the first parse error |
| ServiceOptions.MergeKeepsEachFlag | src/cli/service-options.ts:69-79 | each flag has its override; else it is absent if unset, disabled, internal or static assets; else it keeps its installed values in order |
| ServiceOptions.MergeKeepsOrder | src/cli/service-options.ts:71-79 | surviving settings keep their order and new ones follow in theirs |
| ServiceOptions.MergeParses | src/cli/service-options.ts:80-87 | the merged command parses again to exactly the merged settings |
| ServiceOptions.ReinstallIsIdempotent | src/cli/service-options.ts:65-81 | installing the result again with the same options changes no setting |
| ServiceOptions.PlainReinstallExactly | src/cli/service-options.ts:72-81 | installing it again without options gives the same command if and only if the assets were not overridden |
| ServiceFlags.ServiceFlagsAreSeparate | src/cli/service-options.ts:6-17 | the repository's own tables meet the premise of these results |
| ServiceInstallTraces.WatchIsStable | src/cli/service-manager.ts:423-446 | the health check passes if and only if every reading between the start and its end ran and named the same process without restarts, over at least the stable time by the clock |
| ServiceInstallTraces.WatchGivesUpForCause | src/cli/service-manager.ts:423-446 | it fails only when a reading failed, stopped or named another process or restart, or came past the deadline |
| ServiceInstallDropIns.MigrateMoves | src/cli/service-manager.ts:343-369 | migration copies and never overwrites; it fails if and only if a file operation or write failed or something odd has the name; what it records undoes it unless a write left a part; the legacy directory is retained if and only if an entry has no equal copy |
| ServiceInstallDropIns.MigrationCopies | src/cli/service-manager.ts:343-369 | a migration that succeeds leaves the new unit every drop-in it lacked, overwrites none, and adds nothing but plain files named `*.conf` |
| ServiceInstallDropIns.RestoreExactly | src/cli/service-manager.ts:380-392 | restoring completes if and only if each of its removals and writes succeeds, and gives back the definition and the directory without the copies |
| ServiceInstallGuarantees.RefusalExactly | src/cli/service-manager.ts:263-280 | the installation is refused, or the definition not written, in exactly these cases, and then nothing on disk changes |
| ServiceInstallGuarantees.LogIsTrue | src/cli/service-manager.ts:263-335 | whatever the outcome, the log grows by the service manager's own answers, in the order of the clock |
| ServiceInstallGuarantees.FailsExactly | src/cli/service-manager.ts:263-335 | it is rolled back if and only if a command was refused, the loaded configuration differs, the readings were broken or not stable in time, or a drop-in could not be copied |
| ServiceInstallGuarantees.ScriptIsFollowed | src/cli/service-manager.ts:281-292 | whether it ends well or not, the commands are these, as far as it gets |
| ServiceInstallGuarantees.StartsOrRestarts | src/cli/service-manager.ts:289-291 | the command that makes the unit run is a restart if and only if a unit that was installed is refreshed, and else a start |
| ServiceInstallGuarantees.SuccessMeansHealthy | src/cli/service-manager.ts:281-299 | otherwise every command of the script succeeded in its order, and the readings between the start and the enabling were stable |
| ServiceInstallGuarantees.RollbackRestoresExactly | src/cli/service-manager.ts:372-417 | after a completed rollback the definition is as before; the drop-ins are too if and only if no write left a part of a file and no removal failed, and a part that was left is all that differs |
| ServiceInstallGuarantees.RollbackCompletesExactly | src/cli/service-manager.ts:372-417 | a failed start is rolled back completely if and only if each removal and write of the rollback succeeds |
| ServiceInstallGuarantees.RollbackStartsWhatWasActive | src/cli/service-manager.ts:372-396 | a rollback stops what was told to start, then, over the restored files, reloads and starts exactly what was found active; one that fails at a file only stops |
| ServiceInstallGuarantees.ActiveLegacyIsRestarted | src/cli/service-manager.ts:393-395 | after a completed rollback a legacy service found active was started again, by the last command of all, over the restored files |
| ServiceInstallGuarantees.LegacyStaysUntilHealthy | src/cli/service-manager.ts:281-305 | every command up to the health check and the enabling saw the legacy definition; it goes only after they succeeded and the legacy unit was disabled |
| ServiceInstallGuarantees.LegacyIsRemovedAtLast | src/cli/service-manager.ts:300-305 | an installation over a legacy unit that ends well disabled it, deleted its definition and reloaded, and deleted its drop-in directory exactly if each entry has an equal copy |
| ServiceInstallGuarantees.LegacyDropInsAreKept | src/cli/service-manager.ts:300-303 | the legacy drop-in directory is deleted only if each of its entries has an equal copy |
| ServiceInstallGuarantees.PartialDropInStays | src/cli/service-manager.ts:343-417 | a world in which a drop-in written half-way, and its directory, remain after the rollback |
| ServiceInstallGuarantees.FailedRemovalStrandsLegacy | src/cli/service-manager.ts:372-395 | a world in which a failed removal ends the rollback before the active legacy service is started again |
| ServiceManagers.ServiceManager.MigrateDropIns | src/cli/service-manager.ts:343-369 | the loop over the entries, with the record it fills in, is the specified migration |
| ServiceManagers.ServiceManager.WaitUntilHealthy | src/cli/service-manager.ts:423-446 | the polling loop, with its baseline and deadline, is the specified check |
| ServiceManagers.ServiceManager.Install | src/cli/service-manager.ts:263-335 | for arbitrary answers, delays and file outcomes, the object's result and state are those of the function the guarantees are about |
| GitAdmission.StepKeeps | src/server/git-worktrees.ts:31-69 | counters, limits, queue bounds, one place per command, and no waiting command that could run |
| GitAdmission.LimitsHold | src/server/git-worktrees.ts:21-69 | over every history: running within the limit, remote within its own and within running |
| GitAdmission.NothingWaitsInVain | src/server/git-worktrees.ts:52-69 | over every history a command waits only while the limit is reached, or as a remote one while theirs is |
| GitAdmission.OperationalWaitIsBounded | src/server/git-worktrees.ts:52-69 | an operational command at position k has started by the (k+1)-th completion, whatever else arrives |
| GitAdmission.OperationalComesFirst | src/server/git-worktrees.ts:52-56 | any other command starts only when no operational one waits |
| GitAdmission.BackgroundYields | src/server/git-worktrees.ts:52-56 | a background command starts only when no operational one waits and no remote one could run instead |
| GitAdmission.NothingStartsAfterClose | src/server/git-worktrees.ts:45-53 | over every history after `close` nothing waits or starts, and every command ever submitted is settled or still running |
| GitAdmission.OutcomesStay | src/server/git-worktrees.ts:31-69 | over every history a settled command keeps its outcome and never runs again |
| GitCommandAdmissions.GitCommandAdmission.Pump | src/server/git-worktrees.ts:52-69 | the loop over the three queues starts exactly the commands the specification starts |
| GitCommandAdmissions.GitCommandAdmission.Run | src/server/git-worktrees.ts:31-43 | a command is taken if and only if the admission is open and the queue of its class has room, and then waits or runs under that class; else it is refused |
| AttachmentObjects.ObjectsNeverChange | src/server/attachment-objects.ts:98-157 | whatever the store held, no interleaving of publishers and crashes changes or removes a published object |
| AttachmentObjects.HistoriesKeep | src/server/attachment-objects.ts:107-157 | from a store whose objects match their names, every interleaving with crashes keeps that true |
| AttachmentObjects.ReturnedMeansPresent | src/server/attachment-objects.ts:107-157 | a successful return means matching bytes are present: the given ones unless two contents share digest and size |
| AttachmentObjects.RacingPublisherReturnsExactly | src/server/attachment-objects.ts:146-153 | a publisher that lost the race succeeds too, unless the winner's size betrays a collision |
| AttachmentObjects.ExistingObjectExactly | src/server/attachment-objects.ts:107-131 | an object that is there already is returned if and only if it matches, and a given source file does too |
| AttachmentFiles.Verify | src/server/attachment-objects.ts:67-87 | over short reads and writes, it accepts exactly matching files, and a copy holds exactly the bytes read |
| AttachmentFiles.WriteAll | src/server/attachment-objects.ts:132-137 | repeated short writes append the whole buffer, or stop with a prefix at a write that took nothing |
| AttachmentFiles.PublishBytes | src/server/attachment-objects.ts:107-157 | undisturbed, it is refused exactly for bytes or an existing object that do not match, and touches no other object |
| RestoreRequests.LegalExactly | src/server/restore-requests.ts:55-105 | a step changes receipts as intended (a new operation only after a failure, nothing after verification) if and only if it is no belated rewrite |
| RestoreRequests.AdmissionsAgree | src/server/restore-requests.ts:55-105 | over histories without a belated rewrite, two admissions under one key name the same operation if the receipt was at no moment between them failed or interrupted, with racing publishers and crashes around the link |
| RestoreRequests.PrepareMeans | src/server/restore-requests.ts:55-69 | what a caller is told: a conflict for another backup, a new operation for a failed or interrupted receipt, its own for any other, and validation or a full directory where there is none |
| RestoreRequests.PromptIsTimely | src/server/restore-requests.ts:55-129 | no rewrite is belated in a history where each read that leads to one is directly followed by it or by a crash, as within one process |
| RestoreRequests.OneProcessAdmissionsAgree | src/server/restore-requests.ts:55-105 | so in one process, however its calls interleave and wherever it crashes, such admissions agree |
| RestoreRequests.VerifiedStays | src/server/restore-requests.ts:113-129 | over histories without a belated rewrite a verified receipt never changes |
| RestoreRequests.OneProcessVerifiedStays | src/server/restore-requests.ts:113-129 | in one process a verified receipt never changes |
| RestoreRequests.KeyStandsForOneBackup | src/server/restore-requests.ts:45-69 | once a key has a receipt, over every history a request for another backup under it is refused and changes nothing |
| RestoreRequests.ConcurrentRetriesDisagree | src/server/restore-requests.ts:59-65 | a reachable history in which two retries are answered with different operations although nothing failed between |
| RequestDirectories.RequestDirectory.PrepareRequest | src/server/restore-requests.ts:55-69 | in one process the call is the read step and directly after it the rewrite it read for, and leaves no rewrite pending |
| RequestDirectories.RequestDirectory.PublishRequest | src/server/restore-requests.ts:92-105 | in one process the call answers with the receipt that is there, a conflict or a full directory, or creates the receipt for its backup and answers with its operation; no temporary file is left |
| RequestDirectories.RequestDirectory.FinishRequest | src/server/restore-requests.ts:173-179 | an outcome is recorded exactly for the operation and backup the receipt names, unless it is verified |
| RequestDirectories.RequestDirectory.ExecuteRequest | src/server/restore-requests.ts:113-129 | a restore that succeeds verifies the receipt of its backup; one that throws changes none |
| SessionCounters.StepKeepsExactly | src/server/mcp-diagnostics.ts:56-94 | a step keeps every counter in agreement with the sessions if and only if it does not initialize a session closed before |
| SessionCounters.InitializeKeepsExactly | src/server/mcp-diagnostics.ts:64 | `initialize` keeps them exactly for an open or already initialized session |
| SessionCounters.GaugesDriftByLateSteps | src/server/mcp-diagnostics.ts:56-94 | over every history the three gauges are the sizes of the disjoint parts of the retained sessions, shifted by the number of late initializations, and always add up to all of them |
| SessionCounters.GaugesAgreeExactly | src/server/mcp-diagnostics.ts:56-94 | so after a history the gauges are right if and only if none of its initializations was late |
| SessionCounters.LateInitializationIsCounted | src/server/mcp-diagnostics.ts:64 | create, close, initialize: nothing is retained, one session is counted as logical and minus one as initializing |
| SessionCounters.TotalsAndReasonsAddUp | src/server/mcp-diagnostics.ts:66-94 | over every history, late initializations included, each total is the sum over all sessions, each reason counts its closures and refusals, and the recent list is a bounded end of the history |
| SessionCounters.TotalsAreApplied | src/server/mcp-diagnostics.ts:66-69 | over every history each total is the sum of the deltas applied to its own gauge |
| SessionCounters.SessionsAreApplied | src/server/mcp-diagnostics.ts:66-69 | and each session's gauges are the sums of the deltas applied to it |
| SessionCounters.RetainedMeans | src/server/mcp-diagnostics.ts:66-94 | every open session is retained, and a closed one only with an operation or an open response |
| McpDiagnosticsObjects.McpDiagnostics.Initialize | src/server/mcp-diagnostics.ts:64 | the object stays valid (gauges, totals and reasons agree with the sessions) if and only if the session is open or was initialized before |
| McpDiagnosticsObjects.McpDiagnostics.Close | src/server/mcp-diagnostics.ts:86-94 | an open session is closed for its reason, counted once, leaves its gauge, and is retained exactly while it has an operation or an open response |
| McpDiagnosticsObjects.McpDiagnostics.DropOld | src/server/mcp-diagnostics.ts:103 | the snapshot drops exactly the leading closures that are too old |

## Left out

Of the modelled files:

- Test queue: run records live in maps from id to value, as in the store, and an `ActiveRun` is a value in such a map, so aliasing between a run and its copies is modelled by writing each copy, not by references.
- Test queue: a child reports once (exit or error), retries of the group stop are one step that succeeds or fails, and output listeners, queue positions, log lines, environments and notifications are not modelled.
- Test queue: the source observer is configured once, and a failure to clean up is not retried by `shutdown` in the model; waiting for settlements there is not modelled.
- Controller lock: owner, mode and alias checks; whether a process exists is taken from the set of live processes. The interleavings are modelled on values, the class is one process undisturbed.
- Event stream: knowledge events, which use their own timer and recipients, and JSON: a payload is a text without line breaks. Decoding bytes into text is not modelled.
- Log writer: time stamps are part of a line, and a rename is atomic. A directory entry is a test log or something else; the listing is taken at one moment.
- systemd: the launchd side, `parseSystemdPathList`, resource drop-in checks and the validation of an installed definition; the comparison of loaded and expected configuration is one answer of the service manager.
- Service install: temporary files of a definition are not modelled, a health round takes at least a millisecond, deleting the legacy drop-in directory succeeds or changes nothing, and a failing existence check or listing is not modelled.
- Service options: `serviceSettingChanges`, which only describes the difference, and the usage texts in error messages.
- Git admission: commands are numbers, an operation returns its promise without throwing, and aborting is not modelled: an aborted command completes like any other.
- Attachment objects: directories, ownership, modes, symbolic links and syncing; a source file may hold anything at each read.
- Restore requests: manifests, staging, the source path and time stamps; the restore journal is one answer. A process is between reading and writing for as long as it likes. Preview directories do not count towards the capacity.
- Session counters: times, connections, renewals, and the order of the sessions in a snapshot.

Of the repository: everything else. The project lifecycle, backups, the MCP session governor, knowledge, SQLite, HTTP
and React appear only where a modelled file calls them.
