# Verified core of the bot runtime

A model of the durable execution core of the bot runtime and proofs about it. Five parts are covered:

* the **job queue** with its write-through store and alert table, and the path by which a failed dispatch is
  reported (`Jobs`, `JobStores`, `QueueSpec`, `JobQueues`, `QueueRuns`, `QueueLaws`, `RetryBudgets`, `AlertLaws`,
  `QueueOutcomes`, `DispatchSpec`, `Dispatches`, `DispatchLaws`, `DispatchOutcomes`, `ReportLaws`);
* the **workflow runtime**: the step interpreter, stored instances, child jobs and recovery
  (`Workflows`, `WorkflowMeaning`, `WorkflowTimes`, `RestingWorkflows`, `WorkflowRuntimes`, `WorkflowStates`,
  `WorkflowRuns`, `WorkflowLaws`, `WorkflowCalls`, `WorkflowOverlaps`, `Passes`, `Recoveries`, `HandOffs`);
* the **scheduler** and its claim protocol over a shared table
  (`ScheduleStores`, `ScheduleSpec`, `Schedulers`, `ScheduleRuns`, `ScheduleLaws`, `ScheduleTicks`,
  `ScheduleRecoveries`);
* the **rollout head** state machine (`RolloutSpec`, `Rollouts`, `RolloutLaws`, `RolloutCalls`);
* **instance configuration** of subprocess plugins, normalised in place
  (`ConfigSpec`, `Schemas`, `ConfigLaws`, `ConfigVerdicts`, `ConfigMerges`, `ConfigObjects`).

`dafny verify dfyconfig.toml` checks everything.

## How it is built

Objects that the program updates are classes (`JobQueue`, `JobStore`, `Dispatcher`, `WorkflowRuntime`, `Scheduler`,
`ScheduleStore`, `RolloutManager`, `RolloutStore`, `StateMap`, `ConfigObject`). Each of their methods is proved equal
to a function on the abstract state, and the results about histories are proved about those functions. One locked
section, or one SQL statement, is one atomic step. The clock reading of a step is a parameter, 0 standing for the zero
time, and so is the answer of the database (`up`, `failing`): a refused write has no effect. Iteration over a map is
an arbitrary choice of the next key, or an arbitrary listing. Jobs are submitted fresh: Pending, within their retry
budget, without lease, due time, error or reason, although Enqueue itself takes any valid status.

A workflow call holds no lock between loading its row and saving it, so its two halves are two events: a call that has
started is in flight, with what it is about to write, until it lands; any number of calls can be in flight for one row,
and a restart loses them. A history also carries a log per workflow, which exists only in the model: the clock readings
under which steps were passed, and the events and child outcomes accepted. `Ran` in `WorkflowMeaning` and `Timed` in
`WorkflowTimes` say what a workflow must be, given its steps, its position and that log. A trigger
brings a workflow as the constructor makes it: at its first step, with empty state.

The functions on the abstract state follow the code. What they mean is said a second time without them: in
`QueueOutcomes`, `DispatchOutcomes`, `RestingWorkflows`, `WorkflowCalls`, `HandOffs`, `ScheduleTicks`,
`ScheduleRecoveries`, `RolloutCalls` and `Schemas`, lemmas named `...Exactly`, `...Leaves` or `...Ends` state, in the
fields of the records and for every input, what an operation answers and what it leaves.

The report of a failed dispatch looks at the job in one section and fails it in a later one; the method and its function
are those of a report that nothing interrupts, and `ReportLaws` treats what happens when something comes in between. The
scheduler results come in two views: `ScheduleRuns` interleaves the statements of any number of schedulers over one table,
`ScheduleLaws` the locked sections of one scheduler, memory included. The cron library is a parameter with two assumed
laws: occurrences lie strictly ahead, and none is skipped.

## Findings

Some natural expectations hold only under a condition. Each is proved with its exact condition or a concrete history.

* Alert ids are trimmed, so two job ids that differ only in surrounding spaces share an alert, and reviving one job
  removes the alert of the other (`ClashLosesAlert`, `AlertsAgreeExactly`). A job whose id is all spaces can never be
  dead-lettered.
* A failure report is not confined to runs: on a paused job with retries left it resumes the job as a retry without
  counting one, and on a waiting job whose budget is spent it is a death (`AcceptedExactly`, `AfterReport`,
  `PausedTakesReport`, `WaitingTakesReport`).
* One dispatch can count more than one retry: a job without a target plugin goes to every plugin that takes jobs, and
  each that fails it claims it again and counts one. At most one is counted, whatever the plugins do, exactly when at
  most one plugin takes the job or at most one retry is left (`OneRetryExactly`); in general the number of takers and the
  budget are the bound, and it is met (`DispatchBounds`, `FailingDispatch`).
* A dispatcher that reports a failure checks that the run is still its own and fails it in separate sections. If the run
  ends and the job is claimed again in between, the report ends the newer run (`LateReportEndsNewerRun`). It is harmless
  exactly when the claim is still held, or the row that it finds takes no report (`LateReportExactly`).
* A workflow call saves what it computed from the row that it loaded, whatever the row has become since. Two deliveries
  that overlap are both accepted and the first outcome is lost; a completed workflow can move back (`LostOutcome`,
  `OverlapLosesOutcome`, with the exact condition for one save in `OutcomesKeptExactly`). When every call lands on the
  row that it loaded, the first outcome wins and no row moves back (`FirstOutcomeWins`, `StepMovesOn`).
* For the same reason two first triggers that overlap start the workflow twice: the later save starts an open run over
  and drops what it has heard (`LateStart`).
* The drive loop of a workflow does not end on an event wait without an event name (`DriveStopsExactly`); every result
  about stored workflows assumes named event waits.
* An outcome of a child job that the workflow had heard when the delivery loaded it is refused, but the hand-off reports
  that as an error when the workflow has gone on to wait for another job (`LateHandOff`).
* Recovery releases claims that are still alive, so each recovery can add a dispatch of an instant that was dispatched
  already (`StolenClaimsDispatchAgain`); without recoveries one registration is one dispatch (`DispatchedOnce`).
* The end of a dispatch acts on whatever plan has the id by then. When a plan is cancelled
  during its dispatch and another one is registered under its id, the end of the dispatch removes the new plan, unless
  that is a cron plan or the delete fails (`OldDispatchEndsNewPlan`, `FinishKeepsExactly`).
* Activation compares versions only: a change of API version in both manifests after Prepare goes unnoticed and the
  prepared API version is installed (`StaleApiVersion`). A call that finds drift prepares anew, so the next attempt with
  the same manifests goes through (`DriftPreparesAnew`).
* Enumerations and object types of configuration values are enforced from the third level down only (`DepthTwoIsLax`).
  Above it an accepted value conforms exactly when the given one did (`UpperLevelsConformExactly`).

## Model

| member | source | states |
|---|---|---|
| QueueLaws.ReachableQueue | packages/runtime-core/job_queue.go:198-388 | after any history of operations, refused writes, crashes and restarts: memory equals the job table; a job is Running exactly while its three lease fields are set, with acquired <= heartbeat <= clock and expiry = heartbeat + TTL; it is Dead exactly when its current value is in the dead list, and no id is there twice |
| QueueLaws.RetryBudget | packages/runtime-core/job_queue.go:256-388 | an accepted job enters Running at most (MaxRetries - RetryCount) + 1 times plus once per dead-letter retry, over every later history |
| QueueLaws.CreditIsConserved | packages/runtime-core/job_queue.go:278-322 | starts plus remaining credit never exceed the initial credit plus the dead-letter retries, from any healthy state |
| QueueLaws.StepPays | packages/runtime-core/job_queue.go:611-676 | every single event, recovery included, pays for a start out of the row's credit or a dead-letter retry |
| QueueLaws.RowAfterStep | packages/runtime-core/job_queue.go:541-676 | an event leaves a stored row alone, does to it exactly what was asked, or recovers it; no event touches another job's row |
| QueueLaws.RestartTwice | packages/runtime-core/job_queue.go:541-609 | after a finished restart nothing is running and each row is the recovered row; a second restart, at the same or a later time, changes neither memory nor tables |
| QueueLaws.QuietSweep | packages/runtime-core/job_queue.go:553-590 | recovery of rows none of which is running writes nothing and cannot fail |
| QueueLaws.SnapshotAddsUp | packages/runtime-core/job_queue.go:546-609 | status counts of the recovery snapshot sum to TotalJobs; its Dead count is DeadJobs and its Retrying count is RetriedJobs |
| QueueLaws.PauseResume | packages/runtime-core/job_queue.go:390-455 | Pause then Resume gives a waiting job back unchanged if and only if it holds no lease and a retry has its due time, a pending job no error, reason or due time |
| QueueLaws.PauseResumeIsIdentity | packages/runtime-core/job_queue.go:390-455 | on every reachable Pending or Retrying job Pause then Resume restores the whole queue state, dead list and tables included, so the ready list is the same again at every instant |
| QueueLaws.AcceptedExactly | packages/plugin-sdk/plugin.go:160-178 | which requests a reachable job accepts, by status: a failure report, beyond runs, is also taken for a paused job with retries left and for a waiting one whose budget is spent |
| QueueLaws.AfterRequest | packages/runtime-core/job_queue.go:234-485 | what claim, heartbeat, completion, cancellation, revival, pause and resume leave of a reachable record, every other field as before |
| QueueLaws.AfterReport | packages/runtime-core/job_queue.go:278-322 | a failure report counts a retry for runs only, buries the job exactly when its budget is spent, and always drops the lease |
| QueueLaws.PausedTakesReport | packages/runtime-core/job_queue.go:278-322 | any job with retries left that is submitted, paused and then reported as failed waits as a retry, with the reported error and no retry counted |
| RetryBudgets.WaitingTakesReport | packages/runtime-core/job_queue.go:278-322 | in any healthy queue, a job submitted with its budget spent dies of a failure report although it was never started |
| RetryBudgets.BudgetIsSpent | packages/runtime-core/job_queue.go:256-388 | the bound on starts is met for every k: a history with k dead-letter retries in which a submitted job enters Running exactly (MaxRetries - RetryCount) + 1 + k times |
| QueueOutcomes.PerformExactly | packages/runtime-core/job_queue.go:234-485 | what each request on a job answers and leaves: unknown ids, refused requests and refused writes change nothing; otherwise the row, its copy in memory, the dead list and, at a death or a revival, the alert are as said, and nothing else changes |
| QueueOutcomes.AfterFailureReport | packages/runtime-core/job_queue.go:264-335 | the whole record that an accepted failure report leaves: a run with budget left waits (RetryCount + 1) seconds, its code that of a retry, of the caller or of a timeout; a spent one is dead, a retry code turned into the code of the end; a paused job keeps its due time |
| QueueOutcomes.HeartbeatExactly | packages/runtime-core/job_queue.go:234-254 | the whole record that a heartbeat leaves of any run, also of one without lease or worker |
| QueueOutcomes.RestartLeaves | packages/runtime-core/job_queue.go:541-676 | after a finished restart memory and table hold the same jobs, each as it was unless it was running; a run is Retrying at the restart instant with one retry more, or Dead once its budget is spent, and its reason and text tell an expired lease, with its worker, from a mere restart |
| QueueOutcomes.RestartsExactly | packages/runtime-core/job_queue.go:553-590 | a restart succeeds if and only if every run that it cuts short can be written back, which a refused write and the death of an all-space id prevent; otherwise no queue is left |
| QueueOutcomes.EnqueueExactly | packages/runtime-core/job_queue.go:198-221 | an id, a kind, a known status and no negative number make a job valid; InvalidJob, AlreadyExists and PersistFailed are answered in that order and change nothing; else exactly that job is added, Pending where its status was blank |
| QueueOutcomes.ReadyExactly | packages/runtime-core/job_queue.go:513-539 | a stored job is in the ready list if and only if it is Pending, or Retrying with its due time reached |
| QueueOutcomes.ReadyInOrder | packages/runtime-core/job_queue.go:523-537 | the ready list is ordered by creation time, and at the same instant by the first byte in which the ids differ |
| QueueOutcomes.FailedRunIsReady | packages/runtime-core/job_queue.go:513-539 | a run that fails at some instant with budget left is in the ready list of an instant if and only if that is at least RetryCount + 1 seconds later |
| QueueOutcomes.SubmittedIsReady | packages/runtime-core/job_queue.go:513-539 | a job that was just submitted is in the ready list of every instant |
| QueueOutcomes.RevivedIsReady | packages/runtime-core/job_queue.go:364-388 | so is a job that was just taken out of the dead-letter list |
| QueueLaws.RetriesOnlyGrow | packages/plugin-sdk/plugin.go:180-228 | over every history RetryCount never falls and MaxRetries never changes |
| QueueLaws.FailInTwoSections | packages/runtime-core/job_queue.go:264-272 | a failure whose reason code was read in an earlier section, with any events in between, leaves exactly what an uninterrupted failure at the later moment would leave |
| QueueRuns.RunKeepsHealthy | packages/runtime-core/job_queue.go:198-676 | the invariant behind these results holds along every legal history |
| QueueRuns.AskKeepsHealthy | packages/runtime-core/job_queue.go:234-485 | each locked operation keeps it, whether it is refused, its write fails or it succeeds |
| QueueRuns.SubmitKeepsHealthy | packages/runtime-core/job_queue.go:198-221 | so does submitting a fresh job |
| QueueRuns.RestartRebuilds | packages/runtime-core/job_queue.go:541-609 | a restart keeps the table's ids, moves each row at most once, and on success leaves memory equal to the recovered table |
| QueueRuns.DecideKeepsShape | packages/plugin-sdk/plugin.go:180-228 | every accepted request keeps a record well shaped: lease exactly while Running, due time on retries, dead-letter flag exactly when Dead |
| QueueRuns.RecoveredKeepsShape | packages/runtime-core/job_queue.go:646-676 | recovery of one record does too, and never leaves it Running |
| QueueRuns.DeadListShrinks | packages/runtime-core/job_queue.go:493-501 | removing the first entry of a revived id leaves a dead list that holds each remaining dead job exactly once |
| Jobs.TerminalStatesAreClosed | packages/plugin-sdk/plugin.go:160-228 | Done, Cancelled and Dead admit no transition, every other status admits one to a different status |
| Jobs.TransitionExactly | packages/plugin-sdk/plugin.go:160-228 | which moves a job admits, and the whole record that each of them leaves |
| JobQueues.JobQueue.Enqueue | packages/runtime-core/job_queue.go:198-221 | refuses an invalid job, a known id and a failed save without effect, else stores and remembers the job; a blank status becomes Pending |
| JobQueues.JobQueue.Heartbeat | packages/runtime-core/job_queue.go:234-254 | renews heartbeat and expiry of a running job, in memory only after the write |
| JobQueues.JobQueue.MarkRunning | packages/runtime-core/job_queue.go:256-258 | the claim: stamps worker and lease, or changes nothing |
| JobQueues.JobQueue.Complete | packages/runtime-core/job_queue.go:260-262 | a run ends Done and drops its lease, or nothing changes |
| JobQueues.JobQueue.FailWithReasonCode | packages/runtime-core/job_queue.go:278-322 | one more retry with its back-off while the budget lasts, else a dead letter with its alert, in one write |
| JobQueues.JobQueue.Fail | packages/runtime-core/job_queue.go:264-272 | the same, with the reason code chosen from the retry budget |
| JobQueues.JobQueue.Timeout | packages/runtime-core/job_queue.go:324-335 | the same, with the timeout reason |
| JobQueues.JobQueue.Retry | packages/runtime-core/job_queue.go:337-362 | claims a waiting job again under a fresh lease |
| JobQueues.JobQueue.RetryDeadLetter | packages/runtime-core/job_queue.go:364-388 | revives a dead job and removes its alert in one write; the dead list loses exactly that entry |
| JobQueues.JobQueue.RemoveDeadLetterJob | packages/runtime-core/job_queue.go:493-501 | in-place removal of the first entry with the id |
| JobQueues.JobQueue.Pause | packages/runtime-core/job_queue.go:390-418 | parks a waiting job without its lease; its due time stays for a retry |
| JobQueues.JobQueue.Resume | packages/runtime-core/job_queue.go:420-455 | a paused retry resumes as a retry, a paused fresh job as Pending |
| JobQueues.JobQueue.Cancel | packages/runtime-core/job_queue.go:457-485 | ends a waiting job as Cancelled |
| JobQueues.JobQueue.Restore | packages/runtime-core/job_queue.go:541-609 | rebuilds memory from the rows, recovering each run that was cut short; a failed write leaves memory as it was; the snapshot summarises the listed rows |
| JobQueues.JobQueue.ReadyJobs | packages/runtime-core/job_queue.go:513-539 | exactly the jobs ready at the instant, strictly ordered by creation time and id, in whatever order the map is iterated |
| JobQueues.JobQueue.Insert | packages/runtime-core/job_queue.go:523-537 | insertion keeps the dispatch order and adds just the one job |
| JobQueues.ReadyListIsUnique | packages/runtime-core/job_queue.go:513-539 | contents and order fix the ready list: two ordered lists with the same members are equal |
| JobQueues.StatusCountsAddUp | packages/runtime-core/job_queue.go:591-605 | counts by status add up to the number of jobs, and the Dead count is the length of the dead list |
| JobStores.JobStore.SaveJob | packages/runtime-core/postgres.go:335-397 | upsert of a valid job, or no effect |
| JobStores.JobStore.PersistJobDeadLetter | packages/runtime-core/postgres.go:765-784 | job and alert are written together or not at all; an alert that is already there stays |
| JobStores.JobStore.PersistJobDeadLetterRetry | packages/runtime-core/postgres.go:786-805 | job is written and alert removed together or not at all |
| JobStores.AlertIdsClash | packages/runtime-core/alerts.go:85-87 | two jobs share an alert id if and only if their ids agree after trimming |
| JobStores.DeadLetterAlertIsStorable | packages/runtime-core/alerts.go:29-83 | an alert survives normalisation if and only if the job id is not blank and some time is known, and is then kept under its own id |
| JobStores.DeathIsWritten | packages/runtime-core/postgres.go:765-784 | a death is written if and only if the job is valid and its alert has an id, an object and a time; row and trimmed alert are then as given, and an alert that has the id already stays |
| JobStores.RevivalIsWritten | packages/runtime-core/postgres.go:786-805 | a revival is written, and the alert of the trimmed id removed, if and only if the job is valid, the id is not blank and the database takes it |
| AlertLaws.AlertsAgreeExactly | packages/runtime-core/postgres.go:765-805 | over jobs drawn from a set of ids, every history keeps Dead jobs and alerts in one-to-one correspondence, no alert without its one Dead job and no Dead job without its alert, if and only if no two non-blank ids of the set agree after trimming |
| AlertLaws.RunAgrees | packages/runtime-core/job_queue.go:711-745 | over ids that do not clash, every history keeps each alert present exactly while its job is Dead, with the content of that death, and no other alert |
| AlertLaws.ClashLosesAlert | packages/runtime-core/postgres.go:786-805 | two ids that differ only in surrounding spaces: reviving one removes the alert of the other, which stays Dead |
| ReportLaws.StaleDispatcherIsHarmless | packages/runtime-core/runtime.go:645-723 | for a claim and any later interleaving under a strictly later clock: a report whose sections nothing interrupts fails the run if that claim is still held, however many heartbeats came, and otherwise changes nothing, even when the job has been claimed again |
| ReportLaws.LookDecides | packages/runtime-core/runtime.go:645-668 | the first section of a report decides to act exactly while the claim is held |
| ReportLaws.LateReportExactly | packages/runtime-core/runtime.go:645-672 | a report that looked while its claim was held and acts after any further events: the reason code read at the look is still right, and the act is harmless if and only if the claim is still held, or the row that it finds takes no report (or the write is refused, or an all-space id would die) |
| ReportLaws.ActExactly | packages/runtime-core/job_queue.go:278-322 | the last section alone leaves the queue as it was if and only if the row takes no report, the write is refused, or an all-space id would die; runs, paused jobs with retries left and waiting ones without take it |
| ReportLaws.LateReportEndsNewerRun | packages/runtime-core/runtime.go:645-672 | for every claim with two retries left: the run times out and the job is claimed again between look and act, and the act ends the newer run, so that two retries are counted |
| ReportLaws.HeardReportEndsRun | packages/runtime-core/runtime.go:663-672 | a report that is heard leaves the job Retrying with one more retry, or Dead with its alert and dead-list entry once the budget is spent |
| ReportLaws.ClaimOverRun | packages/runtime-core/job_queue.go:778-811 | along any history a held claim differs from the claimed record only in heartbeat and expiry; an ended one is never mistaken for it again |
| DispatchLaws.FailedRun | packages/runtime-core/job_queue.go:278-322 | what failing a run leaves: retry count, due time, status, error and no lease, by whether the budget lasts |
| DispatchLaws.OneRetryExactly | packages/runtime-core/runtime.go:885-926 | a dispatch of a claim counts at most one retry, whatever the plugins do, if and only if at most one plugin takes the job or at most one retry is left to it |
| DispatchLaws.DispatchBounds | packages/runtime-core/runtime.go:574-591 | a whole dispatch, with any number of plugins, their calls and heartbeats, a lost answer after the work was done, and the report of a failure: RetryCount rises by at most the number of plugins that take the job, or by one if none does, and never beyond MaxRetries; it fails if no plugin delivers; a job still Running afterwards means a failed dispatch and a refused closing write or an all-space id |
| DispatchLaws.FailingDispatch | packages/runtime-core/runtime.go:885-926 | that bound is met for every number of plugins: when each of them fails the job, exactly so many retries are counted, as far as the budget goes |
| DispatchLaws.VisitedKeeps | plugins/plugin-ai-chat/plugin.go:118-157 | one plugin counts at most one retry, reports success only for a job that ended Done or Dead, leaves a run open only when the closing write is refused or the id is blank, and leaves a job that is over as it is |
| DispatchLaws.WorkedKeeps | plugins/plugin-ai-chat/plugin.go:133-157 | the work on a run: if it stays open, only heartbeats have touched it |
| DispatchLaws.FailureCloses | packages/runtime-core/job_queue.go:264-322 | closing as failed succeeds unless the write is refused or the id is blank, and then nothing changed; a retry is counted as far as the budget goes |
| DispatchLaws.BeatenKeeps | packages/runtime-core/runtime.go:593-618 | heartbeats change nothing but heartbeat and expiry of a run, and nothing at all of any other job |
| DispatchLaws.ReportKeeps | packages/runtime-core/runtime.go:645-672 | reporting a run that is still the one handed out ends it with one retry more, unless the write is refused or the id is blank; any other run is left alone |
| DispatchOutcomes.DeliveredDispatch | packages/runtime-core/runtime.go:574-591 | when the first plugin that takes the job generates, replies and closes the run, the job is Done with no retry counted, whatever the other plugins do and however many heartbeats came; the dispatch counts as failed if and only if the answer of that plugin was lost |
| DispatchOutcomes.UntakenDispatch | packages/runtime-core/runtime.go:574-591 | a job that no plugin takes is failed with the code of a dispatch that is retried, or of the last one; a refused write leaves the run open |
| DispatchOutcomes.VisitEnds | plugins/plugin-ai-chat/plugin.go:118-157 | a plugin works on a run, and on a waiting job once its claim is stored; any other job it leaves as it is, and reports an error |
| DispatchOutcomes.WorkEnds | plugins/plugin-ai-chat/plugin.go:133-157 | the whole record that the work on a run leaves: Done when generation and reply succeed, the counted failure of the one that did not otherwise, and the open run when the closing write is refused; and exactly when the plugin reports an error |
| DispatchOutcomes.ReportExactly | packages/runtime-core/runtime.go:645-723 | what an uninterrupted report does to the job that it finds: an untouched fresh job is claimed and failed, a run is failed unless it differs from the claim handed out in one of ten named fields, anything else stays as it is; and what it answers |
| DispatchOutcomes.BeatenRenews | packages/runtime-core/runtime.go:593-618 | heartbeats move heartbeat and expiry of a run to the last one that the database took, and change nothing else |
| Dispatches.Dispatcher.Look | packages/runtime-core/runtime.go:645-668 | the first section of a report: claims an untouched pending job first, ends for a run that is over or belongs to another claim, else picks the reason code |
| Dispatches.Dispatcher.FailAfterDispatchError | packages/runtime-core/runtime.go:645-672 | all sections of a report with nothing in between |
| Dispatches.Dispatcher.DispatchToPlugins | packages/runtime-core/runtime.go:863-933 | the loop over the plugins that take the job: an error of one does not stop the next; it delivers if one of them answers without error |
| Dispatches.Dispatcher.DispatchQueuedJob | packages/runtime-core/runtime.go:574-591 | the loop, and the report when no plugin delivered |
| Dispatches.Dispatcher.ProcessJob | plugins/plugin-ai-chat/plugin.go:118-157 | inspects the job, claims it unless it runs, and works on it |
| Dispatches.Dispatcher.Work | plugins/plugin-ai-chat/plugin.go:133-157 | generate, reply and close, with heartbeats in between |
| Dispatches.Dispatcher.Beat | packages/runtime-core/runtime.go:593-618 | the heartbeats in turn |
| WorkflowRuns.ReachableWorkflow | packages/runtime-core/workflow.go:105-230 | after any history of triggers and child outcomes whose loads and saves interleave in any way, job changes, refused writes and restarts: each stored workflow is the one value that its steps, its position and its log of instants, events and outcomes allow: State is the fold of persist writes and child results over the executed prefix, Compensated holds exactly when an executed compensate step found no or a failing child outcome, SleepingUntil is the instant at which the sleep was reached plus its duration, WaitingForJob names the current call, LastJobResult is that of the last call; every event wait passed was passed by its event, every sleep not before its end; the status names the one wait of the current step, never ready |
| WorkflowTimes.RestingIs | packages/runtime-core/workflow.go:892-906 | a resting workflow with the meaning and the times of its log is that value, field by field |
| RestingWorkflows.CompensatedExactly | packages/runtime-core/workflow.go:127-137 | a workflow is compensated if and only if a compensate step that it passed had no child job before it, or the last one before it ended in another way than Done |
| RestingWorkflows.StateExactly | packages/runtime-core/workflow.go:105-230 | the state has a key if and only if a passed persist step or child call writes it, and holds what the last such step wrote: the persisted text, or the child's id, status and whatever of name, code and error is not blank |
| RestingWorkflows.ResumesExactly | packages/runtime-core/workflow.go:148-186 | when a workflow of any value, also one that no drive leaves, takes an event or the end of a sleep, what it then is, and what it says otherwise |
| RestingWorkflows.HearsExactly | packages/runtime-core/workflow.go:188-230 | when a workflow of any value takes an outcome, the record and the state entry that it keeps, and what it says otherwise |
| RestingWorkflows.DriveExactly | packages/runtime-core/workflow.go:908-937 | a drive that is not blocked fails if and only if it runs into a step of unknown kind or a child call without an id, and says which; otherwise it passes exactly the steps that need no wait and ends before the first other one |
| WorkflowTimes.DriveTimed | packages/runtime-core/workflow.go:908-937 | driving stamps each step it passes with its own clock reading and passes a sleep only when it is over |
| WorkflowRuns.RunSound | packages/runtime-core/workflow.go:392-599 | the invariant behind it, for rows and for calls in flight, from any sound world |
| WorkflowRuns.StepSound | packages/runtime-core/workflow.go:392-683 | each event keeps every row and every call in flight sound, whatever landed between a call's load and its save |
| WorkflowRuns.StepMovesOn | packages/runtime-core/workflow.go:424-599 | unless a call lands on a row that was written since the call loaded it, no row moves back: it stays, is started over once completed, or goes on in the same run with at most one more outcome |
| WorkflowRuns.AloneUntilWritten | packages/runtime-core/workflow.go:645-683 | a call finds its row as it loaded it until another call lands on it or a recovery runs |
| WorkflowRuns.LandOverwrites | packages/runtime-core/postgres.go:977-1030 | a save replaces whatever row is stored by then, provided that the owner is the same |
| WorkflowRuns.FireComputes | packages/runtime-core/workflow.go:424-532 | what a trigger is about to write: a new run only when none is open, else the open one moved past its wait |
| WorkflowRuns.DeliverComputes | packages/runtime-core/workflow.go:534-599 | what an accepted delivery is about to write: that outcome logged and the row strictly further on |
| WorkflowCalls.TriggerExactly | packages/runtime-core/workflow.go:424-532 | what a trigger answers and leaves in table and cache: the four blank fields in the order of their checks, a refused write, or the row that it computed |
| WorkflowCalls.FireExactly | packages/runtime-core/workflow.go:424-528 | what a trigger makes of the row it finds: another plugin's is refused; an open run wakes if and only if it waits for this very event, or its sleep is over, and goes on behind its wait; otherwise a new run executes from the first step; and the owner, last event and times of the row |
| WorkflowCalls.DeliveryExactly | packages/runtime-core/workflow.go:534-599 | what a delivery answers and leaves in table and cache, by its checks in their order |
| WorkflowCalls.DeliverExactly | packages/runtime-core/workflow.go:534-595 | a delivery is accepted if and only if the row belongs to the plugin and waits for that job; the run goes on behind its call, the last event becomes that of the job, and the outcome is kept field by field |
| WorkflowCalls.SaveExactly | packages/runtime-core/postgres.go:977-1030 | what saving any row does: refused without an id or owner and for the row of another owner, else stored under its trimmed id |
| WorkflowCalls.RestoreExactly | packages/runtime-core/workflow.go:714-786 | recovery of a row goes on if and only if its sleep is over or its child job is stored as over, fails if and only if it then runs into a broken step, takes over the stored outcome field by field, and leaves any other row exactly as it is |
| WorkflowCalls.RestoreStamps | packages/runtime-core/workflow.go:714-786 | the bookkeeping of any row after recovery, also of one with untrimmed names or missing times |
| WorkflowCalls.RecoversExactly | packages/runtime-core/workflow.go:392-422 | a recovery succeeds if and only if no listed row runs into a broken step or is refused its write; the cache then holds just the listed rows as they are stored, and is kept otherwise |
| WorkflowRuns.RestoredRow | packages/runtime-core/workflow.go:714-786 | recovery of a sound row yields a sound row, no further back, at rest at that instant, with the missed outcome logged |
| WorkflowRuns.SweptAt | packages/runtime-core/workflow.go:392-422 | a recovery sweep, finished or cut short, moves each listed row forward at most once |
| WorkflowLaws.FirstOutcomeWins | packages/runtime-core/workflow.go:557-596 | when calls name different jobs and every call lands on the row that it loaded: once an outcome of a job was accepted it stays, whatever follows until the workflow is started over, and a further delivery for that job is refused before it writes anything |
| WorkflowLaws.OutcomesStay | packages/runtime-core/workflow.go:424-599 | in such histories the accepted outcomes of a row only grow, its steps stay and its position never falls |
| WorkflowLaws.OutcomesDiffer | packages/runtime-core/workflow.go:749-786 | however calls interleave, the outcomes that made a stored value belong to different jobs |
| WorkflowLaws.AcceptsExactly | packages/runtime-core/workflow.go:188-230 | a workflow accepts an outcome if and only if it waits for a child job, the outcome is terminal, and its trimmed id is the one that the current step names |
| WorkflowOverlaps.CallIsEvents | packages/runtime-core/workflow.go:424-599 | a call that nothing interrupts is its load followed by its save |
| WorkflowOverlaps.OverlapLosesOutcome | packages/runtime-core/workflow.go:557-596 | two deliveries that loaded the same row are both saved, and the second save replaces the outcome that the first one recorded |
| WorkflowOverlaps.OutcomesKeptExactly | packages/runtime-core/postgres.go:1005-1024 | for every call in flight: its save keeps the outcomes recorded in the row if and only if the row is not replaced, or the call starts a run and none was recorded, or it continues one and none was recorded beyond those that it loaded, or just the one that it brings |
| WorkflowOverlaps.LostOutcome | apps/runtime/main.go:1990-2015 | a run from the empty store, for any names: a child is reported Done and Dead at once, the Done report is saved, the workflow completes, and the other save puts it back to its event wait with the Dead outcome |
| WorkflowOverlaps.LateStart | packages/runtime-core/workflow.go:458-509 | a run from the empty store, for any names: the first triggers overlap, the run that one of them started hears its child, and the other one is saved, starts the open run over and drops the outcome |
| Recoveries.RecoveryIsDelivery | packages/runtime-core/workflow.go:534-599 | recovering a missed outcome succeeds exactly when delivering it would, and then gives the same workflow, status, last event id and type; only UpdatedAt differs |
| Recoveries.RestartsSettle | packages/runtime-core/workflow.go:392-422 | consecutive restarts from any reachable world, with clock and jobs fixed, writes accepted and rows listed in one order: once they outnumber the child jobs that any listed workflow still calls, one more restart changes no table |
| Recoveries.RestartIsPass | packages/runtime-core/workflow.go:392-422 | one restart is one pass over the listed rows, stopped by the first row that cannot be driven; no other row and no job changes |
| Recoveries.RestartAgain | packages/runtime-core/postgres.go:1050-1062 | from any sound world a restart can follow that lists the same rows in the same order |
| Recoveries.SweepIsPass | packages/runtime-core/workflow.go:392-422 | recovery with every write accepted is one pass over the listing |
| Recoveries.PassUsesCalls | packages/runtime-core/workflow.go:714-786 | a pass consumes one outstanding call when it recovers an outcome, and leaves the row at rest |
| WorkflowMeaning.ChildRan | packages/runtime-core/workflow.go:188-230 | accepting an outcome extends the meaning by exactly that call |
| WorkflowMeaning.AdvanceRan | packages/runtime-core/workflow.go:105-146 | one step extends the meaning by exactly that step |
| WorkflowMeaning.DriveRan | packages/runtime-core/workflow.go:908-937 | driving keeps the meaning, never moves back, and ends where nothing more can run |
| WorkflowMeaning.DrivenIsBlocked | packages/runtime-core/workflow.go:892-937 | a drive ends Completed or blocked on exactly one thing, of the kind of the current step |
| Workflows.DriveStopsExactly | packages/runtime-core/workflow.go:908-937 | the drive loop stops if and only if execution does not run into an event wait without an event name |
| Workflows.TurnMakesProgress | packages/runtime-core/workflow.go:908-937 | every other round lowers the rank of remaining steps and pending sleep |
| Workflows.AdvanceUntilBlocked | packages/runtime-core/workflow.go:908-937 | the loop computes the recursive drive |
| Workflows.Advance | packages/runtime-core/workflow.go:105-146 | keeps steps and id and moves the index by at most one |
| WorkflowRuntimes.WorkflowRuntime.BeginFire | packages/runtime-core/workflow.go:424-528 | the first half of a trigger: checks in the source's order, load, start or wake and drive; only the cached copy is touched |
| WorkflowRuntimes.WorkflowRuntime.BeginDeliver | packages/runtime-core/workflow.go:534-595 | the first half of a delivery: checks, load, acceptance and drive; only the cached copy is touched |
| WorkflowRuntimes.WorkflowRuntime.Fire | packages/runtime-core/workflow.go:424-532 | both halves with nothing in between; errors leave the tables as they were |
| WorkflowRuntimes.WorkflowRuntime.Deliver | packages/runtime-core/workflow.go:534-599 | both halves of a delivery with nothing in between |
| WorkflowRuntimes.WorkflowRuntime.Resume | packages/runtime-core/workflow.go:514-528 | drives a resumed workflow and stamps it with its trigger |
| WorkflowRuntimes.WorkflowRuntime.Load | packages/runtime-core/workflow.go:645-670 | loading refreshes the cached copy |
| WorkflowRuntimes.WorkflowRuntime.Store | packages/runtime-core/workflow.go:672-683 | a row is cached only once it was written; a row of another plugin is never overwritten |
| WorkflowRuntimes.WorkflowRuntime.Recover | packages/runtime-core/workflow.go:392-422 | re-drives the listed rows in order, stops at the first failure, replaces the cache only at the end |
| WorkflowStates.DeliverToCopy | packages/runtime-core/workflow.go:567-585 | with state maps shared by reference: a delivery to a cached workflow gives the result of the value model in a map of its own and writes nothing that existed before, whether it is refused, fails on the way or goes through |
| WorkflowStates.DriveCopy | packages/runtime-core/workflow.go:908-937 | so does the drive loop, which copies first |
| WorkflowStates.AdvanceInPlace | packages/runtime-core/workflow.go:105-146 | one step, with a persisted text written into the very map of its argument |
| WorkflowStates.ResumeWithChildJobInPlace | packages/runtime-core/workflow.go:188-230 | an accepted outcome, written into the very map of its argument |
| WorkflowStates.Clone | packages/runtime-core/workflow.go:796-826 | a copy with equal content and a map of its own |
| HandOffs.ResumeWorkflowFromTerminalChildJob | apps/runtime/main.go:2670-2693 | ignores jobs without owner or outcome, delivers the others, and keeps quiet about workflows that have moved on |
| HandOffs.HandOffMoves | apps/runtime/main.go:2670-2693 | a hand-off changes the tables if and only if job status, owner and awaited id fit, the steps behind the call run into no broken step, and the write is taken |
| HandOffs.HandOffExactly | apps/runtime/main.go:2634-2693 | what a hand-off leaves of the workflow that the job's payload names, and the error it reports, for every job, owner and row |
| HandOffs.LateHandOff | apps/runtime/main.go:2670-2693 | a job that was heard before is refused; an error is reported exactly when the workflow now waits for another job |
| HandOffs.HandOffOnce | apps/runtime/main.go:2634-2693 | after a hand-off from any reachable world that moved a workflow, and after anything that follows in which calls land on the rows they loaded and the workflow is not started over, handing over the same job again, even with another outcome, changes no table |
| ScheduleRuns.DispatchesAreGranted | packages/runtime-core/scheduler.go:451-539 | with any number of schedulers interleaving statement by statement, crashes included, an instant of a schedule is dispatched at most as often as it was registered or rewritten by a recovery with a due time up to that instant |
| ScheduleRuns.EventPays | packages/runtime-core/postgres.go:963-974 | no statement dispatches or enables more dispatches than it grants: the compare-and-set moves a token from the row to the claim |
| ScheduleRuns.CronMovesToNext | packages/runtime-core/scheduler.go:491-521 | a finished cron plan is put back unclaimed, under its creation time, at the least occurrence after both old due time and tick |
| ScheduleRuns.FinishMovesOn | packages/runtime-core/scheduler.go:491-521 | finishing touches only its own row, which is left, removed or due strictly later |
| ScheduleRuns.DispatchedOnce | packages/runtime-core/postgres.go:963-974 | as long as no recovery rewrites a row, an instant is dispatched at most as often as it was registered |
| ScheduleRuns.StolenClaimsDispatchAgain | packages/runtime-core/scheduler.go:338-351 | the bound is met for every k: one registration, k recoveries that each release a live claim, and k + 1 dispatches of one instant |
| ScheduleRuns.ItemIsEvents | packages/runtime-core/scheduler.go:472-522 | running one due plan is claim, dispatch and finish of that interleaving, so the bound covers it |
| ScheduleRuns.SweepIsEvents | packages/runtime-core/scheduler.go:257-322 | what a recovery does to the table is a run of rewrites, at most one a listed row |
| ScheduleStores.NextCronDue | packages/runtime-core/scheduler.go:634-644 | the loop finds the occurrence after the later of the two instants, and always ends |
| ScheduleStores.NextDueIsLeast | packages/runtime-core/scheduler.go:634-644 | that is the least occurrence after both |
| ScheduleStores.ScheduleStore.ClaimSchedulePlan | packages/runtime-core/postgres.go:945-975 | claims the row if and only if it is unclaimed and due at the expected instant |
| ScheduleStores.ScheduleStore.SaveSchedulePlan | packages/runtime-core/postgres.go:858-901 | upsert of a valid plan with normalised times, evidence and owner |
| ScheduleStores.ScheduleStore.DeleteSchedulePlan | packages/runtime-core/postgres.go:934-943 | removes an existing row |
| ScheduleLaws.ReachableScheduler | packages/runtime-core/scheduler.go:451-523 | one runtime, any history from an unclaimed table, with registrations, cancellations and recoveries between the copying, claiming and finishing of due plans: a claimed row was due when claimed; every remembered plan has a row with the same plan and due time |
| ScheduleLaws.RegisteredRow | packages/runtime-core/scheduler.go:113-146 | registration succeeds if and only if the plan is valid and new and the write goes through; its row is then unclaimed and due at the least occurrence after now, after the delay, or at the given instant |
| ScheduleLaws.RepairIsRegistration | packages/runtime-core/scheduler.go:384-417 | a row without due time gets the one that registering its plan at its creation time would have given |
| ScheduleLaws.RecoveryReleases | packages/runtime-core/scheduler.go:257-336 | after a successful recovery no valid plan is claimed and every valid plan is loaded with its row's due time |
| ScheduleLaws.RecoverySettles | packages/runtime-core/scheduler.go:257-336 | a second recovery at the same instant recovers nothing, cannot fail, and changes neither table nor memory |
| ScheduleLaws.RestoreIs | packages/runtime-core/scheduler.go:257-336 | recovery loads exactly the valid plans and rewrites exactly the rows that need it, whatever the listing order |
| ScheduleLaws.StepHealthy | packages/runtime-core/scheduler.go:113-193 | each locked section keeps the invariant, also when its write fails |
| ScheduleLaws.ItemIsEvents | packages/runtime-core/scheduler.go:472-522 | running one due plan is its claim and its finish with nothing in between |
| ScheduleTicks.CollectsExactly | packages/runtime-core/scheduler.go:451-470 | a tick collects a plan, with its due time, if and only if it is due by then |
| ScheduleTicks.TickSends | packages/runtime-core/scheduler.go:451-523 | a tick dispatches exactly the plans that are due, have an id, a source and an event type, and whose unclaimed row is claimed, each once; what happens to one plan keeps no other from running |
| ScheduleTicks.TickLeaves | packages/runtime-core/scheduler.go:472-521 | what a tick leaves of every plan and row: a plan that is not due or not claimed stays as it was; a claim stays when dispatch or final write fail; a cron plan waits unclaimed for its first occurrence after due time and tick; any other plan is gone |
| ScheduleTicks.FinishEnds | packages/runtime-core/scheduler.go:491-561 | what the end of a dispatch leaves, field by field, also when its clock has moved on since the tick: nothing changes for a plan that is gone or a refused write, a cron plan waits for its first occurrence after due time and tick, any other plan is over |
| ScheduleTicks.ClaimExactly | packages/runtime-core/postgres.go:945-975 | the compare-and-set: exactly when it claims, and the whole row that it leaves |
| ScheduleTicks.RegisterExactly | packages/runtime-core/scheduler.go:113-146 | which plans can be scheduled, and what registering one answers and leaves, field by field: the whole row, in memory the plan and its first due time |
| ScheduleTicks.CancelExactly | packages/runtime-core/scheduler.go:168-193 | cancelling an unknown plan or with a refused write changes nothing; else exactly that plan is gone from table and memory |
| ScheduleTicks.SavedExactly | packages/runtime-core/postgres.go:858-901 | what the table makes of a row that it saves, field by field; saving the result again changes nothing |
| ScheduleRecoveries.RestoresExactly | packages/runtime-core/scheduler.go:257-336 | a recovery fails if and only if a write that it asks for is refused, and then memory stays, and the table from that row on; otherwise every row is recovered as said, exactly the plans that can be scheduled are loaded with the due times of their rows, and the snapshot counts rows, rewrites, released claims and invalid plans |
| ScheduleRecoveries.RecoveredExactly | packages/runtime-core/scheduler.go:338-417 | what recovery makes of a row, field by field: a claim on a due plan is released, a missing due time is put back from the creation of the row, any other row stays as it is |
| ScheduleLaws.FinishKeepsExactly | packages/runtime-core/scheduler.go:491-521 | the end of a dispatch acts on whatever plan has the id by then: it keeps that plan if and only if it is a cron plan or the write is refused, and puts a cron plan at its first occurrence after the due time and the tick of the dispatch |
| ScheduleLaws.OldDispatchEndsNewPlan | packages/runtime-core/scheduler.go:491-521 | from any sound state with a dispatch under way: its plan is cancelled, another one that is no cron plan is registered under the id, and the end of the old dispatch removes it before it was ever due |
| ScheduleLaws.SweepPartly | packages/runtime-core/scheduler.go:338-369 | wherever a recovery stops, each row is untouched or as recovery makes it |
| ScheduleLaws.RecoverRowOnce | packages/runtime-core/scheduler.go:384-417 | recovering a row again changes nothing; a valid plan's row comes out unclaimed with a due time |
| Schedulers.Scheduler.Register | packages/runtime-core/scheduler.go:113-146 | refuses invalid, known and unsavable plans without effect; else row and memory agree on plan and due time |
| Schedulers.Scheduler.Cancel | packages/runtime-core/scheduler.go:168-193 | row and memory lose the plan together, or nothing changes |
| Schedulers.Scheduler.RunDuePlans | packages/runtime-core/scheduler.go:451-523 | claims, dispatches and finishes the due plans in any map order, working from the copies it took |
| Schedulers.Scheduler.RunOne | packages/runtime-core/scheduler.go:472-522 | a dispatch happens only under a claim that this scheduler won |
| Schedulers.Scheduler.FinishItem | packages/runtime-core/scheduler.go:491-521 | cron plans move on, others end; a failed write leaves the claim in place |
| Schedulers.Scheduler.ClearDuePlanClaim | packages/runtime-core/scheduler.go:541-561 | writes the plan back unclaimed, keeping the creation time |
| Schedulers.Scheduler.RestoredScheduleDueAt | packages/runtime-core/scheduler.go:384-417 | the stored due time, else the one the plan had at creation |
| Schedulers.Scheduler.RecoverAbandonedClaim | packages/runtime-core/scheduler.go:338-351 | releases the claim and keeps the due time |
| Schedulers.Scheduler.Restore | packages/runtime-core/scheduler.go:257-336 | memory and snapshot are replaced only when every write went through |
| RolloutLaws.ReachableHead | packages/runtime-core/rollout.go:128-287 | after any history, failed saves and restarts included: canary phase has status canarying and Active = Candidate, candidate phase has status prepared and Active = Stable, stable phase has Active = Stable |
| RolloutLaws.PreparesExactly | packages/runtime-core/rollout.go:235-288 | Prepare succeeds if and only if both manifests are this plugin's, agree on mode and a given API version and differ in version; it publishes both as they are |
| RolloutLaws.ActivateInstalls | packages/runtime-core/rollout.go:149-165 | Activate installs the candidate that the head held before the call, which an earlier call had vouched for, with the version that the manifests still call for; it is the candidate manifest of now if and only if the head held the API version and the mode of that manifest |
| RolloutLaws.ActivatesExactly | packages/runtime-core/rollout.go:203-233 | Activate succeeds if and only if a head waits for a versioned candidate and the manifests pass every check with the same two versions |
| RolloutLaws.StaleApiVersion | packages/runtime-core/rollout.go:223-227 | drift in API version alone is not noticed: for any two API versions, the prepared one is installed |
| RolloutLaws.CanActivateThenActivate | packages/runtime-core/rollout.go:88-101 | CanActivate changes nothing when it succeeds, and with the same manifests Activate succeeds exactly when it does |
| RolloutLaws.CanaryThenRollBack | packages/runtime-core/rollout.go:166-197 | Canary activates the candidate and Rollback then restores the head with the prepared stable version active, whatever the manifests say |
| RolloutLaws.DriftPreparesAnew | packages/runtime-core/rollout.go:216-227 | a call that finds drift leaves the very state that Prepare would leave |
| RolloutLaws.PreparedThenActivate | packages/runtime-core/rollout.go:75-101 | from there the next attempt succeeds if and only if the checks pass and the candidate has a version |
| RolloutLaws.RestartKeepsHeads | packages/runtime-core/rollout.go:335-397 | while the store accepts writes a restart brings back every head that has all its versions |
| RolloutCalls.PrepareExactly | packages/runtime-core/rollout.go:75-86 | what Prepare answers and publishes, field by field, for every pair of manifests: the first thing that is wrong with them in the order of the checks, and the versions of a head that is accepted |
| RolloutCalls.CanActivateExactly | packages/runtime-core/rollout.go:98-101 | what CanActivate answers and leaves: the versions, phase and status of a head on its way whose manifests still fit, else why not, with drift put right |
| RolloutCalls.ActivateExactly | packages/runtime-core/rollout.go:88-96 | what Activate answers and publishes: the held candidate as stable and active version and no candidate, else why not |
| RolloutCalls.StartCanaryExactly | packages/runtime-core/rollout.go:103-111 | what StartCanary answers and publishes: the candidate as active version beside the stable one, from the candidate phase only |
| RolloutCalls.RollBackExactly | packages/runtime-core/rollout.go:113-121 | what RollBack answers and publishes: the stable version as active one, from a canary and after an activation only, with the candidate kept |
| RolloutCalls.CanRollbackExactly | packages/runtime-core/rollout.go:123-126 | what CanRollback answers, which changes nothing |
| RolloutCalls.UnknownExactly | packages/runtime-core/rollout.go:128-147 | a call under a blank id, or one that no head has, changes nothing and says which |
| RolloutCalls.PersistExactly | packages/runtime-core/rollout.go:335-357 | a head is published under its trimmed id whether or not it is stored, and stored trimmed, field by field, exactly when the database takes it and none of its versions is blank |
| RolloutCalls.RestartExactly | packages/runtime-core/rollout.go:359-397 | a restart reads back exactly the stored heads, without a candidate that has no version |
| Rollouts.RolloutManager.Prepare | packages/runtime-core/rollout.go:75-86 | publishes the head that the manifests call for, also a rejected one |
| Rollouts.RolloutManager.ValidatePreparedState | packages/runtime-core/rollout.go:203-233 | accepts only an unchanged preparation, and replaces a drifted head |
| Rollouts.RolloutManager.Activate | packages/runtime-core/rollout.go:88-96 | stable and active become the prepared candidate, or only drift is recorded |
| Rollouts.RolloutManager.CanActivate | packages/runtime-core/rollout.go:98-101 | the same check without the move |
| Rollouts.RolloutManager.StartCanary | packages/runtime-core/rollout.go:103-111 | active becomes the candidate, from the candidate phase only |
| Rollouts.RolloutManager.RollBack | packages/runtime-core/rollout.go:113-121 | active becomes stable, from canary or after an activation |
| Rollouts.RolloutManager.CanRollback | packages/runtime-core/rollout.go:123-126 | says when that is possible |
| Rollouts.RolloutManager.PersistHead | packages/runtime-core/rollout.go:335-357 | the head is published whether or not the store takes it |
| Rollouts.RolloutStore.SaveRolloutHead | packages/runtime-core/state.go:2029-2084 | stores a complete head normalised, and refuses one without versions |
| ConfigObjects.NormalizeConfig | packages/runtime-core/plugin_host_subprocess.go:574-614 | for every order in which the maps are iterated: accepts exactly the configurations that the order-free definition accepts, returns that one value in fresh objects, and modifies nothing that existed before, the given configuration included |
| ConfigObjects.ConfigObject.MergeBranch | packages/runtime-core/plugin_host_subprocess.go:875-912 | in-place normalisation of objects from the third level down, all levels below included, equals the order-free definition |
| ConfigObjects.ConfigObject.FillDefaults | packages/runtime-core/plugin_host_subprocess.go:915-958 | missing leaves get their defaults; fails if and only if a required leaf has none |
| ConfigObjects.ConfigObject.MergeDeeper | packages/runtime-core/plugin_host_subprocess.go:723-792 | a second-level object: required names, third-level objects created, third-level values checked |
| ConfigObjects.ConfigObject.OpenField | packages/runtime-core/plugin_host_subprocess.go:741-760 | a missing third-level object is created before it is checked |
| ConfigObjects.ConfigObject.MergeNested | packages/runtime-core/plugin_host_subprocess.go:672-721 | a first-level object: second-level leaves are checked for type only |
| ConfigObjects.ConfigObject.CheckFields | packages/runtime-core/plugin_host_subprocess.go:588-612 | the loop over the named properties gives the same verdict and object in any order |
| ConfigObjects.ConfigObject.CheckField | packages/runtime-core/plugin_host_subprocess.go:887-910 | one property: objects recursively in place, leaves by type and enumeration |
| ConfigObjects.ConfigObject.HasRequired | packages/runtime-core/plugin_host_subprocess.go:616-652 | every required name is present |
| ConfigObjects.ConfigObject.Clone | packages/runtime-core/plugin_host_subprocess.go:1069-1093 | a copy with the same content that shares no object with the original |
| ConfigObjects.Build | packages/runtime-core/plugin_host_subprocess.go:1051-1093 | a default is copied into fresh objects |
| ConfigLaws.RejectedExactly | packages/runtime-core/plugin_host_subprocess.go:875-982 | from the third level down a value is rejected if and only if, at some path, it has the wrong type, is outside its enumeration, is no object where one is declared, or lacks a required leaf without usable default |
| ConfigVerdicts.ConfigRejectedExactly | packages/runtime-core/plugin_host_subprocess.go:574-792 | a whole configuration is rejected if and only if a required name is missing from it or from a second-level object, a first- or second-level leaf has the wrong type, or a third-level value, given or opened empty, has a fault |
| ConfigVerdicts.ConfigAddsExactly | packages/runtime-core/plugin_host_subprocess.go:588-792 | an accepted configuration gets no key at the top and in first-level objects, and in a second-level object exactly the declared third-level objects that were missing; each third-level value is the normalised one, an added one from the empty object |
| ConfigVerdicts.WholeAddsExactly | packages/runtime-core/plugin_host_subprocess.go:915-1067 | in an accepted whole configuration every declared object from the third level down, at any depth, given or opened, gets exactly the missing leaves whose default is of the declared type and in the enumeration if there is one, each with that default |
| ConfigVerdicts.WholeStays | packages/runtime-core/plugin_host_subprocess.go:574-912 | a given value of an accepted configuration stays as it is wherever the schema declares no object |
| ConfigVerdicts.NoTableStays | packages/runtime-core/plugin_host_subprocess.go:574-587 | without a schema, or with one without a table of properties, every configuration is accepted as it is |
| Schemas.DefaultIs | packages/runtime-core/plugin_host_subprocess.go:1051-1067 | a default is used if and only if it is a text, a truth value, a number or an integer as declared and agrees with an entry of the enumeration, if that is given |
| Schemas.LeafIs | packages/runtime-core/plugin_host_subprocess.go:960-1049 | a leaf is accepted if and only if it is of the declared type and a non-empty enumeration has an entry that agrees with it, where integers agree as read in 64 bits and numbers as numbers |
| Schemas.ReadsRequired | packages/runtime-core/plugin_host_subprocess.go:616-652 | a name is required if and only if some text of the list, without its surrounding spaces, is that name and not blank |
| ConfigLaws.AddsExactly | packages/runtime-core/plugin_host_subprocess.go:915-958 | every object that the schema reaches there, at any depth, gets exactly its missing leaves with a usable default, each with that default |
| ConfigLaws.NormalizedConforms | packages/runtime-core/plugin_host_subprocess.go:769-912 | every value that the schema reaches at depth three or more has its declared type and is in its enumeration |
| ConfigLaws.NormalizedConformsLoosely | packages/runtime-core/plugin_host_subprocess.go:588-721 | above that depth leaves have their declared type |
| ConfigLaws.UpperLevelsConformExactly | packages/runtime-core/plugin_host_subprocess.go:574-721 | at the first and second level of an accepted configuration a value conforms to its schema if and only if the given one was in the enumeration of its leaf, or an object where one is declared; no value appears there that was not given |
| ConfigLaws.DepthTwoIsLax | packages/runtime-core/plugin_host_subprocess.go:672-721 | configurations that pass unchanged although a second-level value is outside its enumeration, or a text stands where an object is declared |
| ConfigLaws.NormalizeExtends | packages/runtime-core/plugin_host_subprocess.go:574-614 | normalising only adds keys: the top level keeps its keys and every value that was there stays, at any depth |
| ConfigLaws.NormalizeTwice | packages/runtime-core/plugin_host_subprocess.go:574-614 | an accepted configuration is accepted again, unchanged |
| ConfigLaws.BranchTwice | packages/runtime-core/plugin_host_subprocess.go:875-958 | so is every normalised object on its own |
| ConfigLaws.BranchExtends | packages/runtime-core/plugin_host_subprocess.go:915-958 | and it keeps every value it had |

## Left out

- Dispatcher registration, the DispatchReady loop and worker identity and TTL changes at run time.
- MarkRunning is modelled with no look at NextRunAt, as in the code, so nothing is claimed about back-off under concurrent dispatch loops.
- The two-call alert path used when no transactional sink is wired; it can leave store and memory different.
- Queues, schedulers, workflow runtimes and rollout managers without a store.
- Requests of others between the visits of one dispatch: `DispatchLaws` follows a dispatch with nothing but its own heartbeats in between. Reports on a job that was handed out unclaimed are treated only as long as nothing interrupts them; the queue hands out claims.
- WorkflowRuns.ReachableWorkflow: triggers are assumed to bring a fresh workflow with named event waits, although a routed call of a plugin is taken with any workflow (apps/runtime/plugin_host_routed.go:243); a run that starts from an arbitrary position or state is not described.
- WorkflowRuntimes.WorkflowRuntime.Store: writes the row and its cached copy in one step. With a store the cache is never read back, so nothing is said about its order of updates.
- Rollout calls that overlap: the manager keeps its heads in a map without a lock, and the model takes its calls one at a time.
- Plugin lookups that fail in the middle of a dispatch, and the permission check before it.
- Job payloads are reduced to the workflow and plugin id that the hand-off reads, alerts to the fields that decide their identity and content, plans to what scheduling reads (no metadata).
- Logs, metrics, tracing, audit records and observability ids.
- SQL text, timestamp and millisecond rounding, and trimming of ids in rows: tables are exact maps, so schedule ids with surrounding spaces, which a claim looks up trimmed, are not covered.
- Cron and duration parsing: a sleep step carries its parsed duration, zero when it does not parse. A cron expression without future occurrences is outside the assumed laws.
- In histories of stored workflows state maps are values; their sharing and copying is treated for single calls only, in `WorkflowStates`.
- Trace and observability merging when a workflow is started or resumed, and errors of loading a row other than its absence.
- Cancelling the context between two due plans; in the interleaving it is a claim that vanishes or is never made.
- A locked section of the scheduler reads its clock once, and reading a row's creation time together with the following write is one step; a dispatch callback that calls back into its scheduler appears only as an interleaving.
- Rollout operation records, their use when no head is stored, last operation ids and update times of heads. A head's phase and status are the named constants, so blank ones from foreign rows do not occur.
- Error texts are constructors: matching them by substring is matching those constructors. Which of several faults a rejected configuration reports depends on map order, and is not modelled.
- Numbers of a configuration keep their kind as integer, float or JSON literal; integer kinds are not told apart, floats are reals, a float outside the 64-bit range is no integer, and large integers compare exactly as numbers. Enumerations other than generic lists are not covered.
- Objects inside lists of a configuration are values, since normalisation never enters lists.
- HTTP handlers, console, adapters, process launch and pipes, RBAC, secrets and version ranges: I/O or small cases.
