# A verified model of the tasking workflow and task engines

`tasking` runs long workflows built on a DAG of steps. A workflow scheduler moves a workflow and its
steps through their states and dispatches each step as a task; a task engine runs each task as a chain
of execution instances ("runs" here) on workers, with retries, timeouts and cancellation. Both engines
keep their truth in database rows, write each change in one transaction, and talk through queues whose
messages may be lost, doubled, delayed or reordered.

The project models the rows, the audit log, the messages and the workers' jobs, proves every handler
against a specification of its transaction, composes the handlers into one transition system, and
proves what holds in every run of it: for every specification the validation accepts, every list of
actions, and so every loss, duplication, reordering and delay of messages and every crash of a worker.

## Layout

| file | what it holds |
|---|---|
| `Tables.dfy` | the states and the transition tables |
| `Worklist.dfy` | the breadth-first walk behind `IsStateAtOrPast` and `HasEnded` |
| `Backoff.dfy` | the retry back-off, with the int64 arithmetic of its seconds |
| `Errors.dfy` | error chains and what is read off them |
| `StepGraph.dfy`, `SpecValidation.dfy`, `StepOrder.dfy` | the two Kahn-style loops: validation and listing |
| `Rows.dfy` | rows, audit log, messages, guarded writes |
| `WorkflowSpec.dfy`, `TaskSpec.dfy` | what each handler's transaction does to the rows and sends |
| `Store.dfy` | the database as a class: guarded in-place writes and queries |
| `WorkflowScheduler.dfy`, `TaskScheduler.dfy`, `TaskMaintenance.dfy`, `Workers.dfy` | the handlers as methods over the database, proved to do what the specifications say |
| `WorkflowEffects.dfy`, `TaskEffects.dfy`, `WorkerEffects.dfy` | what each transaction does, told by states, links, times and messages alone |
| `WorkflowInvariants.dfy`, `TaskInvariants.dfy`, `LinkInvariants.dfy`, `AuditInvariants.dfy` | what every transaction keeps |
| `System.dfy`, `SystemInvariants.dfy`, `Guarantees.dfy` | the composed system, its invariant, the theorems about all runs |
| `Idempotence.dfy`, `Recovery.dfy` | duplicate deliveries; lost messages; when exactly the code commits |
| `LostSuccess.dfy` | when exactly a task fails although its run succeeded |
| `Examples.dfy` | concrete runs in which the code does other than its comments say |
| `Progress.dfy`, `Completion.dfy`, `Draining.dfy`, `DueRuns.dfy` | liveness: bounded rounds to COMPLETE, a run to COMPLETE for every accepted specification, the end of every cancellation, the execution of every due run |

`dafny verify dfyconfig.toml` checks all of it.

## Conventions

- One workflow is followed, together with any number of tasks of other users. A step is named by its
  name, a task by its position in creation order, a run by its task and its position in the task.
- Every transaction is one atomic step; an error anywhere in it restores the rows. A database fault is
  a step that changes nothing.
- Messages form a set that only grows: a message once sent may be delivered any number of times, at any
  time, or never. They come from the code's own producers only. A PENDING_INSTANCE request may also
  appear for any run at any time, because it is sent inside a transaction that may still fail.
- A list read in one transaction and worked off in later ones may be stale. The sweep actions are
  therefore enabled by what can no longer change about a row (its deadline, its recorded outcome), not by
  its state at the time.
- A task has a name, and the state holds the set of task names whose execution requests can be enqueued
  (`senders`); the action `Queues` changes it at any time. An immediate task outside that set is stuck: its
  activation rolls back.
- A job ends with an error chain, from which the executor reads the disposition and the receiver the report.
- Worker names are unique among live processes. Tasks under the workflow engine's creator come from the
  workflow scheduler only.
- The audit rows one group update writes form one entry, as they have no order among themselves.
- Loops over Go maps and sets pick elements in any order.

## Where the code and its comments differ

- A comment in `workflow/scheduler_timeout.go` (lines 91-92) names FAILED as a legal way into TIMED_OUT;
  the transition table does not have it. So past the deadline only a RUNNING workflow is timed out; a
  PENDING, FAILED or CANCELLING one is left as it is by every sweep (`Recovery.TimeOutCommits` gives the
  exact condition, `Examples.LateFailedWorkflowStays` a case). A CANCELLING workflow is then brought to its end
  by its cancel requests and its tasks' notifications only (`Draining.EveryCancellationCanEnd`).
- Seconds of retry parameters become nanoseconds in int64 before anything is bounded. Any positive number of
  seconds is accepted, but above 9223372036 the product wraps: 9223372037 seconds make a negative delay and so
  no retry at all, even when retries are unlimited (`Backoff.PromiseKeptExactlyWhen` gives the exact condition,
  `Backoff.WrappedSeconds` inputs, `Examples.UnlimitedRetriesNeverRetried` a run).
- The reducer admits CANCELLED as an outcome, but the step table has no way from RUNNING to CANCELLED: such
  an outcome rolls back unless the workflow is being cancelled (`Recovery.OutcomeCommits`). A user who cancels
  the task of a RUNNING step leaves the step RUNNING, sweep after sweep (`Examples.CancelledTaskNeverSettles`).
- An outcome names a step, not an attempt: one of an earlier attempt, delivered after a revival, is applied
  like one of the current attempt (`Recovery.AttemptIsNotLookedAt`, `Examples.LateOutcomeHitsRevivedStep`); it
  changes the rows exactly when the step in its present state takes it (`Recovery.LateOutcomeChanges`). The
  ordinary notification that a timed-out step's task was cancelled can so cancel the revived step, after which
  the RUNNING workflow can never complete (`Examples.LateCancellationHitsRevivedStep`,
  `Guarantees.CancelledStepIsForever`).
- Engine failures are said never to be retried. If the sweep meets the FAILED run before the report does,
  the run is retried like any other (`Recovery.EngineFailureRace`, `Examples.EngineFailureRetried`).
- A run whose request was delivered twice has a refused second claim reported as an engine failure. If that
  report is handled before the success, the task ends FAILED although its run succeeded
  (`Recovery.DuplicateRequestRace`; `Examples.SuccessReportedAsFailure` is such a run). So a FAILED task
  does not mean a failed run; a COMPLETE one does mean a successful run. Nothing else fails a task with a
  successful run (`LostSuccess.LosesExactlyWhen`), and it takes a refused claim of that run
  (`LostSuccess.LostOnlyAfterRefusedClaim`).
- A processor's error that holds an executor error anywhere in its chain is reported as an engine failure and
  is handled like one, although no engine failed (`Workers.Process.OnTaskComplete`).

## Model

| member | source | states |
|---|---|---|
| `Worklist.IsStateAtOrPast` | models/task.go:480-504 | for any finite transition table the queue loop ends, and answers yes exactly when a path leads from the reference state to the current one |
| `Worklist.AtOrPastPersists` | models/task.go:466-504 | along any history of legal run writes, a run that is at or past a state stays so, which is what makes the no-op guards safe |
| `Worklist.GuardMeanings` | models/task.go:410-522 | what the three guards used by the handlers mean state by state: at or past FINALIZED, at or past ENQUEUED, ended |
| `Backoff.DelayBounds` | models/task.go:99-124 | a positive delay comes exactly from a positive initial delay, a negative one exactly from a negative one, the initial delay being its seconds times 10^9 in int64; a positive delay lies between the initial delay (or the ceiling, if lower) and the ceiling; used-up retries give 0 (growth over the reals) |
| `Backoff.DelayFollowsFactor` | models/task.go:68-124 | for every retry number: the delay is the int64 initial delay, multiplied by the factor once per retry before it, cut off at the bound and truncated towards zero; 0 when the retries are used up (over the reals) |
| `Backoff.WholeFactorMultiplies` | models/task.go:99-124 | with a whole factor and an initial delay that is not negative, each delay is the one before times the factor, up to the ceiling |
| `Backoff.PromiseKeptExactlyWhen` | models/task.go:68-124 | the documented bounds hold for every retry exactly when no retry is allowed or the least delay computed from the wrapped seconds, of initial delay and ceiling, is the documented one |
| `Backoff.FittingSecondsKeepPromise` | models/task.go:68-124 | seconds of at most 9223372036 in both fields are enough for the documented bounds |
| `Backoff.WrappedSeconds` | models/task.go:68-77 | concrete accepted seconds that are not: an initial delay of 9223372037 s gives a first delay below minus 9223372036 s, 18446744074 s a delay of 0.29 s, and a bound of 18446744074 s a ceiling of 0.29 s |
| `Backoff.DelayMonotone` | models/task.go:99-124 | a later retry never waits less than an earlier one if the wrapped initial delay is not negative, and never more if it is not positive (growth over the reals) |
| `Backoff.MonotoneExactlyWhen` | models/task.go:68-124 | over the reals, unlimited retries never wait less than earlier ones exactly when the wrapped initial delay is not negative, the factor is 1, or the delay is the least int64 to begin with |
| `Backoff.ChainDelayBounded` | models/task.go:99-124 | a whole chain of retries waits at most the retry limit times the ceiling, and its computed total is negative exactly when the wrapped initial delay is and there is a retry |
| `StepGraph.StuckIsCyclic` | models/workflow.go:411-439 | a non-empty set of steps each of which keeps a parent in the set contains a closed walk |
| `StepGraph.FullOrderIsAcyclic` | models/workflow.go:411-439 | an order of all steps with parents first rules out every closed walk and ranks each step above its parents |
| `StepGraph.LeftoverIsCyclic` | models/workflow.go:411-439 | if the sort runs dry before all steps are out, what is left contains a closed walk |
| `StepGraph.Relax` | models/workflow.go:418-431 | lowering the in-degrees of one step's children keeps every in-degree equal to the number of parents still out, and frees exactly the steps whose last parent it was |
| `SpecValidation.CountSortable` | models/workflow.go:411-431 | the queue loop ends and pops all steps exactly when the graph has no cycle |
| `SpecValidation.IsValid` | models/workflow.go:373-444 | accepts exactly the basically valid, correctly named specifications with known parents and no dependency cycle; every rejection names its cause |
| `StepOrder.ListWorkflowSteps` | db/workflow.go:609-666 | succeeds exactly when every parent is known and there is no cycle, and then lists every step once, parents first, level by level, each level sorted by name, a step's level being its depth |
| `StepOrder.LevelIsLongestChain` | db/workflow.go:637-655 | a step's level is the length of the longest chain of dependencies above it: no chain is longer and one is that long |
| `StepOrder.DepthsAgree` | db/workflow.go:637-655 | the level of a step is determined by the graph |
| `StepOrder.ListingUnique` | db/workflow.go:637-655 | the listing is determined by the graph: two listings by level and name are equal |
| `Store.DefineNewWorkflow` | db/workflow.go:28-153 | an accepted specification becomes a PENDING workflow and DEFINED steps with their parents, deadline and retry policy, which satisfy the invariants and can be listed; a refused one becomes nothing |
| `Store.Database.UpdateWorkflowState` | db/workflow.go:180-258 | writes and logs the state exactly when the table allows it, else changes nothing |
| `Store.Database.UpdateWorkflowDeadline` | db/workflow.go:526-570 | the new deadline reaches the workflow and every step not COMPLETE or CANCELLED, and no other |
| `Store.Database.UpdateWorkflowStepState` | db/workflow.go:720-867 | moves all named steps and logs them, or, if one is unknown or may not move, changes nothing at all; a name given twice counts once |
| `Store.Database.ListWorkflowSteps` | db/workflow.go:609-666 | fails exactly on rows that form no DAG |
| `Store.CountDecidesReady` | db/workflow.go:690-702 | a zero count of incomplete joined parents on a DEFINED step means exactly: DEFINED with all parents COMPLETE |
| `Store.Database.ListWorkflowStepsReadyToRun` | db/workflow.go:683-715 | lists exactly the startable steps, each once |
| `Store.Database.CountOpenParents` | db/workflow.go:690-702 | the count over the joined parent rows is the number of parents that are not COMPLETE |
| `Store.Database.TasksOfStep` | db/workflow.go:1035-1078 | all tasks linked to a step, or exactly the live ones, latest first; not found for an unknown step |
| `Store.AllLatestFirst` | db/workflow.go:1035-1078 | the whole list is the links backwards |
| `Store.LiveLatestFirst` | db/workflow.go:1035-1078 | the live list holds exactly the live attempts |
| `Store.Database.StepProcessedByTask` | db/workflow.go:1087-1100 | the step a task is linked to, or none when no step is |
| `Store.Database.LinkWorkflowStepWithExecutorTask` | db/workflow.go:1013-1024 | links a task to a step: the task becomes the head of the step's list of tasks, and nothing else changes |
| `Store.LinkedResolves` | db/workflow.go:1013-1100 | after the link the new task resolves to its step, and every other task to the step it resolved to before |
| `Store.Database.UpdateTaskState` | db/task.go:157-203 | writes the task state exactly when the table allows it; CANCELLING leaves no audit event |
| `Store.Database.UpdateTaskExecutionState` | db/task.go:602-665 | writes the run state exactly when the table allows it (and ACQUIRED names a worker), with worker, outcome and disposition |
| `Store.Database.ListTasks` | db/task.go:297-346 | exactly the tasks in the asked states, or those of them past a deadline, in the order of their creation |
| `Store.Database.ListAllExecutions` | db/task.go:526-584 | exactly the runs in the asked states, or those of them past their deadline or start time |
| `WorkflowScheduler.Scheduler.ProcessWorkflow` | workflow/scheduler_process_workflow.go:37-135 | does the specified transaction: PENDING becomes RUNNING, exactly the startable steps become PENDING and are poked; nothing in the hard-stop states |
| `WorkflowScheduler.Scheduler.ScheduleWorkflowStep` | workflow/scheduler_schedule_step.go:47-223 | dispatches a PENDING step without live task in time, times the workflow out after the deadline, else does nothing |
| `WorkflowScheduler.Scheduler.ApplyStepExecutionUpdate` | workflow/scheduler_step_exec_update.go:63-233 | applies an outcome as specified, with rollback |
| `WorkflowScheduler.Scheduler.ApplyStepTaskUpdate` | workflow/scheduler_step_task_update.go:33-68 | resolves the task to its step and applies the outcome; an unlinked task is dropped |
| `WorkflowScheduler.Scheduler.SettleWorkflowIfDone` | workflow/scheduler_step_exec_update.go:260-317 | advances the workflow exactly when it is RUNNING with all steps COMPLETE or CANCELLING with all steps settled |
| `WorkflowScheduler.Scheduler.TimeOutWorkflowSteps` | workflow/scheduler_timeout.go:38-102 | times out the workflow and exactly its DEFINED, PENDING and RUNNING steps, and asks to cancel exactly the live tasks of the RUNNING ones |
| `WorkflowScheduler.Scheduler.CancelWorkflow` | workflow/scheduler_cancel.go:39-168 | drains RUNNING steps, cancels the open and failed ones, settles, and asks to cancel exactly the live tasks of the drained steps |
| `WorkflowScheduler.Scheduler.ReviveWorkflow` | workflow/scheduler_revive.go:45-168 | reverts exactly the FAILED and TIMED_OUT steps under the stated preconditions, else writes nothing; tells which it was |
| `WorkflowScheduler.Scheduler.ClassifyRunningStep` | workflow/scheduler_maintenance.go:319-348 | no outcome while a task is live, else the latest task's outcome, or FAILED without a task |
| `WorkflowScheduler.Scheduler.ClassifyCancellingStep` | workflow/scheduler_maintenance.go:363-386 | cancel requests for exactly the live tasks, or the verdict that there is none |
| `WorkflowScheduler.Scheduler.ReconcileWorkflow` | workflow/scheduler_maintenance.go:143-299 | does the specified sweep, and sends outcomes before schedules before the process poke before cancel requests |
| `TaskScheduler.Scheduler.ProcessNewPendingTask` | task/scheduler_new_task.go:20-96 | activates a PENDING task and defines its first run, enqueued at once if immediate; rolls back an immediate task whose request cannot be enqueued |
| `TaskScheduler.Scheduler.ProcessTaskExecutionStarting` | task/scheduler_task_exec.go:50-110 | enqueues a run that has not been started and requests it; a started one is left alone; rolls back when the request cannot be enqueued |
| `TaskScheduler.Scheduler.ProcessTaskExecutionComplete` | task/scheduler_task_exec.go:119-167 | finalizes the run and completes its task, once, or rolls back |
| `TaskScheduler.Scheduler.ProcessTaskExecutionFailed` | task/scheduler_task_exec.go:206-295 | finalizes the run and, while the task is ACTIVE, schedules a retry or fails the task |
| `TaskScheduler.Scheduler.ProcessTaskExecutionEngineFailed` | task/scheduler_task_exec.go:310-378 | finalizes the run, fails the task and records the engine failure in one transaction, or rolls back |
| `TaskScheduler.Scheduler.ProcessTaskExecutionTimedOut` | task/scheduler_task_exec.go:387-452 | fails and finalizes an ongoing run, times its task out and cancels the other ongoing runs, or rolls back |
| `TaskScheduler.Scheduler.ProcessCancelTask` | task/scheduler_cancel_task.go:55-115 | takes a live task through CANCELLING to CANCELLED and cancels exactly its ongoing runs |
| `TaskScheduler.Scheduler.ProcessTaskTimeout` | task/scheduler_cancel_task.go:124-168 | times out an ACTIVE task and cancels exactly its ongoing runs |
| `TaskScheduler.Scheduler.CancelOngoingExecInstancesOfTask` | task/scheduler_cancel_task.go:15-46 | cancels every ongoing run of the task and no other |
| `TaskMaintenance.PerformMaintenance` | task/scheduler_maintenance.go:18-226 | a whole pass is a run of the system's own sweep actions; it leaves a task PENDING exactly when the task is immediate and its request cannot be enqueued, no ACTIVE task past its deadline, no FAILED run, no PROCESSED run of an ACTIVE task, no due SCHEDULED run unless its request cannot be enqueued, and no requested run past its deadline |
| `Workers.Process.ProcessOneIPCRequest` | task/receiver.go:773-914 | claims a run and submits it, or reports an engine failure, exactly as the system's actions say; a request is kept exactly as long as its job |
| `Workers.Process.OnTaskComplete` | task/receiver.go:331-416 | reports a job from the error chain it ended with: no error a success, an executor error anywhere in the chain an engine failure, any other a failed execution; drops its request |
| `Workers.Process.HasKind` | task/receiver.go:331-416 | walking the chain finds an error of a kind exactly when the chain holds one |
| `Errors.AsMeans` | task/receiver.go:331-416 | an error is of a kind exactly when some number of unwrappings leads to that kind |
| `Workers.Process.FailureDisposition` | task/executor.go:419-426 | a failure forbids retries exactly when its chain holds a non-recoverable error |
| `Workers.Process.Initialize` | task/receiver.go:590-647 | after a restart fails and reports exactly the runs the worker's earlier life had in hand |
| `Workers.Process.BeginExecutionInstance` | task/executor.go:240-313 | marks the run PROCESSING, then calls the processor if there is one; a run that cannot be marked is reported failed |
| `Workers.Process.EndExecutionInstance` | task/executor.go:315-411 | records the result, the disposition read off the error chain, and then reports it; a result that could not be recorded is reported as a failed execution |
| `WorkflowEffects.TimeOutEffect` | workflow/scheduler_timeout.go:38-102 | whenever handling a message or a sweep takes the workflow from RUNNING to TIMED_OUT, exactly the DEFINED, PENDING and RUNNING steps go to TIMED_OUT, and exactly the PENDING and ACTIVE tasks linked to RUNNING steps are asked to be cancelled |
| `WorkflowEffects.TimesOutExactlyWhen` | workflow/scheduler_step_exec_update.go:63-233 | a message times out a RUNNING workflow exactly when it is a schedule poke, past the deadline, for a PENDING step without a task at work, or tells the outcome TIMED_OUT of a step that is not settled |
| `WorkflowEffects.TimedOutTasksAsked` | workflow/scheduler_step_exec_update.go:171-233 | whatever the action that times out the workflow, every task at work on a RUNNING step has its cancel request sent |
| `WorkflowEffects.ProcessEffect` | workflow/scheduler_process_workflow.go:37-135 | when a fan-out does something, exactly which steps become PENDING, and that exactly these are poked |
| `WorkflowEffects.ScheduleEffect` | workflow/scheduler_schedule_step.go:47-223 | exactly when a schedule poke dispatches, times out, or does nothing; the fields of the task it defines, its link and its submission |
| `WorkflowEffects.TasksComeFromDispatch` | workflow/scheduler_schedule_step.go:128-197 | no other message defines a task, and a task is asked for exactly when it is defined |
| `WorkflowEffects.SuccessEffect` | workflow/scheduler_step_exec_update.go:134-233 | a success makes the step COMPLETE; the workflow is COMPLETE exactly when all other steps are, and is poked to fan out exactly when not |
| `WorkflowEffects.FailureEffect` | workflow/scheduler_step_exec_update.go:134-233 | a failure makes the step and the workflow FAILED and sends nothing |
| `WorkflowEffects.DrainedEffect` | workflow/scheduler_step_exec_update.go:101-132 | any outcome of a CANCELLING step makes it CANCELLED, and the workflow with the last one |
| `WorkflowEffects.CancelledEffect` | workflow/scheduler_step_exec_update.go:134-233 | CANCELLED as an outcome of a step that has not begun |
| `WorkflowEffects.OutcomeWithoutEffect` | workflow/scheduler_step_exec_update.go:101-233 | every other outcome writes nothing and sends nothing |
| `WorkflowEffects.StrayOutcome` | workflow/scheduler_step_task_update.go:33-68 | so does an outcome of an unknown step or an unlinked task |
| `WorkflowEffects.CancelEffect` | workflow/scheduler_cancel.go:39-168 | when a cancellation does something, where each step state goes, that the workflow is CANCELLED at once exactly when no step is RUNNING, and exactly which tasks are asked to be cancelled |
| `WorkflowEffects.ReviveEffect` | workflow/scheduler_revive.go:45-168 | a revival changes the rows exactly when the workflow is FAILED, or TIMED_OUT and a new deadline is given, and a given deadline lies after now; where each step goes, and the one poke |
| `WorkflowEffects.RevivedInTime` | workflow/scheduler_revive.go:76-88 | whatever the action, a workflow that goes from TIMED_OUT to RUNNING has a deadline after now |
| `WorkflowEffects.SweepEffectBeforeDeadline` | workflow/scheduler_maintenance.go:173-299 | message by message, exactly what the sweep before the deadline sends, outcomes state by state; it writes nothing |
| `WorkflowEffects.SweepEffectAfterDeadline` | workflow/scheduler_maintenance.go:143-172 | from the deadline on the sweep times out a RUNNING workflow and does nothing to any other |
| `WorkflowEffects.OnlySchedulerCommits` | workflow/scheduler_maintenance.go:143-299 | an action that writes the workflow row is one transaction of the workflow scheduler |
| `TaskEffects.TaskTimeoutEffect` | task/scheduler_cancel_task.go:124-168 | an ACTIVE task becomes TIMED_OUT with no ongoing run and one audit event, every other row as before; any other task is left alone |
| `TaskEffects.RunTimeoutEffect` | task/scheduler_task_exec.go:387-452 | a requested run that is not over is finalized as a retryable failure and its task TIMED_OUT with no ongoing run; any other run is left alone |
| `TaskEffects.CancelTaskEffect` | task/scheduler_cancel_task.go:55-115 | a PENDING or ACTIVE task becomes CANCELLED and exactly its ongoing runs are cancelled; any other is left alone |
| `TaskEffects.ActivationEffect` | task/scheduler_new_task.go:20-96 | exactly when a task is activated, all fields of its first run, start time and deadline included, and when its request is sent |
| `TaskEffects.StartEffect` | task/scheduler_task_exec.go:50-110 | exactly when a run is enqueued, and that exactly its own request is sent |
| `TaskEffects.CompletionEffect` | task/scheduler_task_exec.go:119-167 | exactly when a completion finalizes its run and completes the task |
| `TaskEffects.EngineFailureEffect` | task/scheduler_task_exec.go:310-378 | exactly when an engine failure finalizes its run and fails the task, with both audit events |
| `TaskEffects.FailureEffect` | task/scheduler_task_exec.go:206-295 | a failure on record is finalized, and retried, by a run with all its fields, or fails its task |
| `TaskEffects.FailureWithoutEffect` | task/scheduler_task_exec.go:206-295 | a failure report for a run that is ongoing, cancelled or handled does nothing |
| `WorkerEffects.ClaimEffect` | task/receiver.go:773-826 | a claim takes exactly an ENQUEUED run whose request was sent; any other request is answered with an engine failure |
| `WorkerEffects.RefusalEffect` | task/receiver.go:826-914 | a refusal ends the job as an engine failure and the run as a retryable failure |
| `WorkerEffects.BeginEffect` | task/executor.go:240-313 | exactly when a run is marked PROCESSING and its processor called; otherwise the job ends as a failed execution |
| `WorkerEffects.SuccessfulEnd` | task/executor.go:315-411 | a success is recorded and reported, or reported as a failed execution when it cannot be recorded |
| `WorkerEffects.FailedEnd` | task/executor.go:315-426 | the disposition and the report of a failure, read off its error |
| `WorkerEffects.UnservedEnd` | task/executor.go:240-411 | a task without processor is reported as an engine failure |
| `WorkerEffects.EveryEndIsReported` | task/receiver.go:331-416 | whatever the action, short of the death of the worker, a job that ends is reported, once |
| `WorkerEffects.RestartEffect` | task/receiver.go:562-647 | a restarted worker fails and reports exactly the ACQUIRED and PROCESSING runs it had in hand and touches no other |
| `WorkerEffects.NotificationEffect` | workflow/scheduler_notify.go:24-87 | which outcome each audit event of a task is turned into |
| `DueRuns.DueRunIsCalled` | task/scheduler_task_exec.go:50-110 | from every reachable state with a due SCHEDULED run and a sender: a sweep, a claim and a thread lead to the call of the processor for that very run, not called for it before |
| `DueRuns.DueRunCanComplete` | task/scheduler_task_exec.go:119-167 | and its success to a COMPLETE task, however many runs failed before |
| `DueRuns.FailureLeavesDueRun` | task/scheduler_task_exec.go:206-295 | a failure with a retry left leaves such a run, due after the back-off |
| `WorkflowInvariants.HandleKeeps` | workflow/scheduler_step_exec_update.go:63-317 | every workflow message keeps aggregate agreement, dependency order and mirrored deadlines, undoes nothing final, and dispatches and completes nothing under a cancellation |
| `WorkflowInvariants.ProcessKeeps` | workflow/scheduler_process_workflow.go:37-135 | the same for the fan-out alone |
| `WorkflowInvariants.ReconcileKeeps` | workflow/scheduler_maintenance.go:143-241 | the same for the sweep, which before the deadline writes nothing at all: the handlers never leave an aggregate undone |
| `WorkflowInvariants.TimeOutAgrees` | workflow/scheduler_timeout.go:38-102 | the timeout keeps the aggregate agreement |
| `WorkflowInvariants.CancelAgrees` | workflow/scheduler_cancel.go:39-141 | the cancellation keeps the aggregate agreement; CANCELLED is reached in the same transaction when nothing is left to drain |
| `WorkflowInvariants.RevivedAgrees` | workflow/scheduler_revive.go:90-122 | a revival leaves a RUNNING workflow without FAILED, TIMED_OUT or CANCELLING steps |
| `AuditInvariants.HandleLogs` | db/workflow.go:227-255 | after every workflow message the log, read back, still gives every state, its terminal events are still true, and completions are still in dependency order |
| `AuditInvariants.ReconcileLogs` | db/workflow.go:833-864 | the same for the sweep |
| `AuditInvariants.PutTaskLogs` | db/task.go:179-200 | the same for every task write |
| `AuditInvariants.AncestorsCompleteFirst` | db/workflow.go:833-864 | the completions of a whole chain of ancestors are logged before the step's own |
| `TaskInvariants.CompleteRunKeeps` | task/scheduler_task_exec.go:119-167 | keeps the chain of runs of every task, the finality of outcomes, and the log |
| `TaskInvariants.FailRunKeeps` | task/scheduler_task_exec.go:206-295 | the same for the retry decision, including the retry bound |
| `TaskInvariants.EngineFailRunKeeps` | task/scheduler_task_exec.go:310-378 | the same for engine failures |
| `TaskInvariants.TimeOutRunKeeps` | task/scheduler_task_exec.go:387-452 | the same for run timeouts |
| `TaskInvariants.StopTaskKeeps` | task/scheduler_cancel_task.go:55-115 | the same for cancellation; CANCELLING is never committed |
| `TaskInvariants.RetriesExactlyWhen` | task/scheduler_task_exec.go:185-288 | a failure of the latest run of an ACTIVE task is retried exactly when retries are not forbidden, not used up, and the wrapped initial delay is positive; else it fails the task; a retry waits the back-off of as many retries as there have been, within the bounds, and as documented if the seconds fit |
| `TaskInvariants.RetriesAsPromised` | task/scheduler_task_exec.go:185-288 | with seconds that fit, a failure is final exactly when retries are forbidden or used up |
| `LinkInvariants.HandleLinks` | workflow/scheduler_schedule_step.go:93-180 | every workflow message keeps the links: attempts in order, all but the latest ended, a COMPLETE task behind every COMPLETE step, timely tasks, dispatches bounded by revivals |
| `LinkInvariants.SingleDispatch` | workflow/scheduler_schedule_step.go:114-126 | at most one task of a step is live, and only the latest can be |
| `LinkInvariants.DispatchBounded` | workflow/scheduler_maintenance.go:336-340 | a RUNNING or CANCELLING step always has a task, so the sweep's no-task branch is never taken; at most one dispatch more than revivals |
| `SystemInvariants.NextInv` | workflow/scheduler_maintenance.go:143-299 | every action of the composed system keeps its invariant, including that every message in flight is true of the rows |
| `SystemInvariants.NoticeBacked` | workflow/scheduler_notify.go:24-87 | every notification of a terminal task event tells the task's state for good |
| `Guarantees.CompletionIsReal` | workflow/scheduler_step_exec_update.go:134-151 | end to end, in every reachable state: a COMPLETE step has a linked COMPLETE task with a finalized run whose recorded outcome is success and whose processor was called; a COMPLETE workflow has this for every step of its specification |
| `Guarantees.AggregateAgrees` | workflow/scheduler_step_exec_update.go:260-317 | in every reachable state the workflow state and the step states agree in all the stated ways |
| `Guarantees.DependenciesFirst` | workflow/scheduler_process_workflow.go:80-105 | in every reachable state all ancestors of a step that has begun are COMPLETE, and the logged order of completions extends the DAG |
| `Guarantees.DispatchedOnce` | workflow/scheduler_schedule_step.go:93-180 | in every reachable state a step has at most one live task, at most one dispatch more than revivals, a task while RUNNING or CANCELLING, only tasks created in time, and its user_restarted flag exactly when the log tells of a revival |
| `Guarantees.DispatchInTime` | workflow/scheduler_schedule_step.go:128-169 | in every reachable state a dispatch gives the new task the workflow's current, not yet passed deadline and links it to its step alone |
| `Guarantees.ExecutedAtMostOnce` | task/receiver.go:773-826 | in every run each execution instance is claimed at most once and its processor called at most once |
| `Guarantees.CancellationIsFinal` | workflow/scheduler_cancel.go:55-141 | in every continuation of every run, once the workflow is CANCELLING no step gets another task and no further step completes |
| `Guarantees.NothingUndone` | db/workflow.go:180-258 | in every continuation of every run COMPLETE and CANCELLED workflows and steps, terminal tasks, recorded outcomes and the log stay as they are |
| `Guarantees.CancelledStepIsForever` | models/workflow.go:279-326 | in every continuation of every run a CANCELLED step stays exactly as it is, and its workflow never completes; no revival undoes that |
| `Guarantees.LogAgrees` | db/task.go:179-200 | in every reachable state the audit log alone gives every state, and no task is CANCELLING |
| `Guarantees.DeadlinesMirrored` | db/workflow.go:526-570 | in every reachable state every step that can still move carries the workflow's deadline, across revivals |
| `Guarantees.RetriesBounded` | task/scheduler_task_exec.go:185-288 | in every reachable state every task has at most one open run, exactly one when ACTIVE, an ongoing run only when ACTIVE, at most MaxRetries + 1 runs, and only retryable failures before its latest run |
| `Guarantees.ReachedGraph` | db/workflow.go:86-116 | in every reachable state the stored dependency graph is the accepted one |
| `Guarantees.ListingNeverFails` | db/workflow.go:657-663 | in every reachable state the steps can be listed |
| `Idempotence.DeliveredTwice` | workflow/scheduler_step_exec_update.go:101-132 | in every reachable state, delivering any message in flight twice, or sweeping twice, leaves the rows, the log included, as doing it once does, rollbacks included |
| `Idempotence.HandleTwice` | workflow/scheduler_schedule_step.go:77-126 | the same for each workflow message on all rows the invariant admits |
| `Recovery.LostPokeResent` | workflow/scheduler_maintenance.go:173-221 | before the deadline, on any rows, a lost process or schedule poke is sent again by the sweep unless handling it would do nothing |
| `Recovery.HandlerPokesResent` | workflow/scheduler_process_workflow.go:116-132 | all that a handler sends to the workflow scheduler is such a poke, so losing it after the commit loses nothing |
| `Recovery.LostSubmissionResent` | workflow/scheduler_schedule_step.go:182-197 | a task whose submission was lost is PENDING, and the task sweep does to it what the lost message would have done: activates it and requests its run, if its requests can be enqueued |
| `Recovery.LostOutcomeReplaced` | workflow/scheduler_maintenance.go:319-386 | for a RUNNING or CANCELLING step whose current task has ended the sweep sends an outcome with exactly the effect the lost notification would have had |
| `Recovery.TimeOutCommits` | workflow/scheduler_timeout.go:90-99 | past the deadline the sweep times out exactly RUNNING and TIMED_OUT workflows; any other is left as it is and nothing is sent |
| `Recovery.OutcomeCommits` | models/workflow.go:279-326 | exactly when an outcome commits and exactly when it changes the rows, state by state |
| `Recovery.AttemptIsNotLookedAt` | workflow/scheduler_step_task_update.go:33-68 | which attempt an outcome came from makes no difference |
| `Recovery.LateOutcomeChanges` | workflow/scheduler_step_task_update.go:33-68 | a late outcome of any attempt changes the rows exactly when the step in its present state takes that outcome |
| `Recovery.EngineFailureRace` | task/scheduler_maintenance.go:135-148 | reported first, an engine failure fails the task; after the sweep it does so exactly when no retry is left |
| `Recovery.DuplicateRequestRace` | task/receiver.go:787-826 | a success and the engine failure of its duplicated request: the one handled first decides the task |
| `LostSuccess.EngineFailLoses` | task/scheduler_task_exec.go:310-378 | the engine failure of a run fails a task with a successful run exactly when that very run is PROCESSED, not yet handled, and its task ACTIVE |
| `LostSuccess.LosesExactlyWhen` | task/scheduler_task_exec.go:310-378 | from any state the system's invariant admits, an action makes a task FAILED although a run of it succeeded exactly when it delivers the engine failure of that run while the run is PROCESSED and its task ACTIVE |
| `LostSuccess.LostExactlyBy` | task/receiver.go:773-826 | the same for one action more of any run of the system |
| `LostSuccess.LostOnlyAfterRefusedClaim` | task/receiver.go:773-826 | in every run of the system, a task that is FAILED although a run of it succeeded had a claim of that very run refused |
| `Progress.SomethingToDo` | workflow/scheduler_maintenance.go:180-215 | a workflow on its way has a startable, PENDING or RUNNING step; this needs the absence of cycles |
| `Progress.RoundAdvances` | workflow/scheduler_maintenance.go:143-299 | one sweep and the handling of its own pokes, in any order, takes at least one step further and none back |
| `Progress.CompletesWithinThreeRoundsPerStep` | workflow/scheduler_maintenance.go:143-299 | with every other message lost, a workflow whose tasks succeed is COMPLETE after three rounds per step |
| `Progress.RoundIsARun` | workflow/scheduler_maintenance.go:249-299 | such a round is a run of the composed system |
| `Completion.EverySpecificationCanComplete` | workflow/scheduler_process_workflow.go:37-135 | for every accepted specification defined before its deadline there is a run of the two engines, with a queue that takes the workflow tasks' requests, that ends COMPLETE |
| `Completion.HappyPathWorks` | task/scheduler_new_task.go:20-96 | five actions take a waiting task through its run to COMPLETE and touch nothing else |
| `Draining.CancellationCompletes` | workflow/scheduler_maintenance.go:363-386 | cancel requests delivered, one sweep before the deadline and its outcomes, in any order, take every CANCELLING workflow to CANCELLED |
| `Draining.CancellationIsARun` | workflow/scheduler_maintenance.go:143-299 | the same as a run of the system: a sweep, its cancel requests, a sweep, its outcomes |
| `Draining.EveryCancellationCanEnd` | workflow/scheduler_cancel.go:39-168 | every run that is CANCELLING, before its deadline or after it, has a continuation that ends CANCELLED, made only of deliveries of sent messages and notifications of logged events |
| `Draining.ReachedAsked` | workflow/scheduler_cancel.go:78-165 | in every reachable state every live task of a CANCELLING step has had its cancel request sent |
| `Draining.CancelAsksForAll` | workflow/scheduler_cancel.go:78-165 | the cancellation asks for exactly the tasks the sweep would ask for |
| `Examples.SuccessReportedAsFailure` | task/receiver.go:787-826 | a run of the system in which the processor succeeds and its task ends FAILED, because its request was delivered twice |
| `Examples.LateFailedWorkflowStays` | workflow/scheduler_timeout.go:90-99 | a run of the system to a FAILED workflow past its deadline that every sweep leaves as it is |
| `Examples.UnlimitedRetriesNeverRetried` | models/task.go:68-77 | a run of the system in which a task with unlimited retries and an initial delay of 9223372037 s is FAILED after its first, retryable, failure |
| `Examples.CancelledTaskNeverSettles` | models/workflow.go:279-326 | a run of the system in which a user has cancelled the task of a RUNNING step, and any number of sweeps and deliveries of its outcome leave the rows as they are |
| `Examples.EngineFailureRetried` | task/scheduler_maintenance.go:135-148 | a run of the system to an engine failure that is retried because the sweep came first, its report changing nothing any more |
| `Examples.LateOutcomeHitsRevivedStep` | workflow/scheduler_step_task_update.go:33-68 | a run of the system in which a revived step is failed by the late outcome of its first attempt while the second is live |
| `Examples.LateCancellationHitsRevivedStep` | workflow/scheduler_step_task_update.go:33-68 | a run of the system in which a timed-out step is revived and then CANCELLED, in a RUNNING workflow, by the notification that its first task was cancelled |

## Left out

- Redis queues, publish/subscribe, timers, contexts, goroutines, logging, `OnFatal`: messages may simply be delivered zero or more times.
- Replaying the queue buffers after a restart (`recoverBufferedMessages`, the buffered half of the receiver's `Initialize`): what is replayed is a delivery of an old message, which the model allows at any time; the `goutils` code that moves buffered messages is not part of this model.
- JSON encoding, validator tags beyond required fields and ranges, SQL and GORM syntax, ULIDs, workflow names, creators, parameters, metadata, error texts, started/stopped/updated timestamps.
- Several workflows side by side: their rows are disjoint and no handler reads another workflow's.
- `DeleteWorkflow`, `DeleteTask`, `UpdateTaskDeadline` and the audit events of definitions: bookkeeping that no transition depends on.
- The notification producer's routing: only that a terminal task event may become an outcome message.
- The step runner and the user's processors: a processor returns success, an error chain, or never returns.
- Backoff.NextDelay: the int64 wrap of the seconds is modelled; the growth after it is computed over the real numbers and truncated, not in float64, so a delay may differ from Go's by its rounding. A product too far below zero for an int64 is taken as the least int64, where Go leaves the conversion to the implementation.
- Backoff.DelayBounds: over the reals, as `NextDelay`; the signs and the upper bound do not depend on the rounding, a lower bound beyond 2^53 ns may be off by it.
- Backoff.DelayFollowsFactor: over the reals, as `NextDelay`.
- Backoff.DelayMonotone: over the reals, as `NextDelay`; that math.Pow itself never falls is not shown.
- Backoff.MonotoneExactlyWhen: over the reals, as `NextDelay`; a wrapped delay within 512 ns of the least int64 is rounded down to it in float64 and then no longer falls.
- Store.DefineNewWorkflow: the DEFINE_WORKFLOW audit event, the validators of the single rows and the separate rows of the edges, which are written in the same transaction and never change; a step holds its parents as a set.
- Store.Database.ListTasks: the filters by ids, names and schedule classes, limit and offset, which no scheduler sets.
- Store.Database.ListAllExecutions: the filters by task, worker (`Workers.Process.Initialize` looks at the worker itself), class and terminal state, limit and offset, and the order by creation time; no handler depends on the order, and every order of the sweep's actions is a run of the system.
- TaskMaintenance.PerformMaintenance: one pass is followed without other processes interleaving between its transactions; the system's actions allow any interleaving. The time a failed run was last updated is a parameter.
- Workers.Process.ProcessOneIPCRequest: poison messages and database errors that end the process are left out; whether the executor takes the run is a parameter, as it depends on the state of its thread pool.
- Workers.Process.Initialize: the buffered requests and their re-enqueueing (see above).
- Workers.Process.BeginExecutionInstance: whether a processor is registered under the task's name, and whether the transaction meets a fault, are parameters.
- Workers.Process.EndExecutionInstance: what the processor returned and whether the recording transaction meets a fault are parameters.
- TaskScheduler.Scheduler.ProcessNewPendingTask: an enqueue that fails and the absence of a sender are one condition, the task's name not being among `senders`; a request sent from a transaction that then fails is the action `Leak`.
- TaskScheduler.Scheduler.ProcessTaskExecutionStarting: the same.
- WorkflowScheduler.Scheduler.ApplyStepTaskUpdate: resolves the step and applies the outcome in one step, where the code uses two transactions; a link once written never changes, and an outcome dropped because the link is not there yet is a lost message.
- Progress.CompletesWithinThreeRoundsPerStep: it assumes that between two rounds the task engine takes each dispatched task to success; that the engine can is shown in `Completion`, that it must is a matter of scheduling and of the user's processors.
- Database faults after a commit that is reported as failed: an error always means that nothing was written.
