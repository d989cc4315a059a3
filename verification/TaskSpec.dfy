/** What each handler of the task engine does to the rows in its one transaction: the task
    scheduler's handlers, the receiver's claim and the executor's bookkeeping. */
module TaskSpec {
  import opened Prelude
  import opened Tables
  import opened Backoff
  import opened Rows

  predicate HasRun(rows: Rows, r: RunId) {
    r.task < |rows.tasks| && r.index < |rows.tasks[r.task].runs|
  }

  function RunAt(rows: Rows, r: RunId): Run
    requires HasRun(rows, r)
  {
    rows.tasks[r.task].runs[r.index]
  }

  predicate LiveRun(s: RunState) {
    s in {RunDefined, RunScheduled, RunEnqueued, RunAcquired, RunProcessing}
  }

  /** Replaces one task row and appends audit events. */
  function PutTask(rows: Rows, t: TaskId, task: Task, events: seq<Event>): Rows
    requires t < |rows.tasks|
  {
    rows.(tasks := rows.tasks[t := task], log := rows.log + events)
  }

  function PutRun(task: Task, i: nat, run: Run): Task
    requires i < |task.runs|
  {
    task.(runs := task.runs[i := run])
  }

  // ---- run writes ----------------------------------------------------------------------------

  function Finalized(run: Run): Run {
    run.(state := RunFinalized)
  }

  function FailedWith(run: Run, noRetry: bool): Run {
    run.(state := RunFailed, terminal := Some(RunFailed), noRetry := noRetry)
  }

  function CancelledRun(run: Run): Run {
    run.(state := RunCancelled, terminal := Some(RunCancelled))
  }

  /** Cancels every ongoing run of the task. */
  function CancelOngoing(task: Task): Task {
    task.(runs := seq(|task.runs|, i requires 0 <= i < |task.runs| =>
                        if LiveRun(task.runs[i].state) then CancelledRun(task.runs[i]) else task.runs[i]))
  }

  function FirstRun(task: Task): Run {
    match task.timing
    case Immediate => Run(RunEnqueued, None, None, false, None, task.deadline, None)
    case ScheduledAt(time) => Run(RunScheduled, None, None, false, Some(time), task.deadline, None)
  }

  function RetryRun(task: Task, failed: nat, time: Time): Run {
    Run(RunScheduled, None, None, false, Some(time), task.deadline, Some(failed))
  }

  // ---- scheduler: new tasks, starts ----------------------------------------------------------

  /** Activates a PENDING task and defines its first run; an immediate run is enqueued at once. `senders`
      are the task names with a configured sender whose queue takes messages; without one the request
      cannot be enqueued and the whole transaction fails. */
  function Activate(rows: Rows, t: TaskId, senders: set<TaskName>): Effect {
    if t >= |rows.tasks| then Abort(rows)
    else if rows.tasks[t].state != TaskPending then Ignore(rows)
    else if rows.tasks[t].timing.Immediate? && rows.tasks[t].name !in senders then Abort(rows)
    else
      var task := rows.tasks[t];
      var active := task.(state := TaskActive, runs := task.runs + [FirstRun(task)]);
      Effect(true, PutTask(rows, t, active, [TaskEvent(t, TaskActive)]),
             if task.timing.Immediate? then {PendingInstance(RunId(t, |task.runs|))} else {})
  }

  function StartRun(rows: Rows, r: RunId, senders: set<TaskName>): Effect {
    if !HasRun(rows, r) then Abort(rows)
    else if RunAt(rows, r).state !in {RunDefined, RunScheduled} then Ignore(rows)
    else if rows.tasks[r.task].name !in senders then Abort(rows)
    else
      var task := rows.tasks[r.task];
      Effect(true, PutTask(rows, r.task, PutRun(task, r.index, RunAt(rows, r).(state := RunEnqueued)), []),
             {PendingInstance(r)})
  }

  // ---- scheduler: outcomes -------------------------------------------------------------------

  function CountFailed(runs: seq<Run>): nat {
    if runs == [] then 0
    else CountFailed(runs[..|runs| - 1]) + if runs[|runs| - 1].terminal == Some(RunFailed) then 1 else 0
  }

  /** The wait before the next run, 0 when there is to be none: a NON_RETRYABLE failure is never
      retried, any other by the task's back-off, counting retries from 0. */
  function RetryDelay(run: Run, retry: RetryParams, failures: int): int {
    if run.noRetry then 0 else NextDelay(retry, failures - 1)
  }

  predicate CanFinalize(s: RunState) {
    RunFinalized in NextRunStates(s)
  }

  function CompleteRun(rows: Rows, r: RunId): Effect {
    if !HasRun(rows, r) then Abort(rows)
    else if RunAt(rows, r).state == RunFinalized then Ignore(rows)
    else
      var task := rows.tasks[r.task];
      if !CanFinalize(RunAt(rows, r).state) || TaskComplete !in NextTaskStates(task.state) then Abort(rows)
      else
        var done := PutRun(task, r.index, Finalized(RunAt(rows, r))).(state := TaskComplete);
        Effect(true, PutTask(rows, r.task, done, [TaskEvent(r.task, TaskComplete)]), {})
  }

  /** Finalizes a failed run and, while the task is ACTIVE, either schedules a retry or fails the task. */
  function FailRun(rows: Rows, r: RunId, at: Time): Effect {
    if !HasRun(rows, r) then Abort(rows)
    else if RunAt(rows, r).state == RunFinalized then Ignore(rows)
    else if !CanFinalize(RunAt(rows, r).state) then Abort(rows)
    else
      var run := RunAt(rows, r);
      var task := PutRun(rows.tasks[r.task], r.index, Finalized(run));
      var delay := RetryDelay(run, task.retry, CountFailed(task.runs));
      if task.state != TaskActive then Effect(true, PutTask(rows, r.task, task, []), {})
      else if delay <= 0 then
        Effect(true, PutTask(rows, r.task, task.(state := TaskFailed), [TaskEvent(r.task, TaskFailed)]), {})
      else
        var retried := task.(runs := task.runs + [RetryRun(task, r.index, at + delay)]);
        Effect(true, PutTask(rows, r.task, retried, []), {})
  }

  /** An engine-level failure is final for the task. */
  function EngineFailRun(rows: Rows, r: RunId): Effect {
    if !HasRun(rows, r) then Abort(rows)
    else if RunAt(rows, r).state == RunFinalized then Ignore(rows)
    else
      var task := rows.tasks[r.task];
      if !CanFinalize(RunAt(rows, r).state) || TaskFailed !in NextTaskStates(task.state) then Abort(rows)
      else
        var failed := PutRun(task, r.index, Finalized(RunAt(rows, r))).(state := TaskFailed);
        Effect(true, PutTask(rows, r.task, failed, [TaskEvent(r.task, TaskFailed), EngineFailure(r.task)]), {})
  }

  function TimeOutRun(rows: Rows, r: RunId): Effect {
    if !HasRun(rows, r) then Abort(rows)
    else if !LiveRun(RunAt(rows, r).state) then Ignore(rows)
    else
      var task := rows.tasks[r.task];
      if RunFailed !in NextRunStates(RunAt(rows, r).state) || TaskTimedOut !in NextTaskStates(task.state) then
        Abort(rows)
      else
        var late := PutRun(task, r.index, Finalized(FailedWith(RunAt(rows, r), false))).(state := TaskTimedOut);
        Effect(true, PutTask(rows, r.task, CancelOngoing(late), [TaskEvent(r.task, TaskTimedOut)]), {})
  }

  // ---- scheduler: cancellation, task timeout -------------------------------------------------

  /** Cancels the task and its ongoing runs. CANCELLING is passed through inside the transaction. */
  function StopTask(rows: Rows, t: TaskId): Effect {
    if t >= |rows.tasks| then Abort(rows)
    else if rows.tasks[t].state !in {TaskPending, TaskActive, TaskCancelling} then Ignore(rows)
    else
      var stopped := CancelOngoing(rows.tasks[t].(state := TaskCancelled));
      Effect(true, PutTask(rows, t, stopped, [TaskEvent(t, TaskCancelled)]), {})
  }

  function TimeOutTask(rows: Rows, t: TaskId): Effect {
    if t >= |rows.tasks| then Abort(rows)
    else if rows.tasks[t].state != TaskActive then Ignore(rows)
    else
      var late := CancelOngoing(rows.tasks[t].(state := TaskTimedOut));
      Effect(true, PutTask(rows, t, late, [TaskEvent(t, TaskTimedOut)]), {})
  }

  // ---- receiver and executor -----------------------------------------------------------------

  /** One guarded write to a run, in a transaction of its own. */
  function WriteRun(rows: Rows, r: RunId, next: Run): Effect {
    if !HasRun(rows, r) || next.state !in NextRunStates(RunAt(rows, r).state) then Abort(rows)
    else Effect(true, PutTask(rows, r.task, PutRun(rows.tasks[r.task], r.index, next), []), {})
  }

  function Claim(rows: Rows, r: RunId, w: Worker): Effect {
    if !HasRun(rows, r) then Abort(rows)
    else WriteRun(rows, r, RunAt(rows, r).(state := RunAcquired, worker := Some(w)))
  }

  function BeginRun(rows: Rows, r: RunId): Effect {
    if !HasRun(rows, r) then Abort(rows)
    else WriteRun(rows, r, RunAt(rows, r).(state := RunProcessing))
  }

  function MarkProcessed(rows: Rows, r: RunId): Effect {
    if !HasRun(rows, r) then Abort(rows)
    else WriteRun(rows, r, RunAt(rows, r).(state := RunProcessed, terminal := Some(RunProcessed)))
  }

  function MarkFailed(rows: Rows, r: RunId, noRetry: bool): Effect {
    if !HasRun(rows, r) then Abort(rows)
    else WriteRun(rows, r, FailedWith(RunAt(rows, r), noRetry))
  }

  predicate OwnedBy(run: Run, w: Worker) {
    run.state in {RunAcquired, RunProcessing} && run.worker == Some(w)
  }

  function AbandonedTask(task: Task, w: Worker): Task {
    task.(runs := seq(|task.runs|, i requires 0 <= i < |task.runs| =>
                        if OwnedBy(task.runs[i], w) then FailedWith(task.runs[i], false) else task.runs[i]))
  }

  /** A restarted worker fails every run its previous life had acquired and reports each. */
  function Recover(rows: Rows, w: Worker): Effect {
    Effect(true,
           rows.(tasks := seq(|rows.tasks|, t requires 0 <= t < |rows.tasks| => AbandonedTask(rows.tasks[t], w))),
           set t, i | 0 <= t < |rows.tasks| && 0 <= i < |rows.tasks[t].runs| && OwnedBy(rows.tasks[t].runs[i], w) ::
             ExecFailed(RunId(t, i)))
  }
}
