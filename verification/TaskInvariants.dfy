/** What every handler of the task engine keeps, task by task: the chain of runs, the retry bound,
    and the finality of task and run outcomes. */
module TaskInvariants {
  import opened Prelude
  import opened Tables
  import opened Backoff
  import opened Rows
  import opened TaskSpec
  import opened AuditInvariants

  /** `terminal` tells the outcome of a run that has ended, and keeps telling it after finalization. */
  predicate RunInv(run: Run) {
    && (match run.state
        case RunProcessed => run.terminal == Some(RunProcessed)
        case RunFailed => run.terminal == Some(RunFailed)
        case RunCancelled => run.terminal == Some(RunCancelled)
        case RunFinalized => run.terminal == Some(RunProcessed) || run.terminal == Some(RunFailed)
        case _ => run.terminal == None)
    && (run.noRetry ==> run.terminal == Some(RunFailed))
    && (run.state in {RunAcquired, RunProcessing} ==> run.worker.Some?)
    && (run.state in {RunDefined, RunScheduled, RunEnqueued} ==> run.worker == None)
  }

  /** A run that was followed by a retry. */
  predicate Superseded(run: Run) {
    run.state == RunFinalized && run.terminal == Some(RunFailed) && !run.noRetry
  }

  /** A run the scheduler still has to act on or that is still ongoing. */
  predicate OpenRun(run: Run) {
    run.state !in {RunFinalized, RunCancelled}
  }

  function Last(task: Task): Run
    requires task.runs != []
  {
    task.runs[|task.runs| - 1]
  }

  predicate TaskInv(task: Task) {
    && ValidRetry(task.retry)
    && task.state != TaskCancelling
    && (forall i :: 0 <= i < |task.runs| ==> RunInv(task.runs[i]))
    && (forall i :: 0 <= i < |task.runs| - 1 ==> Superseded(task.runs[i]))
    && (forall i :: 0 <= i < |task.runs| ==> task.runs[i].retryOf == if i == 0 then None else Some(i - 1))
    && (task.state == TaskPending ==> task.runs == [])
    && (task.state == TaskActive ==> task.runs != [] && OpenRun(Last(task)))
    && (task.runs != [] && LiveRun(Last(task).state) ==> task.state == TaskActive)
    && (task.state == TaskComplete ==>
          task.runs != [] && Last(task).state == RunFinalized && Last(task).terminal == Some(RunProcessed))
    && (task.retry.maxRetries >= 0 ==> |task.runs| <= task.retry.maxRetries + 1)
  }

  /** How far along its life a run is. */
  function Phase(s: RunState): nat {
    match s
    case RunDefined => 0
    case RunScheduled => 1
    case RunEnqueued => 2
    case RunAcquired => 3
    case RunProcessing => 4
    case RunProcessed => 5
    case RunFailed => 5
    case RunFinalized => 6
    case RunCancelled => 6
  }

  predicate RunEvolves(a: Run, b: Run) {
    && Phase(a.state) <= Phase(b.state)
    && (a.terminal.Some? ==> b.terminal == a.terminal && b.noRetry == a.noRetry)
    && (a.worker.Some? ==> b.worker == a.worker)
    && b.retryOf == a.retryOf && b.deadline == a.deadline && b.enqueueAt == a.enqueueAt
  }

  predicate TaskEvolves(a: Task, b: Task) {
    && (TerminalTask(a.state) ==> b.state == a.state)
    && (a.state != TaskPending ==> b.state != TaskPending)
    && b.name == a.name && b.timing == a.timing
    && b.deadline == a.deadline && b.created == a.created && b.retry == a.retry
    && |a.runs| <= |b.runs|
    && forall i :: 0 <= i < |a.runs| ==> RunEvolves(a.runs[i], b.runs[i])
  }

  predicate TasksInv(tasks: seq<Task>) {
    forall t :: 0 <= t < |tasks| ==> TaskInv(tasks[t])
  }

  /** What every transaction of the task engine leaves true. */
  ghost predicate EngineKeeps(a: Rows, b: Rows) {
    && b.wf == a.wf && b.steps == a.steps
    && |b.tasks| == |a.tasks|
    && TasksInv(b.tasks)
    && (forall t :: 0 <= t < |a.tasks| ==> TaskEvolves(a.tasks[t], b.tasks[t]))
    && SameWorkflowStory(a, b)
    && (LogInv(a) ==> LogInv(b))
  }

  lemma PutKeeps(rows: Rows, t: TaskId, task: Task, events: seq<Event>)
    requires TasksInv(rows.tasks) && t < |rows.tasks|
    requires TaskInv(task) && TaskEvolves(rows.tasks[t], task)
    requires Narrated(t, rows.tasks[t].state, task.state, events)
    ensures EngineKeeps(rows, PutTask(rows, t, task, events))
  {
    PutTaskLogs(rows, t, task, events);
  }

  /** Cancelling the ongoing runs of a task that has left the ACTIVE state. */
  lemma CancelOngoingKeeps(before: Task, after: Task)
    requires TaskInv(before) && after.state in {TaskCancelled, TaskTimedOut} && before.state in {TaskPending, TaskActive}
    requires after == before.(state := after.state, runs := after.runs) && |after.runs| == |before.runs|
    requires forall i :: 0 <= i < |before.runs| ==> RunInv(after.runs[i]) && RunEvolves(before.runs[i], after.runs[i])
    requires forall i :: 0 <= i < |before.runs| - 1 ==> after.runs[i] == before.runs[i]
    ensures TaskInv(CancelOngoing(after)) && TaskEvolves(before, CancelOngoing(after))
  {
    var done := CancelOngoing(after);
    forall i | 0 <= i < |done.runs|
      ensures RunInv(done.runs[i]) && RunEvolves(before.runs[i], done.runs[i]) && !LiveRun(done.runs[i].state)
    {
      CancelledRunKeeps(before.runs[i], after.runs[i]);
    }
    forall i | 0 <= i < |done.runs| - 1 ensures Superseded(done.runs[i]) {
      assert Superseded(before.runs[i]);
    }
  }

  /** A run under cancellation: an ongoing one is cancelled, any other left alone. */
  lemma CancelledRunKeeps(before: Run, run: Run)
    requires RunInv(run) && RunEvolves(before, run)
    ensures var done := if LiveRun(run.state) then CancelledRun(run) else run;
            RunInv(done) && RunEvolves(before, done) && !LiveRun(done.state)
  {
  }

  lemma ActivateKeeps(rows: Rows, t: TaskId, senders: set<TaskName>)
    requires TasksInv(rows.tasks)
    ensures EngineKeeps(rows, Activate(rows, t, senders).rows)
  {
    if t < |rows.tasks| && rows.tasks[t].state == TaskPending {
      var task := rows.tasks[t];
      PutKeeps(rows, t, task.(state := TaskActive, runs := task.runs + [FirstRun(task)]), [TaskEvent(t, TaskActive)]);
    }
  }

  lemma StartRunKeeps(rows: Rows, r: RunId, senders: set<TaskName>)
    requires TasksInv(rows.tasks)
    ensures EngineKeeps(rows, StartRun(rows, r, senders).rows)
  {
    if HasRun(rows, r) && RunAt(rows, r).state in {RunDefined, RunScheduled} {
      NotLastIsSuperseded(rows, r);
      PutKeeps(rows, r.task, PutRun(rows.tasks[r.task], r.index, RunAt(rows, r).(state := RunEnqueued)), []);
    }
  }

  /** A run that is not finalized is the latest of its task. */
  lemma NotLastIsSuperseded(rows: Rows, r: RunId)
    requires TasksInv(rows.tasks) && HasRun(rows, r)
    ensures RunAt(rows, r).state != RunFinalized ==> r.index == |rows.tasks[r.task].runs| - 1
  {
    assert TaskInv(rows.tasks[r.task]);
  }

  lemma CompleteRunKeeps(rows: Rows, r: RunId)
    requires TasksInv(rows.tasks)
    requires HasRun(rows, r) ==> RunAt(rows, r).terminal == Some(RunProcessed)
    ensures EngineKeeps(rows, CompleteRun(rows, r).rows)
  {
    if HasRun(rows, r) && CanFinalize(RunAt(rows, r).state) && rows.tasks[r.task].state == TaskActive {
      NotLastIsSuperseded(rows, r);
      CompletedTask(rows.tasks[r.task]);
      var done := PutRun(rows.tasks[r.task], r.index, Finalized(RunAt(rows, r))).(state := TaskComplete);
      PutKeeps(rows, r.task, done, [TaskEvent(r.task, TaskComplete)]);
    }
  }

  lemma CompletedTask(task: Task)
    requires TaskInv(task) && task.runs != [] && task.state == TaskActive
    requires CanFinalize(Last(task).state) && Last(task).terminal == Some(RunProcessed)
    ensures var done := PutRun(task, |task.runs| - 1, Finalized(Last(task))).(state := TaskComplete);
            TaskInv(done) && TaskEvolves(task, done)
  {
  }

  /** All runs before the retry failed, so the failure count is the run count. */
  lemma {:induction false} AllFailedCount(runs: seq<Run>)
    requires forall i :: 0 <= i < |runs| ==> runs[i].terminal == Some(RunFailed)
    ensures CountFailed(runs) == |runs|
  {
    if runs == [] {
    } else {
      AllFailedCount(runs[..|runs| - 1]);
    }
  }

  lemma FailRunKeeps(rows: Rows, r: RunId, at: Time)
    requires TasksInv(rows.tasks)
    requires HasRun(rows, r) ==> RunAt(rows, r).terminal != Some(RunProcessed)
    ensures EngineKeeps(rows, FailRun(rows, r, at).rows)
  {
    if HasRun(rows, r) && CanFinalize(RunAt(rows, r).state) {
      NotLastIsSuperseded(rows, r);
      FailRunShapes(rows, r, at);
      FollowUpKeeps(rows, r, at);
    }
  }

  /** What follows a failed latest run. */
  function FollowUp(rows: Rows, r: RunId, at: Time): Rows
    requires r.task < |rows.tasks| && rows.tasks[r.task].runs != []
  {
    var task := rows.tasks[r.task];
    var delay := RetryDelay(Last(task), task.retry, |task.runs|);
    if task.state != TaskActive then PutTask(rows, r.task, AfterFailure(task), [])
    else if delay <= 0 then
      PutTask(rows, r.task, AfterFailure(task).(state := TaskFailed), [TaskEvent(r.task, TaskFailed)])
    else PutTask(rows, r.task, Retried(task, at + delay), [])
  }

  lemma FollowUpKeeps(rows: Rows, r: RunId, at: Time)
    requires TasksInv(rows.tasks)
    requires r.task < |rows.tasks| && rows.tasks[r.task].runs != [] && Last(rows.tasks[r.task]).state == RunFailed
    ensures EngineKeeps(rows, FollowUp(rows, r, at))
  {
    var task := rows.tasks[r.task];
    var delay := RetryDelay(Last(task), task.retry, |task.runs|);
    if task.state != TaskActive {
      assert FollowUp(rows, r, at) == PutTask(rows, r.task, AfterFailure(task), []);
      IdleKeeps(rows, r.task);
    } else if delay <= 0 {
      assert FollowUp(rows, r, at) ==
        PutTask(rows, r.task, AfterFailure(task).(state := TaskFailed), [TaskEvent(r.task, TaskFailed)]);
      LastFailureKeeps(rows, r.task);
    } else {
      assert FollowUp(rows, r, at) == PutTask(rows, r.task, Retried(task, at + delay), []);
      RetryKeeps(rows, r.task, at + delay);
    }
  }

  lemma RetryKeeps(rows: Rows, t: TaskId, time: Time)
    requires TasksInv(rows.tasks) && t < |rows.tasks| && rows.tasks[t].runs != []
    requires Last(rows.tasks[t]).state == RunFailed && rows.tasks[t].state == TaskActive
    requires RetryDelay(Last(rows.tasks[t]), rows.tasks[t].retry, |rows.tasks[t].runs|) > 0
    ensures EngineKeeps(rows, PutTask(rows, t, Retried(rows.tasks[t], time), []))
  {
    RetriedKeeps(rows.tasks[t], time);
    PutKeeps(rows, t, Retried(rows.tasks[t], time), []);
  }

  lemma IdleKeeps(rows: Rows, t: TaskId)
    requires TasksInv(rows.tasks) && t < |rows.tasks| && rows.tasks[t].runs != []
    requires Last(rows.tasks[t]).state == RunFailed && rows.tasks[t].state != TaskActive
    ensures EngineKeeps(rows, PutTask(rows, t, AfterFailure(rows.tasks[t]), []))
  {
    IdleAfterFailure(rows.tasks[t]);
    PutKeeps(rows, t, AfterFailure(rows.tasks[t]), []);
  }

  lemma LastFailureKeeps(rows: Rows, t: TaskId)
    requires TasksInv(rows.tasks) && t < |rows.tasks| && rows.tasks[t].runs != []
    requires Last(rows.tasks[t]).state == RunFailed && rows.tasks[t].state == TaskActive
    ensures EngineKeeps(rows, PutTask(rows, t, AfterFailure(rows.tasks[t]).(state := TaskFailed), [TaskEvent(t, TaskFailed)]))
  {
    FailsWithLastRun(rows.tasks[t]);
    PutKeeps(rows, t, AfterFailure(rows.tasks[t]).(state := TaskFailed), [TaskEvent(t, TaskFailed)]);
  }

  lemma FailRunShapes(rows: Rows, r: RunId, at: Time)
    requires HasRun(rows, r) && r.index == |rows.tasks[r.task].runs| - 1 && RunAt(rows, r).state == RunFailed
    requires TaskInv(rows.tasks[r.task])
    ensures FailRun(rows, r, at).rows == FollowUp(rows, r, at)
  {
    AllFailedCount(AfterFailure(rows.tasks[r.task]).runs);
  }

  function AfterFailure(task: Task): Task
    requires task.runs != []
  {
    PutRun(task, |task.runs| - 1, Finalized(Last(task)))
  }

  function Retried(task: Task, time: Time): Task
    requires task.runs != []
  {
    var done := AfterFailure(task);
    done.(runs := done.runs + [RetryRun(done, |task.runs| - 1, time)])
  }

  lemma IdleAfterFailure(task: Task)
    requires TaskInv(task) && task.state != TaskActive && task.runs != [] && Last(task).state == RunFailed
    ensures TaskInv(AfterFailure(task)) && TaskEvolves(task, AfterFailure(task))
  {
  }

  /** A retry extends the chain by one run and stays within the limit. */
  lemma RetriedKeeps(task: Task, time: Time)
    requires TaskInv(task) && task.state == TaskActive && Last(task).state == RunFailed
    requires RetryDelay(Last(task), task.retry, |task.runs|) > 0
    ensures TaskInv(Retried(task, time)) && TaskEvolves(task, Retried(task, time))
  {
    DelayBounds(task.retry, |task.runs| - 1);
  }

  lemma EngineFailRunKeeps(rows: Rows, r: RunId)
    requires TasksInv(rows.tasks)
    ensures EngineKeeps(rows, EngineFailRun(rows, r).rows)
  {
    if HasRun(rows, r) && CanFinalize(RunAt(rows, r).state) && rows.tasks[r.task].state == TaskActive {
      NotLastIsSuperseded(rows, r);
      var task := rows.tasks[r.task];
      FailsWithLastRun(task);
      PutKeeps(rows, r.task, AfterFailure(task).(state := TaskFailed), [TaskEvent(r.task, TaskFailed), EngineFailure(r.task)]);
    }
  }

  lemma FailsWithLastRun(task: Task)
    requires TaskInv(task) && task.state == TaskActive && CanFinalize(Last(task).state)
    ensures TaskInv(AfterFailure(task).(state := TaskFailed)) && TaskEvolves(task, AfterFailure(task).(state := TaskFailed))
  {
  }

  lemma TimeOutRunKeeps(rows: Rows, r: RunId)
    requires TasksInv(rows.tasks)
    ensures EngineKeeps(rows, TimeOutRun(rows, r).rows)
  {
    if HasRun(rows, r) && LiveRun(RunAt(rows, r).state) {
      NotLastIsSuperseded(rows, r);
      var task := rows.tasks[r.task];
      var late := PutRun(task, r.index, Finalized(FailedWith(RunAt(rows, r), false))).(state := TaskTimedOut);
      CancelOngoingKeeps(task, late);
      PutKeeps(rows, r.task, CancelOngoing(late), [TaskEvent(r.task, TaskTimedOut)]);
    }
  }

  lemma StopTaskKeeps(rows: Rows, t: TaskId)
    requires TasksInv(rows.tasks)
    ensures EngineKeeps(rows, StopTask(rows, t).rows)
  {
    if t < |rows.tasks| && rows.tasks[t].state in {TaskPending, TaskActive} {
      var stopped := rows.tasks[t].(state := TaskCancelled);
      CancelOngoingKeeps(rows.tasks[t], stopped);
      PutKeeps(rows, t, CancelOngoing(stopped), [TaskEvent(t, TaskCancelled)]);
    }
  }

  lemma TimeOutTaskKeeps(rows: Rows, t: TaskId)
    requires TasksInv(rows.tasks)
    ensures EngineKeeps(rows, TimeOutTask(rows, t).rows)
  {
    if t < |rows.tasks| && rows.tasks[t].state == TaskActive {
      var late := rows.tasks[t].(state := TaskTimedOut);
      CancelOngoingKeeps(rows.tasks[t], late);
      PutKeeps(rows, t, CancelOngoing(late), [TaskEvent(t, TaskTimedOut)]);
    }
  }

  lemma WriteRunKeeps(rows: Rows, r: RunId, next: Run)
    requires TasksInv(rows.tasks)
    requires HasRun(rows, r) && next.state in NextRunStates(RunAt(rows, r).state) ==>
               RunInv(next) && OpenRun(next) && RunEvolves(RunAt(rows, r), next)
    ensures EngineKeeps(rows, WriteRun(rows, r, next).rows)
  {
    if HasRun(rows, r) && next.state in NextRunStates(RunAt(rows, r).state) {
      NotLastIsSuperseded(rows, r);
      var task := rows.tasks[r.task];
      assert TaskInv(task);
      PutKeeps(rows, r.task, PutRun(task, r.index, next), []);
    }
  }

  lemma ClaimKeeps(rows: Rows, r: RunId, w: Worker)
    requires TasksInv(rows.tasks)
    ensures EngineKeeps(rows, Claim(rows, r, w).rows)
  {
    if HasRun(rows, r) {
      assert TaskInv(rows.tasks[r.task]);
      WriteRunKeeps(rows, r, RunAt(rows, r).(state := RunAcquired, worker := Some(w)));
    }
  }

  lemma BeginRunKeeps(rows: Rows, r: RunId)
    requires TasksInv(rows.tasks)
    ensures EngineKeeps(rows, BeginRun(rows, r).rows)
  {
    if HasRun(rows, r) {
      assert TaskInv(rows.tasks[r.task]);
      WriteRunKeeps(rows, r, RunAt(rows, r).(state := RunProcessing));
    }
  }

  lemma MarkProcessedKeeps(rows: Rows, r: RunId)
    requires TasksInv(rows.tasks)
    ensures EngineKeeps(rows, MarkProcessed(rows, r).rows)
  {
    if HasRun(rows, r) {
      assert TaskInv(rows.tasks[r.task]);
      WriteRunKeeps(rows, r, RunAt(rows, r).(state := RunProcessed, terminal := Some(RunProcessed)));
    }
  }

  lemma MarkFailedKeeps(rows: Rows, r: RunId, noRetry: bool)
    requires TasksInv(rows.tasks)
    ensures EngineKeeps(rows, MarkFailed(rows, r, noRetry).rows)
  {
    if HasRun(rows, r) {
      assert TaskInv(rows.tasks[r.task]);
      WriteRunKeeps(rows, r, FailedWith(RunAt(rows, r), noRetry));
    }
  }

  lemma RecoverKeeps(rows: Rows, w: Worker)
    requires TasksInv(rows.tasks)
    ensures EngineKeeps(rows, Recover(rows, w).rows)
  {
    forall t | 0 <= t < |rows.tasks|
      ensures TaskInv(AbandonedTask(rows.tasks[t], w)) && TaskEvolves(rows.tasks[t], AbandonedTask(rows.tasks[t], w))
    {
      AbandonedKeeps(rows.tasks[t], w);
    }
    var b := Recover(rows, w).rows;
    assert forall t :: 0 <= t < |b.tasks| ==> b.tasks[t].state == rows.tasks[t].state;
    if LogInv(rows) {
      forall i | 0 <= i < |b.log| ensures EventTrue(b.log[i], b.tasks) { assert EventTrue(rows.log[i], rows.tasks); }
    }
  }

  lemma AbandonedKeeps(task: Task, w: Worker)
    requires TaskInv(task)
    ensures TaskInv(AbandonedTask(task, w)) && TaskEvolves(task, AbandonedTask(task, w))
  {
    forall i | 0 <= i < |task.runs| - 1 ensures AbandonedTask(task, w).runs[i] == task.runs[i] {
      assert Superseded(task.runs[i]);
    }
  }

  // ---- what the chain of runs means ----------------------------------------------------------

  /** At most one run of a task is open, an ACTIVE task has exactly one, an ongoing run means an ACTIVE
      task, and with a retry limit the runs never exceed it by more than the first. */
  lemma RetryDiscipline(task: Task, i: nat, j: nat)
    requires TaskInv(task) && i < |task.runs| && j < |task.runs|
    ensures OpenRun(task.runs[i]) && OpenRun(task.runs[j]) ==> i == j
    ensures task.state == TaskActive ==> exists k :: 0 <= k < |task.runs| && OpenRun(task.runs[k])
    ensures LiveRun(task.runs[i].state) ==> task.state == TaskActive
    ensures task.retry.maxRetries >= 0 ==> |task.runs| <= task.retry.maxRetries + 1
  {
    if i < |task.runs| - 1 { assert Superseded(task.runs[i]); }
    if j < |task.runs| - 1 { assert Superseded(task.runs[j]); }
  }

  /** What rules out another retry: the processor's word, a used-up limit, or an initial delay that does
      not survive the conversion to nanoseconds. */
  predicate NoRetryLeft(task: Task, run: Run) {
    run.noRetry || Exhausted(task.retry, |task.runs| - 1) || InitialDelay(task.retry) <= 0
  }

  /** Exactly when a failure is retried, exactly when it fails the task, and how long the retry waits: as
      many runs as there were, so many back-offs have been used up. */
  lemma RetriesExactlyWhen(rows: Rows, r: RunId, at: Time)
    requires TasksInv(rows.tasks) && HasRun(rows, r) && RunAt(rows, r).terminal != Some(RunProcessed)
    ensures var a, b := rows.tasks[r.task], FailRun(rows, r, at).rows.tasks[r.task];
            var failed := RunAt(rows, r).state == RunFailed && a.state == TaskActive;
            var final := NoRetryLeft(a, RunAt(rows, r));
            && (|b.runs| > |a.runs| <==> failed && !final)
            && (b.state != a.state <==> failed && final) && (b.state != a.state ==> b.state == TaskFailed)
            && (failed && !final ==> RetryWaits(a, b, r.index, at))
  {
    assert TaskInv(rows.tasks[r.task]);
    if CanFinalize(RunAt(rows, r).state) {
      NotLastIsSuperseded(rows, r);
      FailRunShapes(rows, r, at);
      FollowUpDecides(rows, r, at);
    }
  }

  lemma FollowUpDecides(rows: Rows, r: RunId, at: Time)
    requires HasRun(rows, r) && r.index == |rows.tasks[r.task].runs| - 1 && ValidRetry(rows.tasks[r.task].retry)
    ensures var a, b := rows.tasks[r.task], FollowUp(rows, r, at).tasks[r.task];
            var final := NoRetryLeft(a, RunAt(rows, r));
            && b.state == (if a.state == TaskActive && final then TaskFailed else a.state)
            && (if a.state == TaskActive && !final then RetryWaits(a, b, r.index, at) else |b.runs| == |a.runs|)
  {
    var retry, used := rows.tasks[r.task].retry, r.index;
    DelayBounds(retry, used);
    if SecondsFit(retry) && !Exhausted(retry, used) { FittingSecondsKeepPromise(retry, used); }
  }

  /** One more run, a retry of run `failed`, due within the back-off bounds. */
  predicate RetryWaits(a: Task, b: Task, failed: nat, at: Time)
    requires a.runs != []
  {
    && |b.runs| == |a.runs| + 1 && Last(b).state == RunScheduled
    && Last(b).retryOf == Some(failed) && Last(b).deadline == a.deadline
    && Last(b).enqueueAt == Some(at + NextDelay(a.retry, |a.runs| - 1))
    && Min(InitialDelay(a.retry), Ceiling(a.retry)) <= NextDelay(a.retry, |a.runs| - 1) <= Ceiling(a.retry)
    && (SecondsFit(a.retry) ==> AsPromised(a.retry, |a.runs| - 1))
  }

  /** With seconds that fit a duration, retries stop for the documented reasons only. */
  lemma RetriesAsPromised(task: Task, run: Run)
    requires ValidRetry(task.retry) && SecondsFit(task.retry)
    ensures NoRetryLeft(task, run) <==> run.noRetry || Exhausted(task.retry, |task.runs| - 1)
  {
    FittingSecondsAreExact(task.retry);
  }
}
