/** What the transactions of the task scheduler do, told by states, times, messages and audit events alone:
    exactly when each does something, the one task it writes, and what it sends. */
module TaskEffects {
  import opened Prelude
  import opened Tables
  import opened Backoff
  import opened Rows
  import opened TaskSpec
  import opened TaskInvariants
  import opened System

  /** Nothing written, nothing sent. */
  predicate NoEffect(rows: Rows, e: Effect) {
    e.rows == rows && e.sends == {}
  }

  /** Task `t` goes to a state with these runs, and the audit log gains these events; every other row and
      every other field of the task stays as it is. */
  predicate TaskGoes(a: Rows, b: Rows, t: TaskId, state: TaskState, runs: seq<Run>, events: seq<Event>) {
    && b.wf == a.wf && b.steps == a.steps && b.log == a.log + events
    && |b.tasks| == |a.tasks| && t < |a.tasks|
    && b.tasks[t] == a.tasks[t].(state := state, runs := runs)
    && forall q :: 0 <= q < |a.tasks| && q != t ==> b.tasks[q] == a.tasks[q]
  }

  /** Not over yet: neither ended nor cancelled. */
  predicate Ongoing(run: Run) {
    run.state in {RunDefined, RunScheduled, RunEnqueued, RunAcquired, RunProcessing}
  }

  /** The same runs, every ongoing one cancelled. */
  predicate OngoingCancelled(a: seq<Run>, b: seq<Run>) {
    && |b| == |a|
    && forall i :: 0 <= i < |a| ==>
         b[i] == if Ongoing(a[i]) then a[i].(state := RunCancelled, terminal := Some(RunCancelled)) else a[i]
  }

  predicate Exists(rows: Rows, r: RunId) {
    r.task < |rows.tasks| && r.index < |rows.tasks[r.task].runs|
  }

  // ---- timeouts ------------------------------------------------------------------------------

  /** A task timeout: an ACTIVE task is TIMED_OUT and its ongoing runs are cancelled; any other is left alone. */
  lemma TaskTimeoutEffect(rows: Rows, t: TaskId)
    ensures var e := TimeOutTask(rows, t);
            if t < |rows.tasks| && rows.tasks[t].state == TaskActive then
              && e.ok && e.sends == {} && t < |e.rows.tasks|
              && TaskGoes(rows, e.rows, t, TaskTimedOut, e.rows.tasks[t].runs, [TaskEvent(t, TaskTimedOut)])
              && OngoingCancelled(rows.tasks[t].runs, e.rows.tasks[t].runs)
              && forall i :: 0 <= i < |e.rows.tasks[t].runs| ==> !Ongoing(e.rows.tasks[t].runs[i])
            else NoEffect(rows, e)
  {
  }

  /** A run timeout: a run that has been requested and is not over is finalized as a retryable failure and its
      task is TIMED_OUT, with no run ongoing; any other run is left alone. */
  lemma RunTimeoutEffect(rows: Rows, r: RunId)
    requires TasksInv(rows.tasks)
    ensures var e := TimeOutRun(rows, r);
            if Exists(rows, r) && RunAt(rows, r).state in {RunEnqueued, RunAcquired, RunProcessing} then
              var runs := rows.tasks[r.task].runs;
              var late := runs[r.index].(state := RunFinalized, terminal := Some(RunFailed), noRetry := false);
              && e.ok && e.sends == {}
              && r.task < |e.rows.tasks|
              && TaskGoes(rows, e.rows, r.task, TaskTimedOut, runs[r.index := late], [TaskEvent(r.task, TaskTimedOut)])
              && forall i :: 0 <= i < |e.rows.tasks[r.task].runs| ==> !Ongoing(e.rows.tasks[r.task].runs[i])
            else NoEffect(rows, e)
  {
    if Exists(rows, r) && Ongoing(RunAt(rows, r)) {
      OnlyLatestOngoing(rows.tasks[r.task], r.index);
      var task := rows.tasks[r.task];
      var late := PutRun(task, r.index, Finalized(FailedWith(RunAt(rows, r), false))).(state := TaskTimedOut);
      assert CancelOngoing(late).runs == late.runs;
    }
  }

  lemma OnlyLatestOngoing(task: Task, i: nat)
    requires TaskInv(task) && i < |task.runs| && Ongoing(task.runs[i])
    ensures task.state == TaskActive && forall k :: 0 <= k < |task.runs| && k != i ==> !Ongoing(task.runs[k])
  {
    assert i < |task.runs| - 1 ==> Superseded(task.runs[i]);
    forall k | 0 <= k < |task.runs| && k != i ensures !Ongoing(task.runs[k]) {
      assert Superseded(task.runs[k]);
    }
  }

  // ---- cancellation --------------------------------------------------------------------------

  /** A cancellation: a PENDING or ACTIVE task is CANCELLED and its ongoing runs are cancelled; any other is
      left alone. */
  lemma CancelTaskEffect(rows: Rows, t: TaskId)
    requires TasksInv(rows.tasks)
    ensures var e := StopTask(rows, t);
            if t < |rows.tasks| && rows.tasks[t].state in {TaskPending, TaskActive} then
              && e.ok && e.sends == {} && t < |e.rows.tasks|
              && TaskGoes(rows, e.rows, t, TaskCancelled, e.rows.tasks[t].runs, [TaskEvent(t, TaskCancelled)])
              && OngoingCancelled(rows.tasks[t].runs, e.rows.tasks[t].runs)
            else NoEffect(rows, e)
  {
    if t < |rows.tasks| { assert TaskInv(rows.tasks[t]); }
  }

  // ---- starts --------------------------------------------------------------------------------

  /** A PENDING task is activated with one run: an immediate task's is ENQUEUED and requested at once, a
      scheduled task's is SCHEDULED for the task's time; it carries the task's deadline and is no retry. An
      immediate task whose requests cannot be enqueued, and a task that is not PENDING, is left alone. */
  lemma ActivationEffect(rows: Rows, t: TaskId, senders: set<TaskName>)
    requires TasksInv(rows.tasks)
    ensures var e := Activate(rows, t, senders);
            if t < |rows.tasks| && rows.tasks[t].state == TaskPending
               && (rows.tasks[t].timing == Immediate ==> rows.tasks[t].name in senders) then
              var now := rows.tasks[t].timing == Immediate;
              var first := Run(if now then RunEnqueued else RunScheduled, None, None, false,
                               if now then None else Some(rows.tasks[t].timing.time), rows.tasks[t].deadline, None);
              && e.ok && TaskGoes(rows, e.rows, t, TaskActive, [first], [TaskEvent(t, TaskActive)])
              && e.sends == if now then {PendingInstance(RunId(t, 0))} else {}
            else NoEffect(rows, e)
  {
    if t < |rows.tasks| {
      assert TaskInv(rows.tasks[t]);
      assert [] + [FirstRun(rows.tasks[t])] == [FirstRun(rows.tasks[t])];
    }
  }

  /** A DEFINED or SCHEDULED run whose request can be enqueued is ENQUEUED, and exactly its own request is
      sent; any other run is left alone. */
  lemma StartEffect(rows: Rows, r: RunId, senders: set<TaskName>)
    ensures var e := StartRun(rows, r, senders);
            if Exists(rows, r) && RunAt(rows, r).state in {RunDefined, RunScheduled} && rows.tasks[r.task].name in senders then
              var task := rows.tasks[r.task];
              && e.ok && e.sends == {PendingInstance(r)}
              && TaskGoes(rows, e.rows, r.task, task.state, task.runs[r.index := task.runs[r.index].(state := RunEnqueued)], [])
            else NoEffect(rows, e)
  {
  }

  /** A user's task is stored as asked for, PENDING and without runs, and asked to be run, exactly when its
      retry parameters are in range. */
  lemma SubmissionEffect(s: State, name: TaskName, timing: Timing, deadline: Option<Time>, retry: RetryParams)
    ensures var t := Next(s, SubmitTask(name, timing, deadline, retry));
            if retry.maxRetries >= -1 && retry.initialDelaySec >= 1 && retry.factor >= 1.0
               && (retry.maxDelaySec.Some? ==> retry.maxDelaySec.value >= 1) then
              && t.rows == s.rows.(tasks := s.rows.tasks + [Task(name, TaskPending, timing, deadline, retry, s.now, [])])
              && t == s.(rows := t.rows, msgs := s.msgs + {NewTask(|s.rows.tasks|)})
            else t == s
  {
  }

  // ---- outcomes ------------------------------------------------------------------------------

  /** A completion finalizes a run that has ended and completes its ACTIVE task; otherwise nothing happens. */
  lemma CompletionEffect(rows: Rows, r: RunId)
    ensures var e := CompleteRun(rows, r);
            if Exists(rows, r) && RunAt(rows, r).state in {RunProcessed, RunFailed} && rows.tasks[r.task].state == TaskActive then
              var runs := rows.tasks[r.task].runs;
              && e.ok && e.sends == {}
              && TaskGoes(rows, e.rows, r.task, TaskComplete, runs[r.index := runs[r.index].(state := RunFinalized)],
                          [TaskEvent(r.task, TaskComplete)])
            else NoEffect(rows, e)
  {
  }

  /** An engine failure finalizes a run that has ended, fails its ACTIVE task and is told by the log; otherwise
      nothing happens. */
  lemma EngineFailureEffect(rows: Rows, r: RunId)
    ensures var e := EngineFailRun(rows, r);
            if Exists(rows, r) && RunAt(rows, r).state in {RunProcessed, RunFailed} && rows.tasks[r.task].state == TaskActive then
              var runs := rows.tasks[r.task].runs;
              && e.ok && e.sends == {}
              && TaskGoes(rows, e.rows, r.task, TaskFailed, runs[r.index := runs[r.index].(state := RunFinalized)],
                          [TaskEvent(r.task, TaskFailed), EngineFailure(r.task)])
            else NoEffect(rows, e)
  {
  }

  /** The delay that follows the failure of run `i`, the latest of its task: none when the processor ruled it
      out, else the back-off of as many retries as there have been. */
  function DelayAfter(task: Task, i: nat): int
    requires i < |task.runs|
  {
    if task.runs[i].noRetry then 0 else NextDelay(task.retry, i)
  }

  /** A failure finalizes the FAILED run. If the task is ACTIVE, it is retried after a positive delay, by one
      run that carries the task's deadline and names the failed run, and FAILED otherwise. Nothing is sent. */
  lemma FailureEffect(rows: Rows, r: RunId, at: Time)
    requires TasksInv(rows.tasks) && Exists(rows, r) && RunAt(rows, r).state == RunFailed
    ensures var e, task := FailRun(rows, r, at), rows.tasks[r.task];
            var runs := task.runs[r.index := task.runs[r.index].(state := RunFinalized)];
            var delay := DelayAfter(task, r.index);
            var retry := Run(RunScheduled, None, None, false, Some(at + delay), task.deadline, Some(r.index));
            && e.ok && e.sends == {}
            && if task.state != TaskActive then TaskGoes(rows, e.rows, r.task, task.state, runs, [])
               else if delay <= 0 then TaskGoes(rows, e.rows, r.task, TaskFailed, runs, [TaskEvent(r.task, TaskFailed)])
               else TaskGoes(rows, e.rows, r.task, TaskActive, runs + [retry], [])
  {
    NotLastIsSuperseded(rows, r);
    AllFailedCount(AfterFailure(rows.tasks[r.task]).runs);
  }

  /** A report of a failure that is not on record: nothing, for a run still ongoing, cancelled or handled. */
  lemma FailureWithoutEffect(rows: Rows, r: RunId, at: Time)
    requires !Exists(rows, r) || RunAt(rows, r).state !in {RunProcessed, RunFailed}
    ensures NoEffect(rows, FailRun(rows, r, at))
  {
  }
}
