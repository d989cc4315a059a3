/** What the workers and the notification producer do, told by runs, jobs and messages alone: who may claim
    a run, what a job leaves behind, and which report each ending brings. */
module WorkerEffects {
  import opened Prelude
  import opened Tables
  import opened Rows
  import opened TaskSpec
  import opened Errors
  import opened System
  import opened TaskEffects

  /** One run becomes another; nothing else in the rows changes. */
  predicate RunGoes(a: Rows, b: Rows, r: RunId, run: Run) {
    && Exists(a, r)
    && TaskGoes(a, b, r.task, a.tasks[r.task].state, a.tasks[r.task].runs[r.index := run], [])
  }

  /** The job is over, this is sent, and besides the rows nothing else has changed. */
  predicate JobEnds(s: State, t: State, r: RunId, m: Msg) {
    && r !in t.jobs && t.jobs.Keys == s.jobs.Keys - {r} && (forall q :: q in t.jobs ==> t.jobs[q] == s.jobs[q])
    && t == s.(rows := t.rows, jobs := t.jobs, msgs := s.msgs + {m})
  }

  predicate RunIn(rows: Rows, r: RunId, states: set<RunState>) {
    Exists(rows, r) && RunAt(rows, r).state in states
  }

  function FailedRun(run: Run, noRetry: bool): Run {
    run.(state := RunFailed, terminal := Some(RunFailed), noRetry := noRetry)
  }

  /** A claim takes exactly an ENQUEUED run whose request has been sent, for this worker, and starts its job;
      any other request is answered with an engine failure. */
  lemma ClaimEffect(s: State, r: RunId, w: Worker)
    ensures var t := Next(s, Receive(r, w));
            if PendingInstance(r) !in s.msgs then t == s
            else if RunIn(s.rows, r, {RunEnqueued}) then
              && RunGoes(s.rows, t.rows, r, RunAt(s.rows, r).(state := RunAcquired, worker := Some(w)))
              && t == s.(rows := t.rows, jobs := s.jobs[r := Job(w, Submitted)], claims := s.claims + [Claimed(r, w)])
            else t == s.(msgs := s.msgs + {EngineFailed(r)})
  {
    ClaimActions(s, r, w);
  }

  /** A refusal by the executor ends the job as an engine failure, and the run as a retryable failure if it is
      not over already. */
  lemma RefusalEffect(s: State, r: RunId)
    ensures var t := Next(s, Refuse(r));
            if r in s.jobs && s.jobs[r].stage == Submitted then
              && JobEnds(s, t, r, EngineFailed(r))
              && if RunIn(s.rows, r, {RunEnqueued, RunAcquired, RunProcessing})
                 then RunGoes(s.rows, t.rows, r, FailedRun(RunAt(s.rows, r), false)) else t.rows == s.rows
            else t == s
  {
    ClaimActions(s, r, "");
  }

  /** A thread that takes up a job marks the run PROCESSING and calls its processor, if there is one; a run it
      cannot mark ends the job as a failed execution. */
  lemma BeginEffect(s: State, r: RunId, served: bool, fault: bool)
    ensures var t := Next(s, Begin(r, served, fault));
            if r !in s.jobs || s.jobs[r].stage != Submitted then t == s
            else if !fault && RunIn(s.rows, r, {RunAcquired}) then
              && RunGoes(s.rows, t.rows, r, RunAt(s.rows, r).(state := RunProcessing))
              && t == s.(rows := t.rows,
                         jobs := s.jobs[r := Job(s.jobs[r].worker, if served then Invoked else Unserved)],
                         calls := if served then s.calls + [r] else s.calls)
            else JobEnds(s, t, r, ExecFailed(r)) && t.rows == s.rows
  {
    JobActions(s, r, served, fault, Fault);
  }

  /** A result that cannot be recorded is reported as a failed execution. */
  predicate Unrecorded(s: State, t: State, r: RunId) {
    JobEnds(s, t, r, ExecFailed(r)) && t.rows == s.rows
  }

  /** A processor that succeeds: the run is PROCESSED and reported as a success. */
  lemma SuccessfulEnd(s: State, r: RunId)
    requires r in s.jobs && s.jobs[r].stage == Invoked
    ensures var t := Next(s, Finish(r, Success));
            if RunIn(s.rows, r, {RunAcquired, RunProcessing}) then
              && JobEnds(s, t, r, ExecSucceeded(r))
              && RunGoes(s.rows, t.rows, r, RunAt(s.rows, r).(state := RunProcessed, terminal := Some(RunProcessed)))
            else Unrecorded(s, t, r)
  {
    JobActions(s, r, false, false, Success);
  }

  /** A processor that fails: the run is FAILED, not to be retried exactly when the error holds a
      non-recoverable one, and reported as an engine failure exactly when it holds an executor error. */
  lemma FailedEnd(s: State, r: RunId, error: Error)
    requires r in s.jobs && s.jobs[r].stage == Invoked
    ensures var t := Next(s, Finish(r, Failure(error)));
            if RunIn(s.rows, r, {RunEnqueued, RunAcquired, RunProcessing}) then
              && JobEnds(s, t, r, if As(error, TaskExecutor) then EngineFailed(r) else ExecFailed(r))
              && RunGoes(s.rows, t.rows, r, FailedRun(RunAt(s.rows, r), As(error, NonRecoverable)))
            else Unrecorded(s, t, r)
  {
    JobActions(s, r, false, false, Failure(error));
    WrappedKinds(error);
    FailureRecorded(s, r, error, Error.Error(TaskExecution, Some(error)));
  }

  lemma WrappedKinds(error: Error)
    ensures As(Error.Error(TaskExecution, Some(error)), TaskExecutor) == As(error, TaskExecutor)
    ensures As(Error.Error(TaskExecution, Some(error)), NonRecoverable) == As(error, NonRecoverable)
  {
  }

  lemma FailureRecorded(s: State, r: RunId, error: Error, told: Error)
    requires r in s.jobs && s.jobs[r].stage == Invoked && JobError(Invoked, Failure(error)) == Some(told)
    ensures var t := Finished(s, r, Failure(error));
            if RunIn(s.rows, r, {RunEnqueued, RunAcquired, RunProcessing}) then
              && JobEnds(s, t, r, if As(told, TaskExecutor) then EngineFailed(r) else ExecFailed(r))
              && RunGoes(s.rows, t.rows, r, FailedRun(RunAt(s.rows, r), As(told, NonRecoverable)))
            else Unrecorded(s, t, r)
  {
  }

  /** A task name without processor: the run is FAILED, to be retried, and reported as an engine failure. */
  lemma UnservedEnd(s: State, r: RunId, ending: Ending)
    requires r in s.jobs && s.jobs[r].stage == Unserved && ending != Fault
    ensures var t := Next(s, Finish(r, ending));
            if RunIn(s.rows, r, {RunEnqueued, RunAcquired, RunProcessing}) then
              && JobEnds(s, t, r, EngineFailed(r)) && RunGoes(s.rows, t.rows, r, FailedRun(RunAt(s.rows, r), false))
            else Unrecorded(s, t, r)
  {
    JobActions(s, r, false, false, ending);
  }

  lemma FaultyEnd(s: State, r: RunId)
    requires r in s.jobs && s.jobs[r].stage in {Invoked, Unserved}
    ensures Unrecorded(s, Next(s, Finish(r, Fault)), r)
  {
    JobActions(s, r, false, false, Fault);
  }

  /** Whatever the action, short of the death of its worker: a job that ends is reported. */
  lemma EveryEndIsReported(s: State, a: Action, r: RunId)
    requires r in s.jobs && r !in Next(s, a).jobs && !a.Crash? && !a.Restart?
    ensures exists m :: m in {ExecSucceeded(r), ExecFailed(r), EngineFailed(r)} && JobEnds(s, Next(s, a), r, m)
  {
    if a.Receive? {
      ClaimEffect(s, a.run, a.worker);
    } else if a.Refuse? {
      RefusalEffect(s, a.run);
      assert JobEnds(s, Next(s, a), r, EngineFailed(r));
    } else if a.Begin? {
      BeginEffect(s, a.run, a.served, a.fault);
      assert JobEnds(s, Next(s, a), r, ExecFailed(r));
    } else if a.Finish? {
      FinishIsReported(s, a.run, a.ending);
    } else {
      OthersEndNoJob(s, a);
    }
  }

  lemma FinishIsReported(s: State, r: RunId, ending: Ending)
    requires r in s.jobs && r !in Next(s, Finish(r, ending)).jobs
    ensures exists m :: m in {ExecSucceeded(r), ExecFailed(r), EngineFailed(r)} && JobEnds(s, Next(s, Finish(r, ending)), r, m)
  {
    JobActions(s, r, false, false, ending);
    if s.jobs[r].stage == Submitted {
    } else if ending == Fault {
      FaultyEnd(s, r);
    } else if s.jobs[r].stage == Unserved {
      UnservedEnd(s, r, ending);
    } else if ending == Success {
      SuccessfulEnd(s, r);
    } else {
      FailedEnd(s, r, ending.error);
    }
  }

  lemma OthersEndNoJob(s: State, a: Action)
    requires !a.Receive? && !a.Refuse? && !a.Begin? && !a.Finish? && !a.Crash? && !a.Restart?
    ensures Next(s, a).jobs == s.jobs
  {
  }

  /** In the hands of a worker: claimed by it, whether already begun or not. */
  predicate InHand(rows: Rows, r: RunId, w: Worker) {
    RunIn(rows, r, {RunAcquired, RunProcessing}) && RunAt(rows, r).worker == Some(w)
  }

  /** A restarted worker fails every run its earlier life had in hand, retryably, and reports exactly these; no
      other run is touched, and its jobs are gone. */
  lemma RestartEffect(s: State, w: Worker, r: RunId, m: Msg)
    ensures var t := Next(s, Restart(w));
            && t.rows.wf == s.rows.wf && t.rows.steps == s.rows.steps && t.rows.log == s.rows.log
            && (Exists(t.rows, r) <==> Exists(s.rows, r))
            && (Exists(s.rows, r) ==>
                  && RunAt(t.rows, r) == (if InHand(s.rows, r, w) then FailedRun(RunAt(s.rows, r), false) else RunAt(s.rows, r))
                  && t.rows.tasks[r.task] == s.rows.tasks[r.task].(runs := t.rows.tasks[r.task].runs))
            && (m in t.msgs <==> m in s.msgs || (m.ExecFailed? && InHand(s.rows, m.run, w)))
            && (r in t.jobs <==> r in s.jobs && s.jobs[r].worker != w) && (r in t.jobs ==> t.jobs[r] == s.jobs[r])
            && t.claims == s.claims && t.calls == s.calls
  {
    CrashActions(s, w);
    RecoveryReports(s.rows, w, m);
  }

  lemma RecoveryReports(rows: Rows, w: Worker, m: Msg)
    ensures m in Recover(rows, w).sends <==> m.ExecFailed? && InHand(rows, m.run, w)
  {
    if m.ExecFailed? && InHand(rows, m.run, w) { assert m == ExecFailed(RunId(m.run.task, m.run.index)); }
  }

  /** The notification of an audit event: the outcome of a task that is over, and nothing for other events. */
  lemma NotificationEffect(s: State, i: nat)
    requires i < |s.rows.log|
    ensures Next(s, Notify(i)) ==
            match s.rows.log[i]
            case TaskEvent(t, TaskComplete) => s.(msgs := s.msgs + {TaskUpdate(t, StepComplete)})
            case TaskEvent(t, TaskFailed) => s.(msgs := s.msgs + {TaskUpdate(t, StepFailed)})
            case TaskEvent(t, TaskTimedOut) => s.(msgs := s.msgs + {TaskUpdate(t, StepTimedOut)})
            case TaskEvent(t, TaskCancelled) => s.(msgs := s.msgs + {TaskUpdate(t, StepCancelled)})
            case EngineFailure(t) => s.(msgs := s.msgs + {TaskUpdate(t, StepFailed)})
            case _ => s
  {
  }
}
