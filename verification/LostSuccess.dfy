/** When a success is lost: a run succeeded and its task ends FAILED all the same. Exactly one kind of
    action does this, and only after a claim of that very run was refused. */
module LostSuccess {
  import opened Prelude
  import opened Tables
  import opened Backoff
  import opened Rows
  import opened WorkflowSpec
  import opened WorkflowInvariants
  import opened TaskSpec
  import opened TaskInvariants
  import opened LinkInvariants
  import opened Errors
  import opened System
  import opened SystemInvariants
  import opened Guarantees
  import SpecValidation

  predicate Lost(rows: Rows, r: RunId) {
    Succeeded(rows, r) && rows.tasks[r.task].state == TaskFailed
  }

  /** No success is lost between `a` and `b`. */
  ghost predicate NoneLost(a: Rows, b: Rows) {
    forall r :: Lost(b, r) ==> Lost(a, r)
  }

  // ---- one transaction -----------------------------------------------------------------------

  /** A task write loses nothing if it adds no success and does not fail a task with one. */
  lemma PutLosesNone(rows: Rows, t: TaskId, task: Task, events: seq<Event>)
    requires t < |rows.tasks|
    requires task.state == TaskFailed ==>
               forall i :: 0 <= i < |task.runs| && task.runs[i].terminal == Some(RunProcessed) ==>
                             Lost(rows, RunId(t, i))
    ensures NoneLost(rows, PutTask(rows, t, task, events))
  {
    var b := PutTask(rows, t, task, events);
    forall r | Lost(b, r) ensures Lost(rows, r) {
      assert r.task == t ==> r == RunId(t, r.index);
    }
  }

  /** The last run of a task is the only one that can have succeeded. */
  lemma OnlyLastSucceeds(task: Task, i: nat)
    requires TaskInv(task) && i < |task.runs| && task.runs[i].terminal == Some(RunProcessed)
    ensures i == |task.runs| - 1
  {
    assert i < |task.runs| - 1 ==> Superseded(task.runs[i]);
  }

  /** An engine failure loses a success exactly when the run has been processed, but not yet handled, and
      its task is ACTIVE; and it is the success of that run. */
  lemma EngineFailLoses(rows: Rows, r: RunId, q: RunId)
    requires TasksInv(rows.tasks)
    ensures Lost(EngineFailRun(rows, r).rows, q) && !Lost(rows, q) <==>
            q == r && HasRun(rows, r) && RunAt(rows, r).state == RunProcessed && rows.tasks[r.task].state == TaskActive
  {
    if EngineFailRun(rows, r).ok && EngineFailRun(rows, r).rows != rows {
      assert TaskInv(rows.tasks[r.task]);
      NotLastIsSuperseded(rows, r);
      if HasRun(rows, q) && q.task == r.task && RunAt(rows, q).terminal == Some(RunProcessed) {
        OnlyLastSucceeds(rows.tasks[r.task], q.index);
      }
    }
  }

  lemma FailRunLosesNone(rows: Rows, r: RunId, at: Time)
    requires TasksInv(rows.tasks) && !Succeeded(rows, r)
    ensures NoneLost(rows, FailRun(rows, r, at).rows)
  {
    if HasRun(rows, r) && CanFinalize(RunAt(rows, r).state) {
      NotLastIsSuperseded(rows, r);
      FailRunShapes(rows, r, at);
      var b := FailRun(rows, r, at).rows;
      forall q | Lost(b, q) ensures Lost(rows, q) {
        if q.task == r.task { FollowUpHasNoSuccess(rows, r, at, q); }
      }
    }
  }

  lemma FollowUpHasNoSuccess(rows: Rows, r: RunId, at: Time, q: RunId)
    requires TasksInv(rows.tasks) && HasRun(rows, r) && RunAt(rows, r).state == RunFailed
    requires r.index == |rows.tasks[r.task].runs| - 1 && q.task == r.task
    ensures !Succeeded(FollowUp(rows, r, at), q)
  {
    var runs := rows.tasks[r.task].runs;
    assert TaskInv(rows.tasks[r.task]);
    if q.index < |runs| - 1 { assert Superseded(runs[q.index]); }
  }

  /** The transactions of the task engine that leave no task FAILED that was not. */
  ghost predicate FailsNone(a: Rows, b: Rows) {
    && |b.tasks| == |a.tasks|
    && forall t :: 0 <= t < |a.tasks| && b.tasks[t].state == TaskFailed ==> a.tasks[t].state == TaskFailed
  }

  lemma FailsNoneLosesNone(a: Rows, b: Rows)
    requires FailsNone(a, b) && NoNewSuccess(a, b, {})
    ensures NoneLost(a, b)
  {
  }

  lemma TasksFailNone(rows: Rows, t: TaskId, senders: set<TaskName>)
    ensures FailsNone(rows, Activate(rows, t, senders).rows)
    ensures FailsNone(rows, StopTask(rows, t).rows)
    ensures FailsNone(rows, TimeOutTask(rows, t).rows)
  {
  }

  lemma RunsFailNone(rows: Rows, r: RunId, senders: set<TaskName>)
    ensures FailsNone(rows, StartRun(rows, r, senders).rows)
    ensures FailsNone(rows, CompleteRun(rows, r).rows)
  {
  }

  lemma LateRunFailsNone(rows: Rows, r: RunId)
    ensures FailsNone(rows, TimeOutRun(rows, r).rows)
  {
  }

  lemma WorkersFailNone(rows: Rows, r: RunId, w: Worker, noRetry: bool)
    ensures FailsNone(rows, Claim(rows, r, w).rows)
    ensures FailsNone(rows, BeginRun(rows, r).rows)
    ensures FailsNone(rows, MarkProcessed(rows, r).rows)
    ensures FailsNone(rows, MarkFailed(rows, r, noRetry).rows)
    ensures FailsNone(rows, Recover(rows, w).rows)
  {
  }

  /** A run that can be marked processed belongs to an ACTIVE task. */
  lemma MarkProcessedLosesNone(rows: Rows, r: RunId)
    requires TasksInv(rows.tasks)
    ensures NoneLost(rows, MarkProcessed(rows, r).rows)
  {
    if MarkProcessed(rows, r).ok {
      assert TaskInv(rows.tasks[r.task]);
      NotLastIsSuperseded(rows, r);
      PutLosesNone(rows, r.task, MarkProcessed(rows, r).rows.tasks[r.task], []);
    }
  }

  /** The workflow scheduler only ever adds PENDING tasks. */
  lemma WorkflowTxLosesNone(a: Rows, b: Rows)
    requires Keeps(a, b) && NoNewSuccess(a, b, {})
    ensures NoneLost(a, b)
  {
  }

  // ---- one action ----------------------------------------------------------------------------

  /** Each transaction of the task scheduler but the one for engine failures. */
  lemma SchedulerLosesNone(rows: Rows, t: TaskId, senders: set<TaskName>)
    requires TasksInv(rows.tasks)
    ensures NoneLost(rows, Activate(rows, t, senders).rows)
    ensures NoneLost(rows, StopTask(rows, t).rows)
    ensures NoneLost(rows, TimeOutTask(rows, t).rows)
  {
    TasksFailNone(rows, t, senders);
    ActivateStep(rows, t, senders);
    FailsNoneLosesNone(rows, Activate(rows, t, senders).rows);
    StopTaskStep(rows, t);
    FailsNoneLosesNone(rows, StopTask(rows, t).rows);
    TimeOutTaskStep(rows, t);
    FailsNoneLosesNone(rows, TimeOutTask(rows, t).rows);
  }

  lemma RunsLoseNone(rows: Rows, r: RunId, senders: set<TaskName>)
    requires TasksInv(rows.tasks)
    ensures NoneLost(rows, StartRun(rows, r, senders).rows)
    ensures NoneLost(rows, TimeOutRun(rows, r).rows)
    ensures Succeeded(rows, r) ==> NoneLost(rows, CompleteRun(rows, r).rows)
  {
    RunsFailNone(rows, r, senders);
    StartRunStep(rows, r, senders);
    FailsNoneLosesNone(rows, StartRun(rows, r, senders).rows);
    LateRunFailsNone(rows, r);
    TimeOutRunStep(rows, r);
    FailsNoneLosesNone(rows, TimeOutRun(rows, r).rows);
    if Succeeded(rows, r) {
      CompleteRunStep(rows, r);
      FailsNoneLosesNone(rows, CompleteRun(rows, r).rows);
    }
  }

  lemma WorkersLoseNone(rows: Rows, r: RunId, w: Worker, noRetry: bool)
    requires RowsInv(rows)
    ensures NoneLost(rows, Claim(rows, r, w).rows)
    ensures NoneLost(rows, BeginRun(rows, r).rows)
    ensures NoneLost(rows, MarkFailed(rows, r, noRetry).rows)
    ensures NoneLost(rows, Recover(rows, w).rows)
  {
    WorkersFailNone(rows, r, w, noRetry);
    SameRows(rows);
    if HasRun(rows, r) {
      var run := RunAt(rows, r);
      WriteRunSucceeds(rows, r, FailedWith(run, noRetry));
      WriteKeepsTerminal(rows, r, run.(state := RunAcquired, worker := Some(w)));
      WriteKeepsTerminal(rows, r, run.(state := RunProcessing));
    }
    FailsNoneLosesNone(rows, Claim(rows, r, w).rows);
    FailsNoneLosesNone(rows, BeginRun(rows, r).rows);
    FailsNoneLosesNone(rows, MarkFailed(rows, r, noRetry).rows);
    RecoverAdvances(rows, w);
    FailsNoneLosesNone(rows, Recover(rows, w).rows);
  }

  lemma WriteKeepsTerminal(rows: Rows, r: RunId, next: Run)
    requires HasRun(rows, r) && next.terminal == RunAt(rows, r).terminal
    ensures NoNewSuccess(rows, WriteRun(rows, r, next).rows, {})
  {
    WriteRunSucceeds(rows, r, next);
  }

  /** The delivery that loses the success of run `r`. */
  predicate LosingDelivery(s: State, a: Action, r: RunId) {
    && a.Deliver? && a.msg == EngineFailed(r) && a.msg in s.msgs
    && HasRun(s.rows, r) && RunAt(s.rows, r).state == RunProcessed && s.rows.tasks[r.task].state == TaskActive
  }

  lemma DeliveryLoses(s: State, m: Msg, at: Time, r: RunId)
    requires SystemInv(s) && m in s.msgs
    ensures Lost(React(s.rows, m, s.now, at, s.senders).rows, r) && !Lost(s.rows, r) <==> LosingDelivery(s, Deliver(m, at), r)
  {
    if m.EngineFailed? {
      assert React(s.rows, m, s.now, at, s.senders) == EngineFailRun(s.rows, m.run);
      EngineFailLoses(s.rows, m.run, r);
    } else if ForWorkflow(m) {
      HandleLosesNone(s.rows, m, s.now);
    } else {
      EngineDeliveryLosesNone(s.rows, s.jobs, m, s.now, at, s.senders);
    }
  }

  lemma HandleLosesNone(rows: Rows, m: Msg, now: Time)
    requires RowsInv(rows) && ForWorkflow(m) && Backed(rows, m)
    ensures NoneLost(rows, Handle(rows, m, now).rows)
  {
    HandleIsTx(rows, m, now);
    WorkflowTxLosesNone(rows, Handle(rows, m, now).rows);
  }

  lemma EngineDeliveryLosesNone(rows: Rows, jobs: map<RunId, Job>, m: Msg, now: Time, at: Time, senders: set<TaskName>)
    requires TasksInv(rows.tasks) && Truthful(rows, jobs, m) && !ForWorkflow(m) && !m.EngineFailed?
    ensures NoneLost(rows, React(rows, m, now, at, senders).rows)
  {
    match m
    case NewTask(t) => SchedulerLosesNone(rows, t, senders);
    case CancelTask(t) => SchedulerLosesNone(rows, t, senders);
    case ExecSucceeded(r) => RunsLoseNone(rows, r, senders);
    case ExecFailed(r) => FailRunLosesNone(rows, r, at);
    case PendingInstance(r) =>
  }

  lemma NothingWritten(rows: Rows)
    ensures NoneLost(rows, rows)
  {
  }

  lemma SweepLosesNone(s: State, a: Action)
    requires TasksInv(s.rows.tasks) && TaskSweep(a)
    ensures NoneLost(s.rows, SweepEffect(s, a).rows)
  {
    if SweepEffect(s, a) == Ignore(s.rows) {
      NothingWritten(s.rows);
    } else if a.SweepPending? || a.SweepCancelling? || a.SweepLateTask? {
      TaskSweepLosesNone(s, a);
    } else {
      RunSweepLosesNone(s, a);
    }
  }

  lemma TaskSweepLosesNone(s: State, a: Action)
    requires TasksInv(s.rows.tasks) && SweepEffect(s, a) != Ignore(s.rows)
    requires a.SweepPending? || a.SweepCancelling? || a.SweepLateTask?
    ensures NoneLost(s.rows, SweepEffect(s, a).rows)
  {
    SchedulerLosesNone(s.rows, a.task, s.senders);
  }

  lemma RunSweepLosesNone(s: State, a: Action)
    requires TasksInv(s.rows.tasks) && SweepEffect(s, a) != Ignore(s.rows)
    requires a.SweepProcessed? || a.SweepFailed? || a.SweepDue? || a.SweepLateRun?
    ensures NoneLost(s.rows, SweepEffect(s, a).rows)
  {
    if a.SweepFailed? { FailRunLosesNone(s.rows, a.run, a.at); } else { RunsLoseNone(s.rows, a.run, s.senders); }
  }

  lemma StartLosesNone(s: State, r: RunId, w: Worker, served: bool, fault: bool)
    requires RowsInv(s.rows)
    ensures NoneLost(s.rows, Received(s, r, w).rows)
    ensures NoneLost(s.rows, Refused(s, r).rows)
    ensures NoneLost(s.rows, BegunJob(s, r, served, fault).rows)
  {
    assert Received(s, r, w).rows in {s.rows, Claim(s.rows, r, w).rows};
    assert Refused(s, r).rows in {s.rows, MarkFailed(s.rows, r, false).rows};
    assert BegunJob(s, r, served, fault).rows in {s.rows, BeginRun(s.rows, r).rows};
    NothingWritten(s.rows);
    WorkersLoseNone(s.rows, r, w, false);
  }

  lemma FinishLosesNone(s: State, r: RunId, ending: Ending)
    requires RowsInv(s.rows)
    ensures NoneLost(s.rows, Finished(s, r, ending).rows)
  {
    if r in s.jobs && s.jobs[r].stage != Submitted {
      var error := JobError(s.jobs[r].stage, ending);
      FinishedShape(s, r, ending);
      MarkProcessedLosesNone(s.rows, r);
      WorkersLoseNone(s.rows, r, "", Disposition(error));
      assert Recorded(s.rows, r, error, ending) in
        {Abort(s.rows), MarkProcessed(s.rows, r), MarkFailed(s.rows, r, Disposition(error))};
    }
  }

  lemma QuietLosesNone(s: State, a: Action)
    requires a.Tick? || a.Queues? || a.AskProcess? || a.AskCancel? || a.AskRevive? || a.AskCancelTask? || a.SubmitTask?
          || a.Notify? || a.Leak? || a.Crash?
    ensures NoneLost(s.rows, Next(s, a).rows)
  {
    if a.SubmitTask? && ValidRetry(a.retry) {
      assert Next(s, a).rows == Submit(s.rows, Task(a.name, TaskPending, a.timing, a.deadline, a.retry, s.now, []));
    } else {
      assert Next(s, a).rows == s.rows;
    }
  }

  lemma SweepWorkflowLosesNone(s: State)
    ensures NoneLost(s.rows, Next(s, SweepWorkflow).rows)
  {
    assert Next(s, SweepWorkflow).rows.tasks == s.rows.tasks;
  }

  lemma OtherActionsLoseNone(s: State, a: Action)
    requires RowsInv(s.rows) && !a.Deliver?
    ensures NoneLost(s.rows, Next(s, a).rows)
  {
    if TaskSweep(a) {
      SweepActions(s, a);
      SweepLosesNone(s, a);
    } else if a.Receive? || a.Refuse? || a.Begin? || a.Finish? || a.Restart? {
      WorkLosesNone(s, a);
    } else if a.SweepWorkflow? {
      SweepWorkflowLosesNone(s);
    } else {
      QuietLosesNone(s, a);
    }
  }

  lemma WorkLosesNone(s: State, a: Action)
    requires RowsInv(s.rows) && (a.Receive? || a.Refuse? || a.Begin? || a.Finish? || a.Restart?)
    ensures NoneLost(s.rows, Next(s, a).rows)
  {
    match a
    case Receive(r, w) => StartingLosesNone(s, r, w, false, false);
    case Refuse(r) => StartingLosesNone(s, r, "", false, false);
    case Begin(r, served, fault) => StartingLosesNone(s, r, "", served, fault);
    case Finish(r, ending) => FinishingLosesNone(s, r, ending);
    case Restart(w) => RestartingLosesNone(s, w);
  }

  lemma StartingLosesNone(s: State, r: RunId, w: Worker, served: bool, fault: bool)
    requires RowsInv(s.rows)
    ensures NoneLost(s.rows, Next(s, Receive(r, w)).rows)
    ensures NoneLost(s.rows, Next(s, Refuse(r)).rows)
    ensures NoneLost(s.rows, Next(s, Begin(r, served, fault)).rows)
  {
    ClaimActions(s, r, w);
    JobActions(s, r, served, fault, Fault);
    StartLosesNone(s, r, w, served, fault);
  }

  lemma FinishingLosesNone(s: State, r: RunId, ending: Ending)
    requires RowsInv(s.rows)
    ensures NoneLost(s.rows, Next(s, Finish(r, ending)).rows)
  {
    JobActions(s, r, false, false, ending);
    FinishLosesNone(s, r, ending);
  }

  lemma RestartingLosesNone(s: State, w: Worker)
    requires RowsInv(s.rows)
    ensures NoneLost(s.rows, Next(s, Restart(w)).rows)
  {
    CrashActions(s, w);
    WorkersLoseNone(s.rows, RunId(0, 0), w, false);
  }

  /** Exactly one kind of action loses a success: the delivery of an engine failure of the very run, while
      the run is processed and its task is still ACTIVE. */
  lemma LosesExactlyWhen(s: State, a: Action, r: RunId)
    requires SystemInv(s)
    ensures Lost(Next(s, a).rows, r) && !Lost(s.rows, r) <==> LosingDelivery(s, a, r)
  {
    if a.Deliver? { DeliverActionLoses(s, a.msg, a.at, r); } else { OtherActionsLoseNone(s, a); }
  }

  lemma DeliverActionLoses(s: State, m: Msg, at: Time, r: RunId)
    requires SystemInv(s)
    ensures Lost(Next(s, Deliver(m, at)).rows, r) && !Lost(s.rows, r) <==> LosingDelivery(s, Deliver(m, at), r)
  {
    DeliverAction(s, m, at);
    if m in s.msgs { DeliveryLoses(s, m, at, r); }
  }

  // ---- whole runs ----------------------------------------------------------------------------

  /** A receiver takes up a request for the run and is refused. */
  predicate RefusedClaim(s: State, a: Action, r: RunId) {
    a.Receive? && a.run == r && PendingInstance(r) in s.msgs && !Claim(s.rows, r, a.worker).ok
  }

  /** Taken, in nobody's hands, and no success: it will never be one. */
  predicate ForGood(t: State, r: RunId) {
    r !in t.jobs && Taken(t.rows, r) && !Succeeded(t.rows, r)
  }

  /** An engine failure of the run in flight means that the run was taken and can no longer succeed. */
  predicate ReportIsFinal(s: State, r: RunId) {
    EngineFailed(r) in s.msgs ==> ForGood(s, r)
  }

  /** What can no longer succeed stays so: as for a run reported as a failed execution. */
  lemma FinalStaysFinal(s: State, a: Action, r: RunId)
    requires SystemInv(s) && ForGood(s, r)
    ensures ForGood(Next(s, a), r)
  {
    SendInv(s, ExecFailed(r));
    if a.Deliver? && a.msg == ExecFailed(r) && a.msg !in s.msgs {
      DeliverAction(s, a.msg, a.at);
    } else {
      ToldMakesNoDifference(s, a, r);
      ToldIsFinal(Send(s, ExecFailed(r)), a, r);
    }
  }

  lemma ToldIsFinal(told: State, a: Action, r: RunId)
    requires SystemInv(told) && ExecFailed(r) in told.msgs
    ensures ForGood(Next(told, a), r)
  {
    NextInv(told, a);
    NextGrows(told, a);
    assert Truthful(Next(told, a).rows, Next(told, a).jobs, ExecFailed(r));
  }

  lemma ToldMakesNoDifference(s: State, a: Action, r: RunId)
    requires a.Deliver? && a.msg == ExecFailed(r) ==> a.msg in s.msgs
    ensures Next(Send(s, ExecFailed(r)), a).rows == Next(s, a).rows && Next(Send(s, ExecFailed(r)), a).jobs == Next(s, a).jobs
  {
    var told := Send(s, ExecFailed(r));
    if TaskSweep(a) {
      SweepActions(s, a);
      SweepActions(told, a);
      assert SweepEffect(told, a) == SweepEffect(s, a);
    } else if a.Deliver? {
      DeliverAction(s, a.msg, a.at);
      DeliverAction(told, a.msg, a.at);
    } else if a.Receive? {
      ClaimActions(s, a.run, a.worker);
      ClaimActions(told, a.run, a.worker);
    } else if a.Finish? {
      JobActions(s, a.run, false, false, a.ending);
      JobActions(told, a.run, false, false, a.ending);
    } else {
      ToldOtherwise(s, a, r);
    }
  }

  lemma ToldOtherwise(s: State, a: Action, r: RunId)
    requires !TaskSweep(a) && !a.Deliver? && !a.Receive? && !a.Finish?
    ensures Next(Send(s, ExecFailed(r)), a).rows == Next(s, a).rows && Next(Send(s, ExecFailed(r)), a).jobs == Next(s, a).jobs
  {
  }

  /** A job that ends without a success ends for good. */
  lemma EndedForGood(s: State, t: State, r: RunId)
    requires r in s.jobs && JobInv(s, r) && RowsAdvance(s.rows, t.rows) && NoNewSuccess(s.rows, t.rows, {})
    requires t.jobs == Without(s.jobs, r)
    ensures ForGood(t, r)
  {
    EndedJobTruthful(s, t.rows, r, ExecFailed(r));
  }

  lemma RefusedForGood(s: State, r: RunId)
    requires SystemInv(s) && r in s.jobs && s.jobs[r].stage == Submitted
    ensures ForGood(Refused(s, r), r)
  {
    assert JobInv(s, r);
    MarkFailedAdvances(s.rows, r, false);
    EndedForGood(s, Refused(s, r), r);
  }

  lemma FinishedForGood(s: State, r: RunId, ending: Ending)
    requires SystemInv(s) && r in s.jobs && s.jobs[r].stage != Submitted && JobError(s.jobs[r].stage, ending) != None
    ensures ForGood(Finished(s, r, ending), r)
  {
    assert JobInv(s, r);
    FinishedShape(s, r, ending);
    RecordedFailure(s.rows, r, JobError(s.jobs[r].stage, ending), ending);
    EndedForGood(s, Finished(s, r, ending), r);
  }

  /** A success is not reported as an engine failure. */
  lemma ReportedFailureHasError(s: State, r: RunId, ending: Ending)
    requires r in s.jobs && s.jobs[r].stage != Submitted
    requires EngineFailed(r) !in s.msgs && EngineFailed(r) in Finished(s, r, ending).msgs
    ensures JobError(s.jobs[r].stage, ending) != None
  {
  }

  /** The only other senders of an engine failure are ends of jobs without a success. */
  lemma NewReportIsFinal(s: State, a: Action, r: RunId)
    requires SystemInv(s) && EngineFailed(r) !in s.msgs && EngineFailed(r) in Next(s, a).msgs && !RefusedClaim(s, a, r)
    ensures ForGood(Next(s, a), r)
  {
    ReportComesFromJob(s, a, r);
    if a.Refuse? { RefusingIsFinal(s, r); } else { FinishingIsFinal(s, r, a.ending); }
  }

  lemma RefusingIsFinal(s: State, r: RunId)
    requires SystemInv(s) && r in s.jobs && s.jobs[r].stage == Submitted
    ensures ForGood(Next(s, Refuse(r)), r)
  {
    ClaimActions(s, r, "");
    RefusedForGood(s, r);
  }

  lemma FinishingIsFinal(s: State, r: RunId, ending: Ending)
    requires SystemInv(s) && r in s.jobs && s.jobs[r].stage != Submitted
    requires EngineFailed(r) !in s.msgs && EngineFailed(r) in Next(s, Finish(r, ending)).msgs
    ensures ForGood(Next(s, Finish(r, ending)), r)
  {
    JobActions(s, r, false, false, ending);
    ReportedFailureHasError(s, r, ending);
    FinishedForGood(s, r, ending);
  }

  /** What an action adds to the engine failures in flight. */
  ghost predicate NoReportSent(s: State, t: State) {
    forall r :: EngineFailed(r) in t.msgs ==> EngineFailed(r) in s.msgs
  }

  lemma SchedulersReportNone(s: State, e: Effect)
    requires forall m :: m in e.sends ==> Sendable(e.rows, m) || m.ExecFailed?
    ensures NoReportSent(s, Commit(s, e))
  {
  }

  lemma DeliveryReportsNone(s: State, m: Msg, at: Time)
    requires TasksInv(s.rows.tasks) && Truthful(s.rows, s.jobs, m) && m in s.msgs
    ensures NoReportSent(s, Commit(s, React(s.rows, m, s.now, at, s.senders)))
  {
    var e := React(s.rows, m, s.now, at, s.senders);
    if ForWorkflow(m) {
      assert e == Handle(s.rows, m, s.now);
      HandleSends(s.rows, m, s.now);
    } else {
      ReactStep(s.rows, s.jobs, m, s.now, at, s.senders);
    }
    SchedulersReportNone(s, e);
  }

  lemma SweepReportsNone(s: State, a: Action)
    requires TasksInv(s.rows.tasks) && TaskSweep(a)
    ensures NoReportSent(s, Commit(s, SweepEffect(s, a)))
  {
    SweepIsStep(s, a);
    SchedulersReportNone(s, SweepEffect(s, a));
  }

  lemma QuietReportsNone(s: State, a: Action)
    requires a.Tick? || a.Queues? || a.AskProcess? || a.AskCancel? || a.AskRevive? || a.AskCancelTask? || a.SubmitTask?
          || a.Notify? || a.Leak? || a.Crash? || a.Restart? || a.Begin? || a.SweepWorkflow?
    ensures NoReportSent(s, Next(s, a))
  {
    if a.Notify? {
      NotifyReportsNone(s, a.event);
    } else if a.Restart? {
      RestartReportsNone(s, a.worker);
    } else if a.Begin? {
      BeginReportsNone(s, a.run, a.served, a.fault);
    } else if a.SweepWorkflow? {
      SweepWorkflowReportsNone(s);
    } else {
      AskReportsNone(s, a);
    }
  }

  lemma AskReportsNone(s: State, a: Action)
    requires a.Tick? || a.Queues? || a.AskProcess? || a.AskCancel? || a.AskRevive? || a.AskCancelTask? || a.SubmitTask?
          || a.Leak? || a.Crash?
    ensures NoReportSent(s, Next(s, a))
  {
  }

  lemma RestartReportsNone(s: State, w: Worker)
    ensures NoReportSent(s, Next(s, Restart(w)))
  {
    CrashActions(s, w);
  }

  lemma BeginReportsNone(s: State, r: RunId, served: bool, fault: bool)
    ensures NoReportSent(s, Next(s, Begin(r, served, fault)))
  {
    JobActions(s, r, served, fault, Fault);
    assert BegunJob(s, r, served, fault).msgs <= s.msgs + {ExecFailed(r)};
  }

  lemma SweepWorkflowReportsNone(s: State)
    ensures NoReportSent(s, Next(s, SweepWorkflow))
  {
    SweepActions(s, SweepWorkflow);
  }

  lemma NotifyReportsNone(s: State, event: nat)
    ensures NoReportSent(s, Next(s, Notify(event)))
  {
  }

  lemma ReportComesFromJob(s: State, a: Action, r: RunId)
    requires SystemInv(s) && EngineFailed(r) !in s.msgs && EngineFailed(r) in Next(s, a).msgs && !RefusedClaim(s, a, r)
    ensures (a.Refuse? || a.Finish?) && a.run == r && r in s.jobs
    ensures a.Refuse? <==> s.jobs[r].stage == Submitted
  {
    if a.Deliver? {
      if a.msg in s.msgs {
        DeliverAction(s, a.msg, a.at);
        DeliveryReportsNone(s, a.msg, a.at);
      }
    } else if TaskSweep(a) {
      SweepActions(s, a);
      SweepReportsNone(s, a);
    } else if a.Receive? || a.Refuse? || a.Finish? {
      WorkerReports(s, a, r);
    } else {
      QuietReportsNone(s, a);
    }
  }

  lemma WorkerReports(s: State, a: Action, r: RunId)
    requires a.Receive? || a.Refuse? || a.Finish?
    requires EngineFailed(r) !in s.msgs && EngineFailed(r) in Next(s, a).msgs && !RefusedClaim(s, a, r)
    ensures (a.Refuse? || a.Finish?) && a.run == r && r in s.jobs
    ensures a.Refuse? <==> s.jobs[r].stage == Submitted
  {
  }

  /** Without a refused claim of the run, every engine failure reported for it is final. */
  lemma ReportStaysFinal(s: State, a: Action, r: RunId)
    requires SystemInv(s) && ReportIsFinal(s, r) && !RefusedClaim(s, a, r)
    ensures ReportIsFinal(Next(s, a), r)
  {
    if EngineFailed(r) in Next(s, a).msgs {
      if EngineFailed(r) in s.msgs { FinalStaysFinal(s, a, r); } else { NewReportIsFinal(s, a, r); }
    }
  }

  /** Somewhere in the run a claim of `r` was refused. */
  ghost predicate EverRefused(s: State, actions: seq<Action>, r: RunId) {
    exists k :: 0 <= k < |actions| && RefusedClaim(After(s, actions[..k]), actions[k], r)
  }

  lemma RefusedBefore(s: State, actions: seq<Action>, r: RunId)
    requires actions != []
    ensures EverRefused(s, actions[..|actions| - 1], r) ==> EverRefused(s, actions, r)
    ensures RefusedClaim(After(s, actions[..|actions| - 1]), actions[|actions| - 1], r) ==> EverRefused(s, actions, r)
  {
    var front := actions[..|actions| - 1];
    if EverRefused(s, front, r) {
      var k :| 0 <= k < |front| && RefusedClaim(After(s, front[..k]), front[k], r);
      assert front[..k] == actions[..k] && front[k] == actions[k];
    }
  }

  /** While no claim of the run is refused, its success cannot be lost. */
  lemma StillUnlost(s: State, a: Action, r: RunId)
    requires SystemInv(s) && ReportIsFinal(s, r) && !Lost(s.rows, r) && !RefusedClaim(s, a, r)
    ensures ReportIsFinal(Next(s, a), r) && !Lost(Next(s, a).rows, r)
  {
    ReportStaysFinal(s, a, r);
    LosesExactlyWhen(s, a, r);
  }

  lemma {:induction false} NeverRefusedNeverLost(s: State, actions: seq<Action>, r: RunId)
    requires SystemInv(s) && ReportIsFinal(s, r) && !Lost(s.rows, r) && !EverRefused(s, actions, r)
    ensures ReportIsFinal(After(s, actions), r) && !Lost(After(s, actions).rows, r)
  {
    if actions == [] {
    } else {
      var front, last := actions[..|actions| - 1], actions[|actions| - 1];
      RefusedBefore(s, actions, r);
      NeverRefusedNeverLost(s, front, r);
      AfterInv(s, front);
      StillUnlost(After(s, front), last, r);
    }
  }

  /** In every run of the two engines, a task that ends FAILED although one of its runs succeeded had a
      claim of that run refused: a duplicated or an early request. */
  lemma LostOnlyAfterRefusedClaim(spec: SpecValidation.WorkflowSpec, start: Time, actions: seq<Action>, r: RunId)
    requires SpecValidation.Sound(spec)
    ensures Lost(Reached(spec, start, actions).rows, r) ==> EverRefused(Init(spec, start), actions, r)
  {
    InitInv(spec, start);
    if !EverRefused(Init(spec, start), actions, r) { NeverRefusedNeverLost(Init(spec, start), actions, r); }
  }

  /** The same for one action of any run: exactly the delivery of the engine failure loses the success. */
  lemma LostExactlyBy(spec: SpecValidation.WorkflowSpec, start: Time, actions: seq<Action>, a: Action, r: RunId)
    requires SpecValidation.Sound(spec)
    ensures var s := Reached(spec, start, actions);
            Lost(Next(s, a).rows, r) && !Lost(s.rows, r) <==> LosingDelivery(s, a, r)
  {
    ReachedInv(spec, start, actions);
    LosesExactlyWhen(Reached(spec, start, actions), a, r);
  }
}
