/** What holds in every run of the composed engines: every specification the validation accepts, every
    list of actions, hence any loss, duplication, reordering or delay of messages and any crashes. */
module Guarantees {
  import opened Prelude
  import opened Tables
  import opened Backoff
  import opened StepGraph
  import opened Rows
  import opened WorkflowSpec
  import opened WorkflowInvariants
  import opened TaskSpec
  import opened TaskInvariants
  import opened AuditInvariants
  import opened LinkInvariants
  import opened System
  import opened SystemInvariants
  import opened Store
  import SpecValidation

  ghost function Reached(spec: SpecValidation.WorkflowSpec, start: Time, actions: seq<Action>): State
    requires spec.deadline.Some?
  {
    After(Init(spec, start), actions)
  }

  lemma InitInv(spec: SpecValidation.WorkflowSpec, start: Time)
    requires SpecValidation.Sound(spec)
    ensures SystemInv(Init(spec, start))
    ensures GraphOf(Init(spec, start).rows.steps) == SpecValidation.GraphOf(spec)
  {
    var rows := DefinedRows(spec);
    DefinedKeeps(spec);
    forall n | n in rows.steps ensures StepLinks(rows, n) { }
    assert LinkInv(rows);
    assert LogInv(rows);
    assert !exists r :: HasRun(rows, r);
  }

  lemma {:induction false} AfterInv(s: State, actions: seq<Action>)
    requires SystemInv(s)
    ensures SystemInv(After(s, actions))
  {
    if actions == [] {
    } else {
      AfterInv(s, actions[..|actions| - 1]);
      NextInv(After(s, actions[..|actions| - 1]), actions[|actions| - 1]);
    }
  }

  // ---- no action undoes ----------------------------------------------------------------------

  /** How the whole system moves forward. */
  ghost predicate Forward(a: State, b: State) {
    && RowsAdvance(a.rows, b.rows)
    && CancellationWins(a.rows, b.rows)
    && a.now <= b.now && a.msgs <= b.msgs && a.claims <= b.claims && a.calls <= b.calls
  }

  lemma RowsAdvanceTransitive(a: Rows, b: Rows, c: Rows)
    requires RowsAdvance(a, b) && RowsAdvance(b, c)
    ensures RowsAdvance(a, c)
  {
    forall t | 0 <= t < |a.tasks| ensures TaskEvolves(a.tasks[t], c.tasks[t]) {
      TaskEvolvesTransitive(a.tasks[t], b.tasks[t], c.tasks[t]);
    }
  }

  lemma TaskEvolvesTransitive(a: Task, b: Task, c: Task)
    requires TaskEvolves(a, b) && TaskEvolves(b, c)
    ensures TaskEvolves(a, c)
  {
    forall i | 0 <= i < |a.runs| ensures RunEvolves(a.runs[i], c.runs[i]) {
      assert RunEvolves(b.runs[i], c.runs[i]);
    }
  }

  ghost predicate UserTaskAdded(a: Rows, b: Rows) {
    exists task: Task :: b == Submit(a, task) && task.runs == []
  }

  /** The rows change by a transaction of one of the engines, by a user's new task, or not at all. */
  ghost predicate RowsStep(a: Rows, b: Rows) {
    b == a || UserTaskAdded(a, b) || Keeps(a, b) || EngineKeeps(a, b)
  }

  lemma RowsStepForward(a: Rows, b: Rows)
    requires RowsStep(a, b)
    ensures RowsAdvance(a, b) && CancellationWins(a, b)
  {
    if b == a {
      SameRows(a);
    } else if UserTaskAdded(a, b) {
      var task :| b == Submit(a, task) && task.runs == [];
      SubmitAdvances(a, task);
    } else if Keeps(a, b) {
      KeepsAdvance(a, b);
    } else {
      EngineAdvances(a, b);
    }
  }

  lemma EngineStep(a: Rows, b: Rows)
    requires EngineKeeps(a, b)
    ensures RowsStep(a, b)
  {
  }

  lemma SweepRows(s: State, a: Action)
    requires TasksInv(s.rows.tasks) && TaskSweep(a)
    ensures RowsStep(s.rows, SweepEffect(s, a).rows)
  {
    SweepIsStep(s, a);
    EngineStep(s.rows, SweepEffect(s, a).rows);
  }

  lemma WorkerRowsStep(rows: Rows, r: RunId, w: Worker, noRetry: bool)
    requires TasksInv(rows.tasks)
    ensures RowsStep(rows, Claim(rows, r, w).rows) && RowsStep(rows, BeginRun(rows, r).rows)
    ensures RowsStep(rows, MarkProcessed(rows, r).rows) && RowsStep(rows, MarkFailed(rows, r, noRetry).rows)
  {
    ClaimKeeps(rows, r, w);
    BeginRunKeeps(rows, r);
    MarkProcessedKeeps(rows, r);
    MarkFailedKeeps(rows, r, noRetry);
    EngineStep(rows, Claim(rows, r, w).rows);
    EngineStep(rows, BeginRun(rows, r).rows);
    EngineStep(rows, MarkProcessed(rows, r).rows);
    EngineStep(rows, MarkFailed(rows, r, noRetry).rows);
  }

  lemma RecoverRows(rows: Rows, w: Worker)
    requires TasksInv(rows.tasks)
    ensures RowsStep(rows, Recover(rows, w).rows)
  {
    RecoverKeeps(rows, w);
    EngineStep(rows, Recover(rows, w).rows);
  }

  lemma ReconcileRows(rows: Rows, now: Time)
    requires FlowInv(rows)
    ensures RowsStep(rows, Reconcile(rows, now).rows)
  {
    ReconcileKeeps(rows, now);
  }

  lemma DeliverRows(s: State, m: Msg, at: Time)
    requires SystemInv(s) && m in s.msgs
    ensures RowsStep(s.rows, React(s.rows, m, s.now, at, s.senders).rows)
  {
    if ForWorkflow(m) { HandleIsTx(s.rows, m, s.now); } else { ReactStep(s.rows, s.jobs, m, s.now, at, s.senders); }
  }

  lemma NextRows(s: State, a: Action)
    requires SystemInv(s)
    ensures RowsStep(s.rows, Next(s, a).rows)
  {
    if a.Deliver? {
      DeliverAction(s, a.msg, a.at);
      if a.msg in s.msgs { DeliverRows(s, a.msg, a.at); }
    } else if a.SweepWorkflow? {
      SweepActions(s, a);
      ReconcileRows(s.rows, s.now);
    } else if TaskSweep(a) {
      SweepActions(s, a);
      SweepRows(s, a);
    } else if a.Receive? || a.Refuse? || a.Begin? || a.Finish? || a.Restart? {
      WorkRows(s, a);
    } else {
      QuietRows(s, a);
    }
  }

  lemma QuietRows(s: State, a: Action)
    requires a.Tick? || a.Queues? || a.AskProcess? || a.AskCancel? || a.AskRevive? || a.AskCancelTask? || a.SubmitTask?
          || a.Notify? || a.Leak? || a.Crash?
    ensures RowsStep(s.rows, Next(s, a).rows)
  {
    if a.SubmitTask? && ValidRetry(a.retry) {
      assert Next(s, a).rows == Submit(s.rows, Task(a.name, TaskPending, a.timing, a.deadline, a.retry, s.now, []));
    } else {
      assert Next(s, a).rows == s.rows;
    }
  }

  lemma WorkRows(s: State, a: Action)
    requires TasksInv(s.rows.tasks) && (a.Receive? || a.Refuse? || a.Begin? || a.Finish? || a.Restart?)
    ensures RowsStep(s.rows, Next(s, a).rows)
  {
    match a
    case Receive(r, w) => ClaimActions(s, r, w); StartedRows(s, r, w, false, false);
    case Refuse(r) => ClaimActions(s, r, ""); StartedRows(s, r, "", false, false);
    case Begin(r, served, fault) => JobActions(s, r, served, fault, Fault); StartedRows(s, r, "", served, fault);
    case Finish(r, ending) => JobActions(s, r, false, false, ending); FinishedRows(s, r, ending);
    case Restart(w) => CrashActions(s, w); RecoverRows(s.rows, w);
  }

  lemma StartedRows(s: State, r: RunId, w: Worker, served: bool, fault: bool)
    requires TasksInv(s.rows.tasks)
    ensures RowsStep(s.rows, Received(s, r, w).rows)
    ensures RowsStep(s.rows, Refused(s, r).rows)
    ensures RowsStep(s.rows, BegunJob(s, r, served, fault).rows)
  {
    assert Received(s, r, w).rows in {s.rows, Claim(s.rows, r, w).rows};
    assert Refused(s, r).rows in {s.rows, MarkFailed(s.rows, r, false).rows};
    assert BegunJob(s, r, served, fault).rows in {s.rows, BeginRun(s.rows, r).rows};
    WorkerRowsStep(s.rows, r, w, false);
  }

  lemma FinishedRows(s: State, r: RunId, ending: Ending)
    requires TasksInv(s.rows.tasks)
    ensures RowsStep(s.rows, Finished(s, r, ending).rows)
  {
    if r !in s.jobs || s.jobs[r].stage == Submitted {
      assert Finished(s, r, ending) == s;
    } else {
      var error := JobError(s.jobs[r].stage, ending);
      FinishedShape(s, r, ending);
      assert Recorded(s.rows, r, error, ending) in
        {Abort(s.rows), MarkProcessed(s.rows, r), MarkFailed(s.rows, r, Disposition(error))};
      WorkerRowsStep(s.rows, r, "", Disposition(error));
    }
  }

  lemma NextGrows(s: State, a: Action)
    ensures var t := Next(s, a); s.now <= t.now && s.msgs <= t.msgs && s.claims <= t.claims && s.calls <= t.calls
  {
  }

  lemma OneStepFurther(s: State, mid: State, t: State)
    requires Forward(s, mid) && RowsStep(mid.rows, t.rows)
    requires mid.now <= t.now && mid.msgs <= t.msgs && mid.claims <= t.claims && mid.calls <= t.calls
    ensures Forward(s, t)
  {
    RowsStepForward(mid.rows, t.rows);
    RowsAdvanceTransitive(s.rows, mid.rows, t.rows);
  }

  /** Whatever happens next, nothing is undone. */
  lemma {:induction false} AfterForward(s: State, actions: seq<Action>)
    requires SystemInv(s)
    ensures Forward(s, After(s, actions))
  {
    if actions == [] {
      SameRows(s.rows);
    } else {
      var front, last := actions[..|actions| - 1], actions[|actions| - 1];
      AfterForward(s, front);
      AfterInv(s, front);
      NextRows(After(s, front), last);
      NextGrows(After(s, front), last);
      OneStepFurther(s, After(s, front), After(s, actions));
    }
  }

  // ---- the guarantees ------------------------------------------------------------------------

  lemma ReachedInv(spec: SpecValidation.WorkflowSpec, start: Time, actions: seq<Action>)
    requires SpecValidation.Sound(spec)
    ensures SystemInv(Reached(spec, start, actions))
  {
    InitInv(spec, start);
    AfterInv(Init(spec, start), actions);
  }

  /** The rows always hold exactly the accepted dependency graph. */
  lemma ReachedGraph(spec: SpecValidation.WorkflowSpec, start: Time, actions: seq<Action>)
    requires SpecValidation.Sound(spec)
    ensures GraphOf(Reached(spec, start, actions).rows.steps) == SpecValidation.GraphOf(spec)
    ensures Reached(spec, start, actions).rows.steps.Keys == spec.steps.Keys
  {
    InitInv(spec, start);
    AfterForward(Init(spec, start), actions);
    SameGraph(Init(spec, start).rows, Reached(spec, start, actions).rows);
    assert Init(spec, start).rows.steps.Keys == spec.steps.Keys;
  }

  /** The rows of a defined workflow can always be listed. */
  lemma ListingNeverFails(spec: SpecValidation.WorkflowSpec, start: Time, actions: seq<Action>)
    requires SpecValidation.Sound(spec)
    ensures Listable(Reached(spec, start, actions).rows)
  {
    ReachedGraph(spec, start, actions);
  }

  /** The step was really executed: one of its tasks completed, by a finalized run whose recorded outcome
      is success and for which the processor was called. */
  predicate DoneForReal(s: State, n: Name) {
    && n in s.rows.steps
    && exists t :: t in s.rows.steps[n].attempts && CompletedByRun(s, t)
  }

  predicate CompletedByRun(s: State, t: TaskId) {
    && t < |s.rows.tasks| && s.rows.tasks[t].state == TaskComplete && s.rows.tasks[t].runs != []
    && Last(s.rows.tasks[t]).state == RunFinalized && Last(s.rows.tasks[t]).terminal == Some(RunProcessed)
    && RunId(t, |s.rows.tasks[t].runs| - 1) in s.calls
  }

  ghost predicate RealCompletions(s: State) {
    && (forall n :: n in s.rows.steps && s.rows.steps[n].state == StepComplete ==> DoneForReal(s, n))
    && (s.rows.wf.state == WfComplete ==> forall n :: n in s.rows.steps ==> DoneForReal(s, n))
  }

  /** End to end: every COMPLETE step was really executed; so a COMPLETE workflow has executed every step
      of its specification. */
  lemma CompletionIsReal(spec: SpecValidation.WorkflowSpec, start: Time, actions: seq<Action>)
    requires SpecValidation.Sound(spec)
    ensures RealCompletions(Reached(spec, start, actions))
    ensures Reached(spec, start, actions).rows.steps.Keys == spec.steps.Keys
  {
    ReachedInv(spec, start, actions);
    ReachedGraph(spec, start, actions);
    CompletionsAreReal(Reached(spec, start, actions));
  }

  lemma CompletionsAreReal(s: State)
    requires LinkInv(s.rows) && TasksInv(s.rows.tasks) && WorkInv(s) && Agrees(s.rows)
    ensures RealCompletions(s)
  {
    forall n | n in s.rows.steps && s.rows.steps[n].state == StepComplete ensures DoneForReal(s, n) {
      CompleteStepIsReal(s, n);
    }
  }

  lemma CompleteStepIsReal(s: State, n: Name)
    requires LinkInv(s.rows) && TasksInv(s.rows.tasks) && WorkInv(s)
    requires n in s.rows.steps && s.rows.steps[n].state == StepComplete
    ensures DoneForReal(s, n)
  {
    assert StepLinks(s.rows, n);
    var t :| t in s.rows.steps[n].attempts && TaskStateAt(s.rows.tasks, t) == TaskComplete;
    assert TaskInv(s.rows.tasks[t]);
    assert Succeeded(s.rows, RunId(t, |s.rows.tasks[t].runs| - 1));
    assert CompletedByRun(s, t);
  }

  /** The workflow state and the step states agree at all times. */
  lemma AggregateAgrees(spec: SpecValidation.WorkflowSpec, start: Time, actions: seq<Action>)
    requires SpecValidation.Sound(spec)
    ensures var rows := Reached(spec, start, actions).rows; Aggregate(rows.wf.state, rows.steps)
  {
    ReachedInv(spec, start, actions);
  }

  /** Whatever a step depends on, directly or not, is COMPLETE by the time the step has begun; and all of
      it is recorded as completed before the step's own completion is. */
  lemma DependenciesFirst(spec: SpecValidation.WorkflowSpec, start: Time, actions: seq<Action>, walk: seq<Name>, k: nat)
    requires SpecValidation.Sound(spec) && IsWalk(SpecValidation.GraphOf(spec), walk) && 0 < k < |walk|
    ensures var rows := Reached(spec, start, actions).rows;
            && walk[0] in rows.steps && walk[k] in rows.steps
            && (Begun(rows.steps[walk[0]].state) ==> rows.steps[walk[k]].state == StepComplete)
            && forall i :: 0 <= i < |rows.log| && CompletesAt(rows.log[i], walk[0]) ==> LoggedComplete(rows.log, i, walk[k])
  {
    ReachedInv(spec, start, actions);
    ReachedGraph(spec, start, actions);
    var rows := Reached(spec, start, actions).rows;
    if Begun(rows.steps[walk[0]].state) { AncestorsComplete(rows, walk, k); }
    forall i | 0 <= i < |rows.log| && CompletesAt(rows.log[i], walk[0]) ensures LoggedComplete(rows.log, i, walk[k]) {
      AncestorsCompleteFirst(rows, walk, i, k);
    }
  }

  lemma {:induction false} AncestorsComplete(rows: Rows, walk: seq<Name>, k: nat)
    requires StepsInv(rows) && IsWalk(GraphOf(rows.steps), walk) && 0 < k < |walk|
    requires Begun(rows.steps[walk[0]].state)
    ensures rows.steps[walk[k]].state == StepComplete
  {
    assert walk[(k - 1) + 1] in GraphOf(rows.steps)[walk[k - 1]];
    if k == 1 {
    } else {
      AncestorsComplete(rows, walk, k - 1);
    }
    assert ParentsComplete(rows.steps, walk[k - 1]);
  }

  /** A step has at most one live task; it is dispatched at most once more than it was revived; a
      RUNNING or CANCELLING step always has a task; every task was created in time; and it is flagged as
      restarted exactly when the log tells of a revival. */
  ghost predicate DispatchDiscipline(rows: Rows, n: Name)
    requires n in rows.steps
  {
    && (forall t, u :: t in LiveAttempts(rows, n) && u in LiveAttempts(rows, n) ==> t == u)
    && |rows.steps[n].attempts| <= Revivals(rows.log, n) + 1
    && (rows.steps[n].state in {StepRunning, StepCancelling} ==> rows.steps[n].attempts != [])
    && (forall t :: t in rows.steps[n].attempts ==> t < |rows.tasks| && Timely(rows.tasks[t]))
    && (rows.steps[n].restarted <==> Revivals(rows.log, n) > 0)
  }

  lemma DispatchedOnce(spec: SpecValidation.WorkflowSpec, start: Time, actions: seq<Action>)
    requires SpecValidation.Sound(spec)
    ensures var rows := Reached(spec, start, actions).rows; forall n :: n in rows.steps ==> DispatchDiscipline(rows, n)
  {
    ReachedInv(spec, start, actions);
    var rows := Reached(spec, start, actions).rows;
    forall n | n in rows.steps ensures DispatchDiscipline(rows, n) { LinksDiscipline(rows, n); }
  }

  lemma LinksDiscipline(rows: Rows, n: Name)
    requires LinkInv(rows) && n in rows.steps
    ensures DispatchDiscipline(rows, n)
  {
    assert StepLinks(rows, n);
    DispatchBounded(rows, n);
    forall t, u | t in LiveAttempts(rows, n) && u in LiveAttempts(rows, n) ensures t == u { SingleDispatch(rows, n, t, u); }
  }

  /** Each run is claimed at most once, by one worker, and its processor is called at most once. */
  lemma ExecutedAtMostOnce(spec: SpecValidation.WorkflowSpec, start: Time, actions: seq<Action>)
    requires SpecValidation.Sound(spec)
    ensures var s := Reached(spec, start, actions);
            && (forall i, j :: 0 <= i < |s.claims| && 0 <= j < |s.claims| && s.claims[i].run == s.claims[j].run ==> i == j)
            && (forall i, j :: 0 <= i < |s.calls| && 0 <= j < |s.calls| && s.calls[i] == s.calls[j] ==> i == j)
            && forall r :: r in s.calls ==> ClaimedBy(s.claims, r)
  {
    ReachedInv(spec, start, actions);
  }

  /** Cancellation wins: from the moment the workflow is CANCELLING no step gets another task and no
      further step completes, whatever happens. */
  lemma CancellationIsFinal(spec: SpecValidation.WorkflowSpec, start: Time, actions: seq<Action>, more: seq<Action>)
    requires SpecValidation.Sound(spec)
    ensures CancellationWins(Reached(spec, start, actions).rows, Reached(spec, start, actions + more).rows)
  {
    NothingUndone(spec, start, actions, more);
  }

  /** A CANCELLED step stays so, whatever happens. So once a step is CANCELLED, even in a workflow nobody
      cancelled, that workflow never completes, no revival brings the step back, and the only end it can
      come to is CANCELLED. */
  lemma CancelledStepIsForever(spec: SpecValidation.WorkflowSpec, start: Time, actions: seq<Action>, more: seq<Action>, n: Name)
    requires SpecValidation.Sound(spec)
    ensures var a, b := Reached(spec, start, actions).rows, Reached(spec, start, actions + more).rows;
            n in a.steps && a.steps[n].state == StepCancelled ==>
              n in b.steps && b.steps[n] == a.steps[n] && b.wf.state != WfComplete
  {
    NothingUndone(spec, start, actions, more);
    AggregateAgrees(spec, start, actions + more);
  }

  /** COMPLETE and CANCELLED workflows and steps, terminal tasks, recorded outcomes and the audit log
      never change again. */
  lemma NothingUndone(spec: SpecValidation.WorkflowSpec, start: Time, actions: seq<Action>, more: seq<Action>)
    requires SpecValidation.Sound(spec)
    ensures Forward(Reached(spec, start, actions), Reached(spec, start, actions + more))
  {
    ReachedInv(spec, start, actions);
    AfterConcat(Init(spec, start), actions, more);
    AfterForward(Reached(spec, start, actions), more);
  }

  /** The audit log alone reproduces every state, and no task is ever left CANCELLING. */
  lemma LogAgrees(spec: SpecValidation.WorkflowSpec, start: Time, actions: seq<Action>)
    requires SpecValidation.Sound(spec)
    ensures var rows := Reached(spec, start, actions).rows;
            && LogTellsStates(rows)
            && forall t :: 0 <= t < |rows.tasks| ==> rows.tasks[t].state != TaskCancelling
  {
    ReachedInv(spec, start, actions);
  }

  /** Every step that can still move carries the workflow's current deadline. */
  lemma DeadlinesMirrored(spec: SpecValidation.WorkflowSpec, start: Time, actions: seq<Action>)
    requires SpecValidation.Sound(spec)
    ensures Mirrored(Reached(spec, start, actions).rows)
  {
    ReachedInv(spec, start, actions);
  }

  /** The retry discipline of every task, whoever submitted it: at most one open run, exactly one when
      the task is ACTIVE; an ongoing run means an ACTIVE task; never more than one run above the retry
      limit; nothing follows a success, a cancellation or a NON_RETRYABLE failure. */
  lemma RetriesBounded(spec: SpecValidation.WorkflowSpec, start: Time, actions: seq<Action>, t: TaskId)
    requires SpecValidation.Sound(spec) && t < |Reached(spec, start, actions).rows.tasks|
    ensures var task := Reached(spec, start, actions).rows.tasks[t];
            && (forall i, j :: 0 <= i < j < |task.runs| ==> !OpenRun(task.runs[i]) || !OpenRun(task.runs[j]))
            && (task.state == TaskActive ==> task.runs != [] && OpenRun(Last(task)))
            && (forall i :: 0 <= i < |task.runs| && LiveRun(task.runs[i].state) ==> task.state == TaskActive)
            && (task.retry.maxRetries >= 0 ==> |task.runs| <= task.retry.maxRetries + 1)
            && forall i :: 0 <= i < |task.runs| - 1 ==> Superseded(task.runs[i])
  {
    ReachedInv(spec, start, actions);
    var task := Reached(spec, start, actions).rows.tasks[t];
    assert TaskInv(task);
    forall i, j | 0 <= i < j < |task.runs| ensures !OpenRun(task.runs[i]) || !OpenRun(task.runs[j]) {
      RetryDiscipline(task, i, j);
    }
    forall i | 0 <= i < |task.runs| && LiveRun(task.runs[i].state) ensures task.state == TaskActive {
      RetryDiscipline(task, i, i);
    }
  }

  /** A dispatch gives the new task the workflow's deadline, which has not passed, and links it to its
      step alone. */
  lemma DispatchInTime(spec: SpecValidation.WorkflowSpec, start: Time, actions: seq<Action>, n: Name)
    requires SpecValidation.Sound(spec)
    ensures var s := Reached(spec, start, actions);
            var b := WorkflowSpec.Schedule(s.rows, n, s.now).rows;
            |b.tasks| > |s.rows.tasks| ==>
              && b.tasks[..|s.rows.tasks|] == s.rows.tasks && |b.tasks| == |s.rows.tasks| + 1
              && b.tasks[|s.rows.tasks|].deadline == Some(s.rows.wf.deadline)
              && b.tasks[|s.rows.tasks|].created == s.now <= s.rows.wf.deadline
              && StepOfTask(b.steps, |s.rows.tasks|) == Some(n)
  {
    ReachedInv(spec, start, actions);
    var s := Reached(spec, start, actions);
    ScheduleInTime(s.rows, n, s.now);
  }

  lemma ScheduleInTime(rows: Rows, n: Name, now: Time)
    requires LinkInv(rows) && Mirrored(rows) && FlowInv(rows) && TasksInv(rows.tasks)
    ensures var b := WorkflowSpec.Schedule(rows, n, now).rows;
            |b.tasks| > |rows.tasks| ==>
              && b.tasks[..|rows.tasks|] == rows.tasks && |b.tasks| == |rows.tasks| + 1
              && b.tasks[|rows.tasks|].deadline == Some(rows.wf.deadline)
              && b.tasks[|rows.tasks|].created == now <= rows.wf.deadline
              && StepOfTask(b.steps, |rows.tasks|) == Some(n)
  {
    var b := WorkflowSpec.Schedule(rows, n, now).rows;
    if |b.tasks| > |rows.tasks| {
      ScheduleLinks(rows, n, now);
      LinkResolves(b, n, |rows.tasks|);
    }
  }
}
