/** The audit log and the rows tell the same story: reading the log back gives every state, the
    terminal events are final, and the completions follow the dependency order. */
module AuditInvariants {
  import opened Prelude
  import opened Tables
  import opened StepGraph
  import opened Rows
  import opened WorkflowSpec
  import opened WorkflowInvariants
  import opened TaskSpec

  predicate CompletesAt(e: Event, n: Name) {
    e.StepEvents? && e.stepState == StepComplete && n in e.names
  }

  predicate LoggedComplete(log: seq<Event>, before: nat, n: Name)
    requires before <= |log|
  {
    exists j :: 0 <= j < before && CompletesAt(log[j], n)
  }

  /** Every completion in the log comes after the completions of the step's parents. */
  predicate CompletionsOrdered(steps: map<Name, Step>, log: seq<Event>) {
    forall i, n, p :: 0 <= i < |log| && CompletesAt(log[i], n) && n in steps && p in steps[n].parents ==>
                        LoggedComplete(log, i, p)
  }

  /** What an audit event about a task says of its current state. */
  predicate EventTrue(e: Event, tasks: seq<Task>) {
    && (e.TaskEvent? ==> e.task < |tasks| && (TerminalTask(e.taskState) ==> tasks[e.task].state == e.taskState))
    && (e.EngineFailure? ==> e.task < |tasks| && tasks[e.task].state == TaskFailed)
  }

  predicate EventsTrue(rows: Rows) {
    forall i :: 0 <= i < |rows.log| ==> EventTrue(rows.log[i], rows.tasks)
  }

  predicate LogTellsStates(rows: Rows) {
    && LoggedWf(rows.log) == rows.wf.state
    && (forall n :: n in rows.steps ==> LoggedStep(rows.log, n) == rows.steps[n].state)
    && (forall t: TaskId :: t < |rows.tasks| ==> LoggedTask(rows.log, t) == rows.tasks[t].state)
  }

  predicate LogInv(rows: Rows) {
    && LogTellsStates(rows)
    && EventsTrue(rows)
    && CompletionsOrdered(rows.steps, rows.log)
  }

  lemma Unfold(log: seq<Event>, e: Event)
    ensures (log + [e])[..|log|] == log
    ensures LoggedWf(log + [e]) == if e.WfEvent? then e.wfState else LoggedWf(log)
    ensures forall n :: LoggedStep(log + [e], n) ==
                        if e.StepEvents? && n in e.names then e.stepState else LoggedStep(log, n)
    ensures forall t :: LoggedTask(log + [e], t) ==
                        if e.TaskEvent? && e.task == t then e.taskState else LoggedTask(log, t)
    ensures forall n :: Revivals(log + [e], n) == Revivals(log, n) +
                        (if e.StepEvents? && e.stepState == StepDefined && n in e.names then 1 else 0)
  {
    assert (log + [e])[..|log|] == log;
  }

  lemma {:induction false} CompleteWasLogged(log: seq<Event>, n: Name)
    requires LoggedStep(log, n) == StepComplete
    ensures LoggedComplete(log, |log|, n)
  {
    var k := |log| - 1;
    if CompletesAt(log[k], n) {
    } else {
      CompleteWasLogged(log[..k], n);
      var j :| 0 <= j < k && CompletesAt(log[..k][j], n);
      assert CompletesAt(log[j], n);
    }
  }

  lemma OrderSurvives(steps: map<Name, Step>, log: seq<Event>, e: Event)
    requires CompletionsOrdered(steps, log)
    requires forall n, p :: CompletesAt(e, n) && n in steps && p in steps[n].parents ==> LoggedComplete(log, |log|, p)
    ensures CompletionsOrdered(steps, log + [e])
  {
    var more := log + [e];
    forall i, n, p | 0 <= i < |more| && CompletesAt(more[i], n) && n in steps && p in steps[n].parents
      ensures LoggedComplete(more, i, p)
    {
      if i < |log| {
        assert more[i] == log[i];
        assert LoggedComplete(log, i, p);
        var j :| 0 <= j < i && CompletesAt(log[j], p);
        assert CompletesAt(more[j], p);
      } else {
        assert LoggedComplete(log, |log|, p);
        var j :| 0 <= j < |log| && CompletesAt(log[j], p);
        assert CompletesAt(more[j], p);
      }
    }
  }

  lemma SameParentsOrder(a: map<Name, Step>, b: map<Name, Step>, log: seq<Event>)
    requires CompletionsOrdered(a, log) && a.Keys == b.Keys
    requires forall n :: n in a ==> a[n].parents == b[n].parents
    ensures CompletionsOrdered(b, log)
  {
  }

  lemma MoveWfLogs(rows: Rows, state: WorkflowState)
    requires LogInv(rows)
    ensures LogInv(MoveWf(rows, state))
  {
    Unfold(rows.log, WfEvent(state));
    OrderSurvives(rows.steps, rows.log, WfEvent(state));
  }

  lemma MoveStepsLogs(rows: Rows, names: set<Name>, state: StepState)
    requires LogInv(rows) && names <= rows.steps.Keys
    requires state == StepComplete ==> forall n :: n in names ==> ParentsComplete(rows.steps, n)
    ensures LogInv(MoveSteps(rows, names, state))
  {
    if names != {} {
      var e := StepEvents(names, state);
      Unfold(rows.log, e);
      forall n, p | CompletesAt(e, n) && n in rows.steps && p in rows.steps[n].parents
        ensures LoggedComplete(rows.log, |rows.log|, p)
      {
        assert ParentsComplete(rows.steps, n);
        CompleteWasLogged(rows.log, p);
      }
      OrderSurvives(rows.steps, rows.log, e);
      SameParentsOrder(rows.steps, MoveSteps(rows, names, state).steps, rows.log + [e]);
    }
  }

  lemma MoveDeadlineLogs(rows: Rows, deadline: Time)
    requires LogInv(rows)
    ensures LogInv(MoveDeadline(rows, deadline))
  {
    Unfold(rows.log, DeadlineEvent);
    OrderSurvives(rows.steps, rows.log, DeadlineEvent);
    SameParentsOrder(rows.steps, MoveDeadline(rows, deadline).steps, rows.log + [DeadlineEvent]);
  }

  /** A new task is unknown to the log, so the log gives it its birth state. */
  lemma {:induction false} UnknownTask(log: seq<Event>, t: TaskId)
    requires forall i :: 0 <= i < |log| && log[i].TaskEvent? ==> log[i].task != t
    ensures LoggedTask(log, t) == TaskPending
  {
    if log == [] {
    } else {
      UnknownTask(log[..|log| - 1], t);
    }
  }

  lemma NewTaskLogs(rows: Rows, task: Task)
    requires LogInv(rows) && task.state == TaskPending
    ensures LogInv(rows.(tasks := rows.tasks + [task]))
  {
    forall i | 0 <= i < |rows.log| ensures EventTrue(rows.log[i], rows.tasks + [task]) {
      assert EventTrue(rows.log[i], rows.tasks);
    }
    UnknownTask(rows.log, |rows.tasks|);
  }

  lemma SettleLogs(rows: Rows)
    requires LogInv(rows)
    ensures LogInv(Settle(rows))
  {
    if Settles(rows) { MoveWfLogs(rows, if rows.wf.state == WfRunning then WfComplete else WfCancelled); }
  }

  lemma ProcessLogs(rows: Rows)
    requires LogInv(rows)
    ensures LogInv(Process(rows).rows)
  {
    MoveWfLogs(rows, WfRunning);
    MoveStepsLogs(Started(rows), Ready(rows.steps), StepPending);
  }

  lemma TimeOutLogs(rows: Rows)
    requires LogInv(rows)
    ensures LogInv(TimeOut(rows).rows)
  {
    var open := WithState(rows.steps, {StepDefined, StepPending, StepRunning});
    MoveStepsLogs(rows, open, StepTimedOut);
    MoveWfLogs(MoveSteps(rows, open, StepTimedOut), WfTimedOut);
  }

  lemma DispatchLogs(rows: Rows, n: Name, now: Time)
    requires LogInv(rows) && n in rows.steps
    ensures LogInv(Dispatch(rows, n, now))
  {
    var more := rows.(tasks := rows.tasks + [StepTask(rows.steps[n], now)]);
    NewTaskLogs(rows, StepTask(rows.steps[n], now));
    var linked := more.(steps := rows.steps[n := rows.steps[n].(attempts := rows.steps[n].attempts + [|rows.tasks|])]);
    SameParentsOrder(more.steps, linked.steps, more.log);
    MoveStepsLogs(linked, {n}, StepRunning);
  }

  lemma ScheduleLogs(rows: Rows, n: Name, now: Time)
    requires LogInv(rows)
    ensures LogInv(WorkflowSpec.Schedule(rows, n, now).rows)
  {
    TimeOutLogs(rows);
    if n in rows.steps { DispatchLogs(rows, n, now); }
  }

  lemma ApplyOutcomeLogs(rows: Rows, n: Name, outcome: StepState)
    requires LogInv(rows) && StepsInv(rows)
    ensures LogInv(ApplyOutcome(rows, n, outcome).rows)
  {
    OutcomeShapes(rows, n, outcome);
    var r := ApplyOutcome(rows, n, outcome).rows;
    if r == Settle(rows) {
      SettleLogs(rows);
    } else if r == TimeOut(rows).rows {
      TimeOutLogs(rows);
    } else if r != rows {
      ShapeLogs(rows, n, outcome, r);
    }
  }

  lemma ShapeLogs(rows: Rows, n: Name, outcome: StepState, r: Rows)
    requires LogInv(rows) && StepsInv(rows) && n in rows.steps && OutcomeShape(rows, n, outcome, r)
    ensures LogInv(r)
  {
    OutcomeLogs(rows, n, StepCancelled);
    if outcome in NextStepStates(rows.steps[n].state) { OutcomeLogs(rows, n, outcome); }
  }

  lemma OutcomeLogs(rows: Rows, n: Name, outcome: StepState)
    requires LogInv(rows) && StepsInv(rows) && n in rows.steps
    requires outcome == StepComplete ==> Begun(rows.steps[n].state)
    ensures var moved := MoveSteps(rows, {n}, outcome);
            LogInv(moved) && LogInv(Settle(moved)) && LogInv(MoveWf(moved, WfFailed))
  {
    var moved := MoveSteps(rows, {n}, outcome);
    assert outcome == StepComplete ==> ParentsComplete(rows.steps, n);
    MoveStepsLogs(rows, {n}, outcome);
    SettleLogs(moved);
    MoveWfLogs(moved, WfFailed);
  }

  lemma CancelLogs(rows: Rows)
    requires LogInv(rows)
    ensures LogInv(Cancel(rows).rows)
  {
    var a := MoveWf(rows, WfCancelling);
    var dropped := WithState(rows.steps, DROPPED);
    MoveWfLogs(rows, WfCancelling);
    MoveStepsLogs(a, WithState(rows.steps, {StepRunning}), StepCancelling);
    MoveStepsLogs(Drained(rows), dropped, StepCancelled);
    SettleLogs(MoveSteps(Drained(rows), dropped, StepCancelled));
  }

  lemma ReviveLogs(rows: Rows, newDeadline: Option<Time>, now: Time)
    requires LogInv(rows)
    ensures LogInv(Revive(rows, newDeadline, now).rows)
  {
    MoveWfLogs(rows, WfRunning);
    MoveStepsLogs(MoveWf(rows, WfRunning), WithState(rows.steps, {StepFailed, StepTimedOut}), StepDefined);
    if newDeadline.Some? { MoveDeadlineLogs(Revived(rows), newDeadline.value); }
  }

  lemma HandleLogs(rows: Rows, m: Msg, now: Time)
    requires LogInv(rows) && StepsInv(rows) && ForWorkflow(m)
    ensures LogInv(Handle(rows, m, now).rows)
  {
    match m
    case ProcessWorkflow => ProcessLogs(rows);
    case ScheduleStep(n) => ScheduleLogs(rows, n, now);
    case ExecUpdate(n, outcome) => ApplyOutcomeLogs(rows, n, outcome);
    case TaskUpdate(t, outcome) =>
      if StepOfTask(rows.steps, t).Some? { ApplyOutcomeLogs(rows, StepOfTask(rows.steps, t).value, outcome); }
    case CancelWorkflow => CancelLogs(rows);
    case ReviveWorkflow(newDeadline) => ReviveLogs(rows, newDeadline, now);
  }

  lemma ReconcileLogs(rows: Rows, now: Time)
    requires LogInv(rows)
    ensures LogInv(Reconcile(rows, now).rows)
  {
    TimeOutLogs(rows);
    SettleLogs(rows);
  }

  // ---- the task engine's writes --------------------------------------------------------------

  /** The events a task write records tell the state it leaves. */
  predicate Narrated(t: TaskId, before: TaskState, after: TaskState, events: seq<Event>) {
    || (events == [] && after == before)
    || (events == [TaskEvent(t, after)] && !TerminalTask(before))
    || (events == [TaskEvent(t, TaskFailed), EngineFailure(t)] && after == TaskFailed && !TerminalTask(before))
  }

  /** The log of `b` adds nothing to that of `a` that concerns the workflow or its steps. */
  ghost predicate SameWorkflowStory(a: Rows, b: Rows) {
    && a.log <= b.log
    && LoggedWf(b.log) == LoggedWf(a.log)
    && (forall n :: LoggedStep(b.log, n) == LoggedStep(a.log, n))
    && (forall n :: Revivals(b.log, n) == Revivals(a.log, n))
  }

  lemma PutTaskLogs(rows: Rows, t: TaskId, task: Task, events: seq<Event>)
    requires t < |rows.tasks| && Narrated(t, rows.tasks[t].state, task.state, events)
    ensures SameWorkflowStory(rows, PutTask(rows, t, task, events))
    ensures LogInv(rows) ==> LogInv(PutTask(rows, t, task, events))
  {
    var e := TaskEvent(t, task.state);
    var b := PutTask(rows, t, task, events);
    Unfold(rows.log, e);
    Unfold(rows.log + [e], EngineFailure(t));
    if events != [] { assert events[0] == e; }
    if |events| == 2 { assert b.log == rows.log + [e] + [EngineFailure(t)]; }
    if events == [] { assert b.log == rows.log; }
    if LogInv(rows) {
      OrderSurvives(rows.steps, rows.log, e);
      OrderSurvives(rows.steps, rows.log + [e], EngineFailure(t));
      EventsStayTrue(rows, t, task, events);
    }
  }

  lemma EventsStayTrue(rows: Rows, t: TaskId, task: Task, events: seq<Event>)
    requires t < |rows.tasks| && Narrated(t, rows.tasks[t].state, task.state, events) && EventsTrue(rows)
    ensures EventsTrue(PutTask(rows, t, task, events))
  {
    var b := PutTask(rows, t, task, events);
    forall i | 0 <= i < |b.log| ensures EventTrue(b.log[i], b.tasks) {
      if i < |rows.log| { assert EventTrue(rows.log[i], rows.tasks); }
    }
  }

  /** The completions of a whole chain of ancestors are in the log before the step's own. */
  lemma {:induction false} AncestorsCompleteFirst(rows: Rows, walk: seq<Name>, i: nat, k: nat)
    requires LogInv(rows) && IsWalk(GraphOf(rows.steps), walk)
    requires i < |rows.log| && CompletesAt(rows.log[i], walk[0]) && 0 < k < |walk|
    ensures LoggedComplete(rows.log, i, walk[k])
    decreases k
  {
    var g := GraphOf(rows.steps);
    assert walk[(k - 1) + 1] in g[walk[k - 1]];
    if k == 1 {
    } else {
      AncestorsCompleteFirst(rows, walk, i, k - 1);
      var j :| 0 <= j < i && CompletesAt(rows.log[j], walk[k - 1]);
      assert LoggedComplete(rows.log, j, walk[k]);
    }
  }
}
