/** What the transactions of the workflow scheduler do, told by states, links, times and messages alone:
    for each message and for the sweep, when it does something, which rows it writes and which not, and
    exactly which messages it sends. */
module WorkflowEffects {
  import opened Prelude
  import opened Tables
  import opened StepGraph
  import opened Rows
  import opened WorkflowSpec
  import opened WorkflowInvariants
  import opened TaskSpec
  import opened TaskInvariants
  import opened AuditInvariants
  import opened LinkInvariants
  import opened System
  import opened SystemInvariants
  import opened Guarantees
  import opened Draining

  // ---- the words -----------------------------------------------------------------------------

  /** A transaction of the workflow scheduler: the handling of one message, or a sweep. */
  ghost predicate Transaction(rows: Rows, e: Effect, now: Time) {
    e == Reconcile(rows, now) || exists m :: ForWorkflow(m) && e == Handle(rows, m, now)
  }

  /** Nothing written, nothing sent. */
  predicate Nothing(rows: Rows, e: Effect) {
    e.rows == rows && e.sends == {}
  }

  /** A task at work on a step in state `state`. */
  predicate AtWork(rows: Rows, state: StepState, t: TaskId) {
    t < |rows.tasks| && rows.tasks[t].state in {TaskPending, TaskActive} && LinkedIn(rows, state, t)
  }

  predicate LinkedIn(rows: Rows, state: StepState, t: TaskId) {
    exists n :: n in rows.steps && rows.steps[n].state == state && t in rows.steps[n].attempts
  }

  /** No task of the step is left to wait for. */
  predicate NobodyAtWork(rows: Rows, n: Name)
    requires n in rows.steps
  {
    forall t :: t in rows.steps[n].attempts && t < |rows.tasks| ==>
                  rows.tasks[t].state in {TaskComplete, TaskFailed, TaskCancelled, TaskTimedOut}
  }

  /** The steps in certain states go to another; nothing else about any step changes. */
  predicate StepsGo(a: Rows, b: Rows, from: set<StepState>, to: StepState) {
    && b.steps.Keys == a.steps.Keys
    && forall n :: n in a.steps ==>
                     b.steps[n] == if a.steps[n].state in from then a.steps[n].(state := to) else a.steps[n]
  }

  /** One step goes to another state; nothing else about any step changes. */
  predicate OneStepGoes(a: Rows, b: Rows, n: Name, to: StepState) {
    n in a.steps && b.steps == a.steps[n := a.steps[n].(state := to)]
  }

  /** The workflow row changes its state only, and no task changes. */
  predicate WorkflowGoes(a: Rows, b: Rows, to: WorkflowState) {
    b.wf == a.wf.(state := to) && b.tasks == a.tasks
  }

  /** `m` tells that step `n` had this outcome: directly, or as the outcome of a task linked to it. */
  predicate Tells(rows: Rows, m: Msg, n: Name, outcome: StepState) {
    && n in rows.steps
    && (m == ExecUpdate(n, outcome) || (m.TaskUpdate? && m.outcome == outcome && m.task in rows.steps[n].attempts))
  }

  lemma LinkedTasksExist(rows: Rows, n: Name, t: TaskId)
    requires RowsInv(rows) && n in rows.steps && t in rows.steps[n].attempts
    ensures t < |rows.tasks| && rows.tasks[t].state != TaskCancelling
    ensures LiveTask(TaskStateAt(rows.tasks, t)) <==> !TerminalTask(TaskStateAt(rows.tasks, t))
  {
    assert StepLinks(rows, n);
    assert TaskInv(rows.tasks[t]);
  }

  lemma NoLiveAttempts(rows: Rows, n: Name)
    requires RowsInv(rows) && n in rows.steps
    ensures LiveAttempts(rows, n) == {} <==> NobodyAtWork(rows, n)
  {
    forall t | t in rows.steps[n].attempts
      ensures t < |rows.tasks|
      ensures t in LiveAttempts(rows, n) <==> rows.tasks[t].state !in {TaskComplete, TaskFailed, TaskCancelled, TaskTimedOut}
    {
      LinkedTasksExist(rows, n, t);
    }
    if LiveAttempts(rows, n) != {} {
      var t :| t in LiveAttempts(rows, n);
      assert t in rows.steps[n].attempts;
    }
  }

  lemma RequestsForRunning(rows: Rows)
    requires RowsInv(rows)
    ensures forall m :: m in CancelRunning(rows) <==> m.CancelTask? && AtWork(rows, StepRunning, m.task)
  {
    forall m | m in CancelRunning(rows) ensures m.CancelTask? && AtWork(rows, StepRunning, m.task) {
      var n :| n in rows.steps && rows.steps[n].state == StepRunning && m.task in LiveAttempts(rows, n);
      LinkedTasksExist(rows, n, m.task);
    }
    forall m: Msg | m.CancelTask? && AtWork(rows, StepRunning, m.task) ensures m in CancelRunning(rows) {
      var n :| n in rows.steps && rows.steps[n].state == StepRunning && m.task in rows.steps[n].attempts;
      assert m.task in LiveAttempts(rows, n);
    }
  }

  // ---- the whole-workflow timeout ------------------------------------------------------------

  lemma OnlyTimeOutTimesOut(rows: Rows, e: Effect, now: Time)
    requires Transaction(rows, e, now) && rows.wf.state == WfRunning && e.rows.wf.state == WfTimedOut
    ensures e == TimeOut(rows)
  {
    if e != Reconcile(rows, now) {
      var m :| ForWorkflow(m) && e == Handle(rows, m, now);
      HandledTimeOut(rows, m, now);
    }
  }

  lemma HandledTimeOut(rows: Rows, m: Msg, now: Time)
    requires ForWorkflow(m) && rows.wf.state == WfRunning && Handle(rows, m, now).rows.wf.state == WfTimedOut
    ensures Handle(rows, m, now) == TimeOut(rows)
  {
    match m
    case ScheduleStep(n) =>
    case ExecUpdate(n, outcome) => OutcomeTimesOut(rows, n, outcome);
    case TaskUpdate(t, outcome) =>
      if StepOfTask(rows.steps, t).Some? { OutcomeTimesOut(rows, StepOfTask(rows.steps, t).value, outcome); }
    case _ =>
  }

  lemma OutcomeTimesOut(rows: Rows, n: Name, outcome: StepState)
    requires rows.wf.state == WfRunning
    ensures ApplyOutcome(rows, n, outcome).rows.wf.state == WfTimedOut <==>
            n in rows.steps && outcome == StepTimedOut && !SettledStep(rows.steps[n].state)
    ensures ApplyOutcome(rows, n, outcome).rows.wf.state == WfTimedOut ==> ApplyOutcome(rows, n, outcome) == TimeOut(rows)
  {
    if n in rows.steps && !SettledStep(rows.steps[n].state) {
      if outcome == StepTimedOut {
        assert ApplyOutcome(rows, n, outcome) == TimeOut(rows);
        assert TimeOut(rows).rows.wf.state == WfTimedOut;
      } else {
        assert MoveSteps(rows, {n}, outcome).wf.state == WfRunning;
      }
    }
  }

  /** Whenever a message or a sweep takes the workflow from RUNNING to TIMED_OUT, it times out exactly the
      steps that are not settled and asks to cancel exactly the tasks at work on RUNNING steps. */
  lemma TimeOutEffect(rows: Rows, e: Effect, now: Time)
    requires RowsInv(rows) && Transaction(rows, e, now)
    requires rows.wf.state == WfRunning && e.rows.wf.state == WfTimedOut
    ensures forall m :: m in e.sends <==> m.CancelTask? && AtWork(rows, StepRunning, m.task)
    ensures StepsGo(rows, e.rows, {StepDefined, StepPending, StepRunning}, StepTimedOut)
    ensures e.ok && WorkflowGoes(rows, e.rows, WfTimedOut)
  {
    OnlyTimeOutTimesOut(rows, e, now);
    RequestsForRunning(rows);
    GroupMove(rows, {StepDefined, StepPending, StepRunning}, StepTimedOut);
  }

  lemma GroupMove(rows: Rows, from: set<StepState>, to: StepState)
    requires to != StepDefined
    ensures StepsGo(rows, MoveSteps(rows, WithState(rows.steps, from), to), from, to)
  {
    assert forall n :: n in rows.steps ==> (n in WithState(rows.steps, from) <==> rows.steps[n].state in from);
  }

  /** Exactly when a message times out a RUNNING workflow: a schedule poke for a PENDING step nobody is at
      work on, after the deadline; or the outcome TIMED_OUT of a step that is not settled. */
  lemma TimesOutExactlyWhen(rows: Rows, m: Msg, now: Time)
    requires RowsInv(rows) && ForWorkflow(m) && rows.wf.state == WfRunning
    ensures Handle(rows, m, now).rows.wf.state == WfTimedOut <==> LatePoke(rows, m, now) || TimeOutTold(rows, m)
  {
    if m.ScheduleStep? {
      PokeTimesOut(rows, m.step, now);
    } else if m.ExecUpdate? {
      ToldTimesOut(rows, m, m.step, m.outcome, now);
    } else if m.TaskUpdate? && StepOfTask(rows.steps, m.task).Some? {
      ToldTimesOut(rows, m, StepOfTask(rows.steps, m.task).value, m.outcome, now);
    } else {
      NobodyTimesOut(rows, m, now);
    }
  }

  lemma PokeTimesOut(rows: Rows, n: Name, now: Time)
    requires RowsInv(rows) && rows.wf.state == WfRunning
    ensures WorkflowSpec.Schedule(rows, n, now).rows.wf.state == WfTimedOut <==> LatePoke(rows, ScheduleStep(n), now)
  {
    if n in rows.steps { NoLiveAttempts(rows, n); }
  }

  lemma ToldTimesOut(rows: Rows, m: Msg, n: Name, outcome: StepState, now: Time)
    requires Agrees(rows) && OneStepPerTask(rows.steps) && rows.wf.state == WfRunning
    requires m == ExecUpdate(n, outcome) || (m.TaskUpdate? && Tells(rows, m, n, outcome))
    requires Handle(rows, m, now) == ApplyOutcome(rows, n, outcome)
    ensures Handle(rows, m, now).rows.wf.state == WfTimedOut <==> LatePoke(rows, m, now) || TimeOutTold(rows, m)
  {
    OutcomeTimesOut(rows, n, outcome);
    ToldOnce(rows, m, n, outcome);
  }

  lemma NobodyTimesOut(rows: Rows, m: Msg, now: Time)
    requires ForWorkflow(m) && !m.ScheduleStep? && !m.ExecUpdate? && rows.wf.state == WfRunning
    requires m.TaskUpdate? ==> StepOfTask(rows.steps, m.task) == None
    ensures Handle(rows, m, now).rows.wf.state != WfTimedOut && !LatePoke(rows, m, now) && !TimeOutTold(rows, m)
  {
  }

  predicate LatePoke(rows: Rows, m: Msg, now: Time) {
    && m.ScheduleStep? && m.step in rows.steps && rows.steps[m.step].state == StepPending
    && NobodyAtWork(rows, m.step) && now > rows.wf.deadline
  }

  predicate TimeOutTold(rows: Rows, m: Msg) {
    exists n :: n in rows.steps && Tells(rows, m, n, StepTimedOut) && rows.steps[n].state in {StepDefined, StepPending, StepRunning}
  }

  lemma ToldOnce(rows: Rows, m: Msg, n: Name, outcome: StepState)
    requires Agrees(rows) && OneStepPerTask(rows.steps) && rows.wf.state == WfRunning
    requires m == ExecUpdate(n, outcome) || Tells(rows, m, n, outcome)
    ensures TimeOutTold(rows, m) <==>
            n in rows.steps && outcome == StepTimedOut && !SettledStep(rows.steps[n].state)
  {
    if n in rows.steps && outcome == StepTimedOut {
      assert rows.steps[n].state != StepCancelling;
      assert Tells(rows, m, n, StepTimedOut);
    }
  }

  // ---- the fan-out ---------------------------------------------------------------------------

  /** DEFINED, and everything it depends on is COMPLETE. */
  predicate MayStart(rows: Rows, n: Name) {
    && n in rows.steps && rows.steps[n].state == StepDefined
    && forall p :: p in rows.steps[n].parents ==> p in rows.steps && rows.steps[p].state == StepComplete
  }

  /** The fan-out: a PENDING workflow becomes RUNNING, exactly the steps that may start become PENDING, and
      exactly these are poked; nothing in a workflow that has ended, is ending or is timed out. */
  lemma ProcessEffect(rows: Rows, now: Time)
    requires RowsInv(rows)
    ensures var e := Handle(rows, ProcessWorkflow, now);
            if rows.wf.state !in {WfPending, WfRunning, WfFailed} then Nothing(rows, e) else
            && WorkflowGoes(rows, e.rows, if rows.wf.state == WfPending then WfRunning else rows.wf.state)
            && e.rows.steps.Keys == rows.steps.Keys
            && (forall n :: n in rows.steps ==>
                  e.rows.steps[n] == if MayStart(rows, n) then rows.steps[n].(state := StepPending) else rows.steps[n])
            && forall m :: m in e.sends <==> m.ScheduleStep? && MayStart(rows, m.step)
  {
    ReadyMayStart(rows);
    if rows.wf.state in {WfPending, WfRunning, WfFailed} {
      assert Handle(rows, ProcessWorkflow, now) == Process(rows);
      FanOut(rows, Ready(rows.steps));
    }
  }

  lemma ReadyMayStart(rows: Rows)
    requires KnownParents(GraphOf(rows.steps))
    ensures forall n :: n in Ready(rows.steps) <==> MayStart(rows, n)
  {
    assert forall n :: n in rows.steps ==> GraphOf(rows.steps)[n] == rows.steps[n].parents;
  }

  lemma FanOut(rows: Rows, ready: set<Name>)
    requires forall n :: n in ready <==> MayStart(rows, n)
    ensures var b := MoveSteps(Started(rows), ready, StepPending);
            && WorkflowGoes(rows, b, if rows.wf.state == WfPending then WfRunning else rows.wf.state)
            && b.steps.Keys == rows.steps.Keys
            && forall n :: n in rows.steps ==>
                 b.steps[n] == if MayStart(rows, n) then rows.steps[n].(state := StepPending) else rows.steps[n]
  {
  }

  // ---- dispatch ------------------------------------------------------------------------------

  /** A schedule poke that dispatches. */
  predicate Dispatches(rows: Rows, n: Name, now: Time) {
    && n in rows.steps && rows.steps[n].state == StepPending && NobodyAtWork(rows, n)
    && rows.wf.state in {WfRunning, WfFailed} && now <= rows.wf.deadline
  }

  /** A schedule poke dispatches exactly a PENDING step nobody is at work on, in time; it defines one task
      with the step's deadline and retry policy, links it and asks for it to be run. Past the deadline a
      RUNNING workflow is timed out instead. Otherwise nothing happens. */
  lemma ScheduleEffect(rows: Rows, n: Name, now: Time)
    requires RowsInv(rows)
    ensures var e := Handle(rows, ScheduleStep(n), now);
            if Dispatches(rows, n, now) then
              var t, step := |rows.tasks|, rows.steps[n];
              && e.rows.wf == rows.wf && e.sends == {NewTask(t)}
              && e.rows.tasks == rows.tasks + [Task(WORKFLOW_TASK, TaskPending, Immediate, Some(rows.wf.deadline), step.retry, now, [])]
              && e.rows.steps == rows.steps[n := step.(state := StepRunning, attempts := step.attempts + [t])]
            else if rows.wf.state == WfRunning && LatePoke(rows, ScheduleStep(n), now) then e.rows.wf.state == WfTimedOut
            else Nothing(rows, e)
  {
    if n in rows.steps {
      NoLiveAttempts(rows, n);
      if Dispatches(rows, n, now) {
        assert Handle(rows, ScheduleStep(n), now) == Effect(true, Dispatch(rows, n, now), {NewTask(|rows.tasks|)});
        DispatchEffect(rows, n, now);
      } else if rows.steps[n].state == StepPending {
        PendingStepHasBegun(rows, n);
      }
    }
  }

  lemma DispatchEffect(rows: Rows, n: Name, now: Time)
    requires n in rows.steps
    ensures var b, t, step := Dispatch(rows, n, now), |rows.tasks|, rows.steps[n];
            && b.wf == rows.wf
            && b.tasks == rows.tasks + [Task(WORKFLOW_TASK, TaskPending, Immediate, Some(step.deadline), step.retry, now, [])]
            && b.steps == rows.steps[n := step.(state := StepRunning, attempts := step.attempts + [t])]
  {
    var linked := rows.steps[n].(attempts := rows.steps[n].attempts + [|rows.tasks|]);
    assert Dispatch(rows, n, now).steps == rows.steps[n := linked.(state := StepRunning)];
  }

  lemma PendingStepHasBegun(rows: Rows, n: Name)
    requires Agrees(rows) && n in rows.steps && rows.steps[n].state == StepPending
    ensures rows.wf.state in {WfRunning, WfFailed}
  {
  }

  /** A task is defined by such a poke only, and asked for exactly when it is defined. */
  lemma TasksComeFromDispatch(rows: Rows, m: Msg, now: Time)
    requires RowsInv(rows) && ForWorkflow(m)
    ensures var e := Handle(rows, m, now);
            && (e.rows.tasks != rows.tasks <==> m.ScheduleStep? && Dispatches(rows, m.step, now))
            && forall t :: NewTask(t) in e.sends <==> t == |rows.tasks| && e.rows.tasks != rows.tasks
  {
    if m.ScheduleStep? {
      ScheduleEffect(rows, m.step, now);
      if Handle(rows, m, now).rows.wf.state == WfTimedOut && rows.wf.state == WfRunning {
        TimeOutEffect(rows, Handle(rows, m, now), now);
      }
    } else {
      OthersDefineNoTask(rows, m, now);
    }
  }

  lemma OthersDefineNoTask(rows: Rows, m: Msg, now: Time)
    requires ForWorkflow(m) && !m.ScheduleStep?
    ensures Handle(rows, m, now).rows.tasks == rows.tasks
    ensures forall t :: NewTask(t) !in Handle(rows, m, now).sends
  {
  }

  // ---- outcomes ------------------------------------------------------------------------------

  lemma ToldIsApplied(rows: Rows, m: Msg, n: Name, outcome: StepState, now: Time)
    requires LinkInv(rows) && Tells(rows, m, n, outcome)
    ensures Handle(rows, m, now) == ApplyOutcome(rows, n, outcome)
  {
    if m.TaskUpdate? { LinkResolves(rows, n, m.task); }
  }

  lemma OneMove(rows: Rows, n: Name, to: StepState)
    requires n in rows.steps && to != StepDefined
    ensures OneStepGoes(rows, MoveSteps(rows, {n}, to), n, to)
  {
    assert MoveSteps(rows, {n}, to).steps == rows.steps[n := rows.steps[n].(state := to)];
  }

  /** All other steps are in one of these states. */
  predicate OthersIn(rows: Rows, n: Name, states: set<StepState>) {
    forall k :: k in rows.steps && k != n ==> rows.steps[k].state in states
  }

  /** A success: the step is COMPLETE. With the last one the workflow is COMPLETE too and nothing is sent;
      before, the workflow stays as it is and is poked to fan out. */
  lemma SuccessEffect(rows: Rows, m: Msg, n: Name, now: Time)
    requires RowsInv(rows) && Tells(rows, m, n, StepComplete)
    requires rows.wf.state in {WfRunning, WfFailed} && rows.steps[n].state == StepRunning
    ensures var e, last := Handle(rows, m, now), OthersIn(rows, n, {StepComplete});
            && e.ok && OneStepGoes(rows, e.rows, n, StepComplete)
            && WorkflowGoes(rows, e.rows, if last then WfComplete else rows.wf.state)
            && e.sends == if last then {} else {ProcessWorkflow}
  {
    ToldIsApplied(rows, m, n, StepComplete, now);
    SuccessWrites(rows, n);
  }

  lemma SuccessWrites(rows: Rows, n: Name)
    requires Agrees(rows) && n in rows.steps && rows.steps[n].state == StepRunning && rows.wf.state in {WfRunning, WfFailed}
    ensures var e, last := ApplyOutcome(rows, n, StepComplete), OthersIn(rows, n, {StepComplete});
            && e.ok && OneStepGoes(rows, e.rows, n, StepComplete)
            && WorkflowGoes(rows, e.rows, if last then WfComplete else rows.wf.state)
            && e.sends == if last then {} else {ProcessWorkflow}
  {
    OneMove(rows, n, StepComplete);
    LastOne(rows, n);
  }

  lemma LastOne(rows: Rows, n: Name)
    requires Agrees(rows) && n in rows.steps && rows.steps[n].state == StepRunning && rows.wf.state in {WfRunning, WfFailed}
    ensures Settles(MoveSteps(rows, {n}, StepComplete)) <==> OthersIn(rows, n, {StepComplete})
    ensures OthersIn(rows, n, {StepComplete}) ==> rows.wf.state == WfRunning
  {
    var moved := MoveSteps(rows, {n}, StepComplete);
    OneMove(rows, n, StepComplete);
    if AllComplete(moved.steps) {
      forall k | k in rows.steps && k != n ensures rows.steps[k].state == StepComplete { assert moved.steps[k] == rows.steps[k]; }
    }
  }

  /** A failure: the step and the workflow are FAILED, and nothing is sent. */
  lemma FailureEffect(rows: Rows, m: Msg, n: Name, now: Time)
    requires RowsInv(rows) && Tells(rows, m, n, StepFailed)
    requires rows.wf.state in {WfRunning, WfFailed} && rows.steps[n].state == StepRunning
    ensures var e := Handle(rows, m, now);
            e.ok && OneStepGoes(rows, e.rows, n, StepFailed) && WorkflowGoes(rows, e.rows, WfFailed) && e.sends == {}
  {
    ToldIsApplied(rows, m, n, StepFailed, now);
    OneMove(rows, n, StepFailed);
  }

  /** Under a cancellation any outcome settles a draining step as CANCELLED; with the last one the workflow is
      CANCELLED. */
  lemma DrainedEffect(rows: Rows, m: Msg, n: Name, outcome: StepState, now: Time)
    requires RowsInv(rows) && Tells(rows, m, n, outcome) && rows.steps[n].state == StepCancelling
    requires outcome in {StepComplete, StepFailed, StepTimedOut, StepCancelled}
    ensures var e, last := Handle(rows, m, now), OthersIn(rows, n, {StepComplete, StepCancelled});
            && e.ok && OneStepGoes(rows, e.rows, n, StepCancelled) && e.sends == {}
            && WorkflowGoes(rows, e.rows, if last then WfCancelled else WfCancelling)
  {
    ToldIsApplied(rows, m, n, outcome, now);
    DrainedWrites(rows, n, outcome);
  }

  lemma DrainedWrites(rows: Rows, n: Name, outcome: StepState)
    requires Agrees(rows) && n in rows.steps && rows.steps[n].state == StepCancelling
    requires outcome in {StepComplete, StepFailed, StepTimedOut, StepCancelled}
    ensures var e, last := ApplyOutcome(rows, n, outcome), OthersIn(rows, n, {StepComplete, StepCancelled});
            && e.ok && OneStepGoes(rows, e.rows, n, StepCancelled) && e.sends == {}
            && WorkflowGoes(rows, e.rows, if last then WfCancelled else WfCancelling)
  {
    OneMove(rows, n, StepCancelled);
    LastDrained(rows, n);
    assert ApplyOutcome(rows, n, outcome) == Effect(true, Settle(MoveSteps(rows, {n}, StepCancelled)), {});
  }

  lemma LastDrained(rows: Rows, n: Name)
    requires Agrees(rows) && n in rows.steps && rows.steps[n].state == StepCancelling
    ensures rows.wf.state == WfCancelling
    ensures Settles(MoveSteps(rows, {n}, StepCancelled)) <==> OthersIn(rows, n, {StepComplete, StepCancelled})
  {
    var moved := MoveSteps(rows, {n}, StepCancelled);
    OneMove(rows, n, StepCancelled);
    if AllSettled(moved.steps) {
      forall k | k in rows.steps && k != n ensures rows.steps[k].state in {StepComplete, StepCancelled} {
        assert moved.steps[k] == rows.steps[k];
      }
    }
  }

  /** A step that has not begun can be CANCELLED by an outcome. */
  lemma CancelledEffect(rows: Rows, m: Msg, n: Name, now: Time)
    requires RowsInv(rows) && Tells(rows, m, n, StepCancelled) && rows.wf.state in {WfRunning, WfFailed}
    requires rows.steps[n].state in {StepDefined, StepPending}
    ensures var e := Handle(rows, m, now);
            && e.ok && OneStepGoes(rows, e.rows, n, StepCancelled) && WorkflowGoes(rows, e.rows, rows.wf.state)
            && e.sends == {}
  {
    ToldIsApplied(rows, m, n, StepCancelled, now);
    OneMove(rows, n, StepCancelled);
    DroppedSettlesNothing(rows, n);
  }

  lemma DroppedSettlesNothing(rows: Rows, n: Name)
    requires n in rows.steps && rows.wf.state in {WfRunning, WfFailed} && rows.steps[n].state in {StepDefined, StepPending}
    ensures ApplyOutcome(rows, n, StepCancelled) == Effect(true, MoveSteps(rows, {n}, StepCancelled), {})
  {
    var moved := MoveSteps(rows, {n}, StepCancelled);
    assert n in moved.steps && moved.steps[n].state != StepComplete;
    assert !Settles(moved);
  }

  /** Every other outcome does nothing: of a settled step, of one that has not begun unless it is TIMED_OUT or
      CANCELLED, CANCELLED of a RUNNING step, or TIMED_OUT in a workflow that is not RUNNING. */
  lemma OutcomeWithoutEffect(rows: Rows, m: Msg, n: Name, outcome: StepState, now: Time)
    requires RowsInv(rows) && Tells(rows, m, n, outcome) && rows.wf.state != WfPending
    requires NotTaken(rows.wf.state, rows.steps[n].state, outcome)
    ensures Nothing(rows, Handle(rows, m, now))
  {
    ToldIsApplied(rows, m, n, outcome, now);
    if SettledStep(rows.steps[n].state) {
      NothingToSettle(rows);
      SettledHasNoEffect(rows, n, outcome);
    } else {
      LiveStepMeansLiveWorkflow(rows, n);
      LiveHasNoEffect(rows, n, outcome);
    }
  }

  lemma SettledHasNoEffect(rows: Rows, n: Name, outcome: StepState)
    requires n in rows.steps && SettledStep(rows.steps[n].state) && !Settles(rows)
    ensures Nothing(rows, ApplyOutcome(rows, n, outcome))
  {
  }

  /** An outcome the step does not take. */
  predicate NotTaken(wf: WorkflowState, state: StepState, outcome: StepState) {
    match state
    case StepRunning => outcome !in {StepComplete, StepFailed} && !(outcome == StepTimedOut && wf == WfRunning)
    case StepCancelling => outcome !in {StepComplete, StepFailed, StepTimedOut, StepCancelled}
    case StepDefined => outcome != StepCancelled && !(outcome == StepTimedOut && wf == WfRunning)
    case StepPending => outcome != StepCancelled && !(outcome == StepTimedOut && wf == WfRunning)
    case _ => true
  }

  lemma LiveHasNoEffect(rows: Rows, n: Name, outcome: StepState)
    requires n in rows.steps && !SettledStep(rows.steps[n].state) && NotTaken(rows.wf.state, rows.steps[n].state, outcome)
    requires rows.wf.state in {WfRunning, WfFailed, WfCancelling}
    requires rows.wf.state == WfCancelling <==> rows.steps[n].state == StepCancelling
    ensures Nothing(rows, ApplyOutcome(rows, n, outcome))
  {
    if rows.wf.state == WfFailed && outcome == StepTimedOut { assert TimeOut(rows) == Abort(rows); }
  }

  /** So does an outcome of a step or a task that no step answers to. */
  lemma StrayOutcome(rows: Rows, m: Msg, now: Time)
    requires RowsInv(rows)
    requires (m.ExecUpdate? && m.step !in rows.steps) || (m.TaskUpdate? && forall n :: n in rows.steps ==> m.task !in rows.steps[n].attempts)
    ensures Nothing(rows, Handle(rows, m, now))
  {
  }

  // ---- cancellation, revival -----------------------------------------------------------------

  /** A cancellation: RUNNING steps drain, every other step that is not COMPLETE is CANCELLED, and exactly the
      tasks at work on RUNNING steps are asked to be cancelled; with nothing to drain the workflow is
      CANCELLED at once. Nothing in a workflow that is COMPLETE, CANCELLING or CANCELLED. */
  lemma CancelEffect(rows: Rows, now: Time)
    requires RowsInv(rows)
    ensures var e := Handle(rows, CancelWorkflow, now);
            if rows.wf.state in {WfComplete, WfCancelling, WfCancelled} then Nothing(rows, e) else
            && WorkflowGoes(rows, e.rows, if NoneRunning(rows) then WfCancelled else WfCancelling)
            && e.rows.steps.Keys == rows.steps.Keys
            && (forall n :: n in rows.steps ==> e.rows.steps[n] == rows.steps[n].(state := WhenCancelled(rows.steps[n].state)))
            && forall m :: m in e.sends <==> m.CancelTask? && AtWork(rows, StepRunning, m.task)
  {
    UsersAsk(rows, None, now);
    if rows.wf.state !in {WfComplete, WfCancelling, WfCancelled} {
      RequestsForRunning(rows);
      CancelWrites(rows);
    }
  }

  lemma UsersAsk(rows: Rows, newDeadline: Option<Time>, now: Time)
    ensures Handle(rows, CancelWorkflow, now) == Cancel(rows)
    ensures Handle(rows, ReviveWorkflow(newDeadline), now) == Revive(rows, newDeadline, now)
  {
  }

  lemma CancelWrites(rows: Rows)
    requires Agrees(rows) && rows.wf.state !in {WfComplete, WfCancelling, WfCancelled}
    ensures var e := Cancel(rows);
            && WorkflowGoes(rows, e.rows, if NoneRunning(rows) then WfCancelled else WfCancelling)
            && e.rows.steps.Keys == rows.steps.Keys && e.sends == CancelRunning(rows)
            && forall n :: n in rows.steps ==> e.rows.steps[n] == rows.steps[n].(state := WhenCancelled(rows.steps[n].state))
  {
    CancelledSteps(rows);
    CancelSettles(rows);
  }

  predicate NoneRunning(rows: Rows) {
    forall n :: n in rows.steps ==> rows.steps[n].state != StepRunning
  }

  function WhenCancelled(state: StepState): StepState {
    match state
    case StepRunning => StepCancelling
    case StepCancelling => StepCancelling
    case StepComplete => StepComplete
    case _ => StepCancelled
  }

  lemma CancelledSteps(rows: Rows)
    ensures var c := MoveSteps(Drained(rows), WithState(rows.steps, DROPPED), StepCancelled);
            && c.wf == rows.wf.(state := WfCancelling) && c.tasks == rows.tasks && c.steps.Keys == rows.steps.Keys
            && forall n :: n in rows.steps ==> c.steps[n] == rows.steps[n].(state := WhenCancelled(rows.steps[n].state))
  {
    DrainedSteps(rows);
    GroupMove(Drained(rows), DROPPED, StepCancelled);
    CancelledTwice(rows, Drained(rows), MoveSteps(Drained(rows), WithState(rows.steps, DROPPED), StepCancelled));
  }

  lemma DrainedSteps(rows: Rows)
    ensures StepsGo(rows, Drained(rows), {StepRunning}, StepCancelling)
    ensures WithState(Drained(rows).steps, DROPPED) == WithState(rows.steps, DROPPED)
  {
    assert forall n :: n in rows.steps ==> (n in WithState(rows.steps, {StepRunning}) <==> rows.steps[n].state == StepRunning);
  }

  lemma CancelledTwiceOver(a: Step, b: Step, c: Step)
    requires b == if a.state in {StepRunning} then a.(state := StepCancelling) else a
    requires c == if b.state in DROPPED then b.(state := StepCancelled) else b
    ensures c == a.(state := WhenCancelled(a.state))
  {
  }

  lemma CancelledTwice(a: Rows, b: Rows, c: Rows)
    requires StepsGo(a, b, {StepRunning}, StepCancelling) && StepsGo(b, c, DROPPED, StepCancelled)
    ensures c.steps.Keys == a.steps.Keys
    ensures forall n :: n in a.steps ==> c.steps[n] == a.steps[n].(state := WhenCancelled(a.steps[n].state))
  {
    forall n | n in a.steps ensures c.steps[n] == a.steps[n].(state := WhenCancelled(a.steps[n].state)) {
      CancelledTwiceOver(a.steps[n], b.steps[n], c.steps[n]);
    }
  }

  lemma CancelSettles(rows: Rows)
    requires Agrees(rows) && rows.wf.state !in {WfComplete, WfCancelling, WfCancelled}
    ensures Settles(MoveSteps(Drained(rows), WithState(rows.steps, DROPPED), StepCancelled)) <==> NoneRunning(rows)
  {
    var c := MoveSteps(Drained(rows), WithState(rows.steps, DROPPED), StepCancelled);
    CancelledSteps(rows);
    if !NoneRunning(rows) {
      var n :| n in rows.steps && rows.steps[n].state == StepRunning;
      assert c.steps[n].state == StepCancelling;
    }
    assert forall n :: n in rows.steps ==> rows.steps[n].state != StepCancelling;
  }

  /** What a user must ask for: a FAILED or TIMED_OUT workflow, a new deadline after a timeout, and a new
      deadline, if there is one, that lies after now. */
  predicate RevivalAdmitted(rows: Rows, newDeadline: Option<Time>, now: Time) {
    match newDeadline
    case None => rows.wf.state == WfFailed
    case Some(deadline) => rows.wf.state in {WfFailed, WfTimedOut} && deadline > now
  }

  /** A revival changes the rows exactly when it is admitted. Then the workflow is RUNNING under the new
      deadline, exactly the FAILED and TIMED_OUT steps are DEFINED again and marked as restarted, every step
      that can still move has the deadline, and the workflow is poked; else nothing happens. */
  lemma ReviveEffect(rows: Rows, newDeadline: Option<Time>, now: Time)
    requires RowsInv(rows)
    ensures var e := Handle(rows, ReviveWorkflow(newDeadline), now);
            && (e.rows != rows <==> RevivalAdmitted(rows, newDeadline, now))
            && if !RevivalAdmitted(rows, newDeadline, now) then Nothing(rows, e) else
            var deadline := if newDeadline == None then rows.wf.deadline else newDeadline.value;
            && e.rows.wf == Workflow(WfRunning, deadline) && e.rows.tasks == rows.tasks && e.sends == {ProcessWorkflow}
            && e.rows.steps.Keys == rows.steps.Keys
            && forall n :: n in rows.steps ==> e.rows.steps[n] == WhenRevived(rows.steps[n], deadline)
  {
    UsersAsk(rows, newDeadline, now);
    if RevivalAdmitted(rows, newDeadline, now) {
      ReviveWrites(rows, newDeadline, now);
    } else {
      NotRevived(rows, newDeadline, now);
    }
  }

  lemma NotRevived(rows: Rows, newDeadline: Option<Time>, now: Time)
    requires !RevivalAdmitted(rows, newDeadline, now)
    ensures Nothing(rows, Revive(rows, newDeadline, now))
  {
  }

  lemma ReviveWrites(rows: Rows, newDeadline: Option<Time>, now: Time)
    requires Mirrored(rows) && RevivalAdmitted(rows, newDeadline, now)
    ensures var e := Revive(rows, newDeadline, now);
            var deadline := if newDeadline == None then rows.wf.deadline else newDeadline.value;
            && e.rows.wf == Workflow(WfRunning, deadline) && rows.wf.state != WfRunning
            && e.rows.tasks == rows.tasks && e.sends == {ProcessWorkflow}
            && e.rows.steps.Keys == rows.steps.Keys
            && forall n :: n in rows.steps ==> e.rows.steps[n] == WhenRevived(rows.steps[n], deadline)
  {
    RevivedSteps(rows, newDeadline);
  }

  function WhenRevived(step: Step, deadline: Time): Step {
    match step.state
    case StepComplete => step
    case StepCancelled => step
    case StepFailed => step.(state := StepDefined, restarted := true, deadline := deadline)
    case StepTimedOut => step.(state := StepDefined, restarted := true, deadline := deadline)
    case _ => step.(deadline := deadline)
  }

  lemma RevivedSteps(rows: Rows, newDeadline: Option<Time>)
    requires Mirrored(rows)
    ensures var b := if newDeadline == None then Revived(rows) else MoveDeadline(Revived(rows), newDeadline.value);
            var deadline := if newDeadline == None then rows.wf.deadline else newDeadline.value;
            && b.steps.Keys == rows.steps.Keys
            && forall n :: n in rows.steps ==> b.steps[n] == WhenRevived(rows.steps[n], deadline)
  {
    Reverted(rows);
    if newDeadline.Some? { Redated(rows, Revived(rows), newDeadline.value); }
  }

  lemma Reverted(rows: Rows)
    requires Mirrored(rows)
    ensures Revived(rows).steps.Keys == rows.steps.Keys
    ensures forall n :: n in rows.steps ==> Revived(rows).steps[n] == WhenRevived(rows.steps[n], rows.wf.deadline)
  {
    forall n | n in rows.steps ensures Revived(rows).steps[n] == WhenRevived(rows.steps[n], rows.wf.deadline) {
      assert n in WithState(rows.steps, {StepFailed, StepTimedOut}) <==> rows.steps[n].state in {StepFailed, StepTimedOut};
    }
  }

  lemma Redated(a: Rows, b: Rows, deadline: Time)
    requires b.steps.Keys == a.steps.Keys
    requires forall n :: n in a.steps ==> b.steps[n] == WhenRevived(a.steps[n], a.wf.deadline)
    ensures MoveDeadline(b, deadline).steps.Keys == a.steps.Keys
    ensures forall n :: n in a.steps ==> MoveDeadline(b, deadline).steps[n] == WhenRevived(a.steps[n], deadline)
  {
    forall n | n in a.steps ensures MoveDeadline(b, deadline).steps[n] == WhenRevived(a.steps[n], deadline) {
      assert b.steps[n] == WhenRevived(a.steps[n], a.wf.deadline);
    }
  }

  // ---- the sweep -----------------------------------------------------------------------------

  /** What the sweep before the deadline has to say about step `n`: the outcome of the latest task of a
      RUNNING step, if that task is over; CANCELLED for a draining step whose latest task is over. */
  predicate SweptAs(rows: Rows, n: Name, outcome: StepState) {
    && n in rows.steps && rows.steps[n].attempts != []
    && var t := rows.steps[n].attempts[|rows.steps[n].attempts| - 1];
       && t < |rows.tasks|
       && match rows.steps[n].state
          case StepRunning =>
            (match rows.tasks[t].state
             case TaskComplete => outcome == StepComplete
             case TaskFailed => outcome == StepFailed
             case TaskTimedOut => outcome == StepTimedOut
             case TaskCancelled => outcome == StepCancelled
             case _ => false)
          case StepCancelling => rows.tasks[t].state !in {TaskPending, TaskActive} && outcome == StepCancelled
          case _ => false
  }

  /** Before the deadline the sweep writes nothing, and sends exactly: an outcome for each step whose latest
      task is over, a schedule poke for each PENDING step, a process poke if a step is DEFINED, and a cancel
      request for each task at work on a draining step. */
  lemma SweepEffectBeforeDeadline(rows: Rows, now: Time, m: Msg)
    requires RowsInv(rows) && now < rows.wf.deadline
    ensures Reconcile(rows, now).rows == rows
    ensures m in Reconcile(rows, now).sends <==>
            match m
            case ExecUpdate(n, outcome) => SweptAs(rows, n, outcome)
            case ScheduleStep(n) => n in rows.steps && rows.steps[n].state == StepPending
            case ProcessWorkflow => exists n :: n in rows.steps && rows.steps[n].state == StepDefined
            case CancelTask(t) => AtWork(rows, StepCancelling, t)
            case _ => false
  {
    NothingToSettle(rows);
    WhichSet(rows, now, m);
    match m
    case ExecUpdate(n, outcome) => SweepTells(rows, n, outcome);
    case ProcessWorkflow => SweepProcesses(rows);
    case CancelTask(t) => SweepCancels(rows, t);
    case _ =>
  }

  /** From the deadline on the sweep times out a RUNNING workflow and does nothing else. */
  lemma SweepEffectAfterDeadline(rows: Rows, now: Time)
    requires RowsInv(rows) && rows.wf.deadline <= now
    ensures var e := Reconcile(rows, now);
            if rows.wf.state == WfRunning then e.rows.wf.state == WfTimedOut else Nothing(rows, e)
  {
    if rows.wf.state == WfTimedOut { NothingToTimeOut(rows); }
  }

  lemma NothingToTimeOut(rows: Rows)
    requires Agrees(rows) && rows.wf.state == WfTimedOut
    ensures Nothing(rows, TimeOut(rows))
  {
    assert WithState(rows.steps, {StepDefined, StepPending, StepRunning}) == {};
    assert CancelRunning(rows) == {};
  }

  lemma WhichSet(rows: Rows, now: Time, m: Msg)
    requires now < rows.wf.deadline
    ensures m in Reconcile(rows, now).sends <==>
            match m
            case ExecUpdate(n, outcome) => m in SweptOutcomes(rows)
            case ScheduleStep(n) => n in rows.steps && rows.steps[n].state == StepPending
            case ProcessWorkflow => m in SweptProcess(rows)
            case CancelTask(t) => m in SweptCancels(rows)
            case _ => false
  {
  }

  lemma SweepTells(rows: Rows, n: Name, outcome: StepState)
    requires RowsInv(rows)
    ensures ExecUpdate(n, outcome) in SweptOutcomes(rows) <==> SweptAs(rows, n, outcome)
  {
    if n in rows.steps && rows.steps[n].state in {StepRunning, StepCancelling} {
      HasLatest(rows, n);
      LatestDecides(rows, n);
      SweepTellsLatest(rows, n, outcome);
    }
  }

  lemma HasLatest(rows: Rows, n: Name)
    requires RowsInv(rows) && n in rows.steps && rows.steps[n].state in {StepRunning, StepCancelling}
    ensures var attempts := rows.steps[n].attempts;
            && attempts != [] && attempts[|attempts| - 1] < |rows.tasks| && AttemptChain(attempts, rows.tasks)
            && rows.tasks[attempts[|attempts| - 1]].state != TaskCancelling
  {
    assert StepLinks(rows, n);
    var attempts := rows.steps[n].attempts;
    LinkedTasksExist(rows, n, attempts[|attempts| - 1]);
  }

  lemma SweepTellsLatest(rows: Rows, n: Name, outcome: StepState)
    requires n in rows.steps && rows.steps[n].state in {StepRunning, StepCancelling} && rows.steps[n].attempts != []
    requires var attempts := rows.steps[n].attempts; var t := attempts[|attempts| - 1];
             && t < |rows.tasks| && rows.tasks[t].state != TaskCancelling
             && (AllTerminal(rows, attempts) <==> TerminalTask(rows.tasks[t].state))
    ensures ExecUpdate(n, outcome) in SweptOutcomes(rows) <==> SweptAs(rows, n, outcome)
  {
  }

  /** All tasks of a step are over exactly when the latest is. */
  lemma LatestDecides(rows: Rows, n: Name)
    requires n in rows.steps && rows.steps[n].attempts != [] && AttemptChain(rows.steps[n].attempts, rows.tasks)
    ensures var attempts := rows.steps[n].attempts;
            AllTerminal(rows, attempts) <==> TerminalTask(TaskStateAt(rows.tasks, attempts[|attempts| - 1]))
  {
    var attempts := rows.steps[n].attempts;
    forall t | t in attempts && TerminalTask(TaskStateAt(rows.tasks, attempts[|attempts| - 1]))
      ensures TerminalTask(TaskStateAt(rows.tasks, t))
    {
      var i :| 0 <= i < |attempts| && attempts[i] == t;
    }
  }

  lemma SweepProcesses(rows: Rows)
    requires Agrees(rows)
    ensures ProcessWorkflow in SweptProcess(rows) <==> exists n :: n in rows.steps && rows.steps[n].state == StepDefined
  {
    if rows.wf.state == WfPending {
      var n :| n in rows.steps;
      assert rows.steps[n].state == StepDefined;
    } else if n :| n in rows.steps && rows.steps[n].state == StepDefined {
      assert n in WithState(rows.steps, {StepDefined});
    }
  }

  lemma SweepCancels(rows: Rows, t: TaskId)
    requires RowsInv(rows)
    ensures CancelTask(t) in SweptCancels(rows) <==> AtWork(rows, StepCancelling, t)
  {
    if CancelTask(t) in SweptCancels(rows) {
      var n :| n in rows.steps && rows.steps[n].state == StepCancelling && t in rows.steps[n].attempts
               && !TerminalTask(TaskStateAt(rows.tasks, t));
      LinkedTasksExist(rows, n, t);
    }
  }

  // ---- every action --------------------------------------------------------------------------

  /** The workflow row is written by deliveries to the workflow scheduler and by its sweep only. */
  lemma OnlySchedulerCommits(s: State, a: Action)
    requires SystemInv(s) && Next(s, a).rows.wf != s.rows.wf
    ensures exists e :: Transaction(s.rows, e, s.now) && Next(s, a) == Commit(s, e)
  {
    if a.Deliver? {
      DeliverAction(s, a.msg, a.at);
      DeliveryWrites(s, a.msg, a.at);
    } else if a.SweepWorkflow? {
      SweepActions(s, a);
      assert Transaction(s.rows, Reconcile(s.rows, s.now), s.now);
    } else if TaskSweep(a) {
      SweepActions(s, a);
      SweepStartsNone(s, a);
    } else if a.Receive? || a.Refuse? || a.Begin? || a.Finish? || a.Restart? {
      WorkStartsNone(s, a);
    } else {
      QuietStartsNone(s, a);
    }
  }

  lemma DeliveryWrites(s: State, m: Msg, at: Time)
    requires SystemInv(s) && m in s.msgs && React(s.rows, m, s.now, at, s.senders).rows.wf != s.rows.wf
    ensures Transaction(s.rows, React(s.rows, m, s.now, at, s.senders), s.now)
  {
    if ForWorkflow(m) {
      assert React(s.rows, m, s.now, at, s.senders) == Handle(s.rows, m, s.now);
    } else {
      ReactStep(s.rows, s.jobs, m, s.now, at, s.senders);
    }
  }

  /** Whatever the action: a workflow that goes from TIMED_OUT to RUNNING has a deadline that has not passed. */
  lemma RevivedInTime(s: State, a: Action)
    requires SystemInv(s) && s.rows.wf.state == WfTimedOut && Next(s, a).rows.wf.state == WfRunning
    ensures Next(s, a).rows.wf.deadline > s.now
  {
    OnlySchedulerCommits(s, a);
    var e :| Transaction(s.rows, e, s.now) && Next(s, a) == Commit(s, e);
    OnlyRevivalRuns(s.rows, e, s.now);
  }

  lemma OnlyRevivalRuns(rows: Rows, e: Effect, now: Time)
    requires RowsInv(rows) && Transaction(rows, e, now) && rows.wf.state == WfTimedOut && e.rows.wf.state == WfRunning
    ensures e.rows.wf.deadline > now
  {
    if e != Reconcile(rows, now) {
      var m :| ForWorkflow(m) && e == Handle(rows, m, now);
      if m.ReviveWorkflow? { ReviveEffect(rows, m.newDeadline, now); } else { NothingElseRuns(rows, m, now); }
    }
  }

  lemma NothingElseRuns(rows: Rows, m: Msg, now: Time)
    requires ForWorkflow(m) && !m.ReviveWorkflow? && rows.wf.state == WfTimedOut
    ensures Handle(rows, m, now).rows.wf.state != WfRunning
  {
  }

  /** Whatever the action: when the workflow goes from RUNNING to TIMED_OUT, every task at work on a RUNNING
      step has its cancel request sent. */
  lemma TimedOutTasksAsked(s: State, a: Action, t: TaskId)
    requires SystemInv(s) && s.rows.wf.state == WfRunning && Next(s, a).rows.wf.state == WfTimedOut
    requires AtWork(s.rows, StepRunning, t)
    ensures CancelTask(t) in Next(s, a).msgs
  {
    OnlySchedulerCommits(s, a);
    var e :| Transaction(s.rows, e, s.now) && Next(s, a) == Commit(s, e);
    TimeOutAsks(s.rows, e, s.now, t);
  }

  lemma TimeOutAsks(rows: Rows, e: Effect, now: Time, t: TaskId)
    requires RowsInv(rows) && Transaction(rows, e, now) && AtWork(rows, StepRunning, t)
    requires rows.wf.state == WfRunning && e.rows.wf.state == WfTimedOut
    ensures CancelTask(t) in e.sends
  {
    TimeOutEffect(rows, e, now);
  }
}
