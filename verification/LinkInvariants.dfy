/** What ties steps to the tasks dispatched for them: single dispatch, attempts in order, a COMPLETE
    step's COMPLETE task, timely tasks. */
module LinkInvariants {
  import opened Prelude
  import opened Tables
  import opened Backoff
  import opened StepGraph
  import opened Rows
  import opened WorkflowSpec
  import opened WorkflowInvariants
  import opened TaskSpec
  import opened TaskInvariants
  import opened AuditInvariants

  predicate Dispatched(state: StepState) {
    state in {StepRunning, StepCancelling, StepFailed, StepComplete}
  }

  /** Created no later than the deadline it was given. */
  predicate Timely(task: Task) {
    task.deadline.Some? && task.created <= task.deadline.value
  }

  predicate CompleteAttempt(rows: Rows, n: Name)
    requires n in rows.steps
  {
    exists t :: t in rows.steps[n].attempts && TaskStateAt(rows.tasks, t) == TaskComplete
  }

  /** How many attempts the step may have had: one per revival, and the first once it left DEFINED
      and PENDING. */
  function Slots(rows: Rows, n: Name): nat
    requires n in rows.steps
  {
    Revivals(rows.log, n) + if rows.steps[n].state in {StepDefined, StepPending} then 0 else 1
  }

  /** Links point at tasks in creation order, and all but the latest are terminal. */
  predicate AttemptChain(attempts: seq<TaskId>, tasks: seq<Task>) {
    && (forall i :: 0 <= i < |attempts| ==> attempts[i] < |tasks| && Timely(tasks[attempts[i]]))
    && (forall i, j :: 0 <= i < j < |attempts| ==> attempts[i] < attempts[j])
    && (forall i :: 0 <= i < |attempts| - 1 ==> TerminalTask(TaskStateAt(tasks, attempts[i])))
  }

  predicate StepLinks(rows: Rows, n: Name)
    requires n in rows.steps
  {
    var step := rows.steps[n];
    && ValidRetry(step.retry)
    && AttemptChain(step.attempts, rows.tasks)
    && (Dispatched(step.state) ==> step.attempts != [])
    && (step.state == StepComplete ==> CompleteAttempt(rows, n))
    && (rows.wf.state == WfPending ==> step.attempts == [])
    && |step.attempts| <= Slots(rows, n)
    && (step.restarted <==> Revivals(rows.log, n) > 0)
  }

  predicate OneStepPerTask(steps: map<Name, Step>) {
    forall n, m, t :: n in steps && m in steps && t in steps[n].attempts && t in steps[m].attempts ==> n == m
  }

  predicate LinkInv(rows: Rows) {
    && OneStepPerTask(rows.steps)
    && forall n {:trigger StepLinks(rows, n)} :: n in rows.steps ==> StepLinks(rows, n)
  }

  /** The step's user_restarted flag and its revivals in the log changed together or not at all. */
  predicate SameRevivals(a: Rows, b: Rows, n: Name)
    requires n in a.steps && n in b.steps
  {
    || (b.steps[n].restarted == a.steps[n].restarted && Revivals(b.log, n) == Revivals(a.log, n))
    || (b.steps[n].restarted && Revivals(b.log, n) > 0)
  }

  /** Row changes that leave the links alone and justify every new step state. */
  predicate LinksRespected(a: Rows, b: Rows) {
    && a.steps.Keys == b.steps.Keys && a.tasks == b.tasks
    && (b.wf.state == WfPending ==> a.wf.state == WfPending)
    && forall n :: n in a.steps ==>
                     && b.steps[n].attempts == a.steps[n].attempts
                     && b.steps[n].retry == a.steps[n].retry
                     && Slots(a, n) <= Slots(b, n)
                     && SameRevivals(a, b, n)
                     && (Dispatched(b.steps[n].state) ==> Dispatched(a.steps[n].state))
                     && (b.steps[n].state == StepComplete ==>
                           a.steps[n].state == StepComplete || CompleteAttempt(a, n))
  }

  lemma RespectKeepsLinks(a: Rows, b: Rows)
    requires LinkInv(a) && LinksRespected(a, b)
    ensures LinkInv(b)
  {
    forall n | n in b.steps ensures StepLinks(b, n) {
      assert StepLinks(a, n);
      if b.steps[n].state == StepComplete {
        var t :| t in a.steps[n].attempts && TaskStateAt(a.tasks, t) == TaskComplete;
        assert t in b.steps[n].attempts && TaskStateAt(b.tasks, t) == TaskComplete;
      }
    }
  }

  lemma MoveWfLinks(rows: Rows, state: WorkflowState)
    requires LinkInv(rows) && state != WfPending
    ensures LinkInv(MoveWf(rows, state))
  {
    Unfold(rows.log, WfEvent(state));
    RespectKeepsLinks(rows, MoveWf(rows, state));
  }

  lemma MoveStepsLinks(rows: Rows, names: set<Name>, state: StepState)
    requires LinkInv(rows) && names <= rows.steps.Keys
    requires state == StepPending ==> forall n :: n in names ==> rows.steps[n].state == StepDefined
    requires Dispatched(state) ==> forall n :: n in names ==> Dispatched(rows.steps[n].state)
    requires state == StepComplete ==> forall n :: n in names ==> CompleteAttempt(rows, n)
    ensures LinkInv(MoveSteps(rows, names, state))
  {
    Unfold(rows.log, StepEvents(names, state));
    RespectKeepsLinks(rows, MoveSteps(rows, names, state));
  }

  lemma MoveDeadlineLinks(rows: Rows, deadline: Time)
    requires LinkInv(rows)
    ensures LinkInv(MoveDeadline(rows, deadline))
  {
    Unfold(rows.log, DeadlineEvent);
    RespectKeepsLinks(rows, MoveDeadline(rows, deadline));
  }

  lemma SettleLinks(rows: Rows)
    requires LinkInv(rows)
    ensures LinkInv(Settle(rows))
  {
    if Settles(rows) { MoveWfLinks(rows, if rows.wf.state == WfRunning then WfComplete else WfCancelled); }
  }

  lemma ProcessLinks(rows: Rows)
    requires LinkInv(rows)
    ensures LinkInv(Process(rows).rows)
  {
    MoveWfLinks(rows, WfRunning);
    MoveStepsLinks(Started(rows), Ready(rows.steps), StepPending);
  }

  lemma TimeOutLinks(rows: Rows)
    requires LinkInv(rows)
    ensures LinkInv(TimeOut(rows).rows)
  {
    var open := WithState(rows.steps, {StepDefined, StepPending, StepRunning});
    MoveStepsLinks(rows, open, StepTimedOut);
    MoveWfLinks(MoveSteps(rows, open, StepTimedOut), WfTimedOut);
  }

  /** Without a live task every attempt of the step is terminal, as CANCELLING is never committed. */
  lemma NoLiveAttempt(rows: Rows, n: Name)
    requires n in rows.steps && LiveAttempts(rows, n) == {} && TasksInv(rows.tasks) && StepLinks(rows, n)
    ensures AllTerminal(rows, rows.steps[n].attempts)
  {
    var attempts := rows.steps[n].attempts;
    forall t | t in attempts ensures TerminalTask(TaskStateAt(rows.tasks, t)) {
      var i :| 0 <= i < |attempts| && attempts[i] == t;
      assert t !in LiveAttempts(rows, n) && TaskInv(rows.tasks[t]);
    }
  }

  lemma ChainExtends(attempts: seq<TaskId>, tasks: seq<Task>, task: Task)
    requires AttemptChain(attempts, tasks) && Timely(task)
    requires forall t :: t in attempts ==> TerminalTask(TaskStateAt(tasks, t))
    ensures AttemptChain(attempts + [|tasks|], tasks + [task])
  {
    var longer, more := attempts + [|tasks|], tasks + [task];
    forall i | 0 <= i < |longer| ensures longer[i] < |more| && Timely(more[longer[i]]) {
      assert i < |attempts| ==> longer[i] == attempts[i];
    }
    forall i | 0 <= i < |longer| - 1 ensures TerminalTask(TaskStateAt(more, longer[i])) {
      assert longer[i] == attempts[i] && attempts[i] in attempts;
    }
  }

  lemma ChainSurvivesNewTask(attempts: seq<TaskId>, tasks: seq<Task>, task: Task)
    requires AttemptChain(attempts, tasks)
    ensures AttemptChain(attempts, tasks + [task])
  {
  }

  lemma DispatchLinks(rows: Rows, n: Name, now: Time)
    requires LinkInv(rows) && TasksInv(rows.tasks) && n in rows.steps
    requires rows.steps[n].state == StepPending && LiveAttempts(rows, n) == {} && rows.wf.state != WfPending
    requires now <= rows.steps[n].deadline
    ensures LinkInv(Dispatch(rows, n, now))
  {
    var b := Dispatch(rows, n, now);
    assert StepLinks(rows, n);
    NoLiveAttempt(rows, n);
    Unfold(rows.log, StepEvents({n}, StepRunning));
    ChainExtends(rows.steps[n].attempts, rows.tasks, StepTask(rows.steps[n], now));
    forall m | m in b.steps && m != n ensures StepLinks(b, m) {
      assert StepLinks(rows, m);
      OtherStepLinks(rows, n, now, m);
    }
    assert StepLinks(b, n);
    DispatchLinksOnce(rows, n, now);
  }

  lemma OtherStepLinks(rows: Rows, n: Name, now: Time, m: Name)
    requires n in rows.steps && m in rows.steps && m != n && StepLinks(rows, m) && rows.wf.state != WfPending
    ensures m in Dispatch(rows, n, now).steps && StepLinks(Dispatch(rows, n, now), m)
  {
    var b, task := Dispatch(rows, n, now), StepTask(rows.steps[n], now);
    Unfold(rows.log, StepEvents({n}, StepRunning));
    ChainSurvivesNewTask(rows.steps[m].attempts, rows.tasks, task);
    if b.steps[m].state == StepComplete {
      var t :| t in rows.steps[m].attempts && TaskStateAt(rows.tasks, t) == TaskComplete;
      assert t in b.steps[m].attempts && TaskStateAt(b.tasks, t) == TaskComplete;
    }
  }

  lemma DispatchLinksOnce(rows: Rows, n: Name, now: Time)
    requires LinkInv(rows) && n in rows.steps
    ensures OneStepPerTask(Dispatch(rows, n, now).steps)
  {
    var b := Dispatch(rows, n, now);
    forall m, k, t | m in b.steps && k in b.steps && t in b.steps[m].attempts && t in b.steps[k].attempts
      ensures m == k
    {
      if t == |rows.tasks| {
        NewTaskUnlinked(rows, m);
        NewTaskUnlinked(rows, k);
      }
    }
  }

  lemma NewTaskUnlinked(rows: Rows, n: Name)
    requires LinkInv(rows) && n in rows.steps
    ensures |rows.tasks| !in rows.steps[n].attempts
  {
    assert StepLinks(rows, n);
  }

  lemma ScheduleLinks(rows: Rows, n: Name, now: Time)
    requires LinkInv(rows) && TasksInv(rows.tasks) && FlowInv(rows)
    ensures LinkInv(WorkflowSpec.Schedule(rows, n, now).rows)
    ensures TasksInv(WorkflowSpec.Schedule(rows, n, now).rows.tasks)
  {
    TimeOutLinks(rows);
    if n in rows.steps && !HardStop(rows.wf.state) && rows.steps[n].state == StepPending
       && LiveAttempts(rows, n) == {} && now <= rows.wf.deadline {
      assert StepLinks(rows, n);
      DispatchLinks(rows, n, now);
    }
  }

  lemma ShapeLinks(rows: Rows, n: Name, outcome: StepState, r: Rows)
    requires LinkInv(rows) && n in rows.steps && OutcomeShape(rows, n, outcome, r)
    requires outcome == StepComplete ==> CompleteAttempt(rows, n)
    ensures LinkInv(r)
  {
    if StepCancelled in NextStepStates(rows.steps[n].state) && r == Settle(MoveSteps(rows, {n}, StepCancelled)) {
      MoveStepsLinks(rows, {n}, StepCancelled);
      SettleLinks(MoveSteps(rows, {n}, StepCancelled));
    } else {
      MoveStepsLinks(rows, {n}, outcome);
      SettleLinks(MoveSteps(rows, {n}, outcome));
      MoveWfLinks(MoveSteps(rows, {n}, outcome), WfFailed);
    }
  }

  lemma ApplyOutcomeLinks(rows: Rows, n: Name, outcome: StepState)
    requires LinkInv(rows)
    requires n in rows.steps && outcome == StepComplete ==> CompleteAttempt(rows, n)
    ensures LinkInv(ApplyOutcome(rows, n, outcome).rows)
  {
    OutcomeShapes(rows, n, outcome);
    var r := ApplyOutcome(rows, n, outcome).rows;
    if r == Settle(rows) {
      SettleLinks(rows);
    } else if r == TimeOut(rows).rows {
      TimeOutLinks(rows);
    } else if r != rows {
      ShapeLinks(rows, n, outcome, r);
    }
  }

  lemma CancelLinks(rows: Rows)
    requires LinkInv(rows)
    ensures LinkInv(Cancel(rows).rows)
  {
    var dropped := WithState(rows.steps, DROPPED);
    MoveWfLinks(rows, WfCancelling);
    MoveStepsLinks(MoveWf(rows, WfCancelling), WithState(rows.steps, {StepRunning}), StepCancelling);
    MoveStepsLinks(Drained(rows), dropped, StepCancelled);
    SettleLinks(MoveSteps(Drained(rows), dropped, StepCancelled));
  }

  lemma ReviveLinks(rows: Rows, newDeadline: Option<Time>, now: Time)
    requires LinkInv(rows)
    ensures LinkInv(Revive(rows, newDeadline, now).rows)
  {
    MoveWfLinks(rows, WfRunning);
    MoveStepsLinks(MoveWf(rows, WfRunning), WithState(rows.steps, {StepFailed, StepTimedOut}), StepDefined);
    if newDeadline.Some? { MoveDeadlineLinks(Revived(rows), newDeadline.value); }
  }

  /** What an outcome message must be backed by. */
  predicate Backed(rows: Rows, m: Msg) {
    && (m.ExecUpdate? ==>
          && rows.wf.state != WfPending && m.step in rows.steps && SettledStep(m.outcome)
          && (m.outcome == StepComplete ==> CompleteAttempt(rows, m.step)))
    && (m.TaskUpdate? ==>
          && m.task < |rows.tasks| && TerminalTask(rows.tasks[m.task].state)
          && m.outcome == OutcomeOf(rows.tasks[m.task].state))
  }

  /** A linked task resolves to its one step. */
  lemma LinkResolves(rows: Rows, n: Name, t: TaskId)
    requires LinkInv(rows) && n in rows.steps && t in rows.steps[n].attempts
    ensures StepOfTask(rows.steps, t) == Some(n) && rows.wf.state != WfPending
  {
    assert StepLinks(rows, n);
  }

  lemma TaskOutcomeLinks(rows: Rows, t: TaskId, outcome: StepState)
    requires LinkInv(rows) && Backed(rows, TaskUpdate(t, outcome))
    ensures LinkInv(ApplyTaskOutcome(rows, t, outcome).rows)
    ensures StepOfTask(rows.steps, t).Some? ==> rows.wf.state != WfPending
  {
    if StepOfTask(rows.steps, t).Some? {
      var n := StepOfTask(rows.steps, t).value;
      LinkResolves(rows, n, t);
      assert outcome == StepComplete ==> t in rows.steps[n].attempts && TaskStateAt(rows.tasks, t) == TaskComplete;
      ApplyOutcomeLinks(rows, n, outcome);
    }
  }

  lemma HandleLinks(rows: Rows, m: Msg, now: Time)
    requires LinkInv(rows) && TasksInv(rows.tasks) && FlowInv(rows) && ForWorkflow(m) && Backed(rows, m)
    ensures LinkInv(Handle(rows, m, now).rows)
  {
    match m
    case ProcessWorkflow => ProcessLinks(rows);
    case ScheduleStep(n) => ScheduleLinks(rows, n, now);
    case ExecUpdate(n, outcome) => ApplyOutcomeLinks(rows, n, outcome);
    case TaskUpdate(t, outcome) => TaskOutcomeLinks(rows, t, outcome);
    case CancelWorkflow => CancelLinks(rows);
    case ReviveWorkflow(newDeadline) => ReviveLinks(rows, newDeadline, now);
  }

  /** The only task a workflow handler writes is the new one of a dispatched step. */
  lemma HandleTasks(rows: Rows, m: Msg, now: Time)
    requires LinkInv(rows) && TasksInv(rows.tasks) && ForWorkflow(m)
    ensures TasksInv(Handle(rows, m, now).rows.tasks)
  {
    if m.ScheduleStep? && m.step in rows.steps { assert StepLinks(rows, m.step); }
  }

  /** The task engine's writes never break a link: terminal tasks stay as they are. */
  lemma EngineLinks(a: Rows, b: Rows)
    requires LinkInv(a) && EngineKeeps(a, b)
    ensures LinkInv(b)
  {
    forall n | n in b.steps ensures StepLinks(b, n) {
      assert StepLinks(a, n);
      EngineChain(a.steps[n].attempts, a.tasks, b.tasks);
      if b.steps[n].state == StepComplete {
        var t :| t in a.steps[n].attempts && TaskStateAt(a.tasks, t) == TaskComplete;
        assert TaskStateAt(b.tasks, t) == TaskComplete;
      }
    }
  }

  lemma EngineChain(attempts: seq<TaskId>, a: seq<Task>, b: seq<Task>)
    requires AttemptChain(attempts, a) && |a| == |b|
    requires forall t :: 0 <= t < |a| ==> TaskEvolves(a[t], b[t])
    ensures AttemptChain(attempts, b)
  {
  }

  // ---- consequences --------------------------------------------------------------------------

  /** At most one task of a step is live, and only the latest can be. */
  lemma SingleDispatch(rows: Rows, n: Name, t: TaskId, u: TaskId)
    requires LinkInv(rows) && n in rows.steps && t in LiveAttempts(rows, n) && u in LiveAttempts(rows, n)
    ensures t == u && t == rows.steps[n].attempts[|rows.steps[n].attempts| - 1]
  {
    assert StepLinks(rows, n);
    var attempts := rows.steps[n].attempts;
    var i :| 0 <= i < |attempts| && attempts[i] == t;
    var j :| 0 <= j < |attempts| && attempts[j] == u;
  }

  /** A dispatched step always has a task, so the sweep never meets a RUNNING step without one; and a
      step is dispatched at most once more than it was revived. */
  lemma DispatchBounded(rows: Rows, n: Name)
    requires LinkInv(rows) && n in rows.steps
    ensures rows.steps[n].state in {StepRunning, StepCancelling} ==> rows.steps[n].attempts != []
    ensures |rows.steps[n].attempts| <= Revivals(rows.log, n) + 1
  {
    assert StepLinks(rows, n);
  }
}
