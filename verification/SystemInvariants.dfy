/** The invariant of the composed engines, kept by every action. */
module SystemInvariants {
  import opened Prelude
  import opened Tables
  import opened Backoff
  import opened StepGraph
  import opened Rows
  import opened WorkflowSpec
  import opened WorkflowInvariants
  import opened TaskSpec
  import opened TaskInvariants
  import opened AuditInvariants
  import opened LinkInvariants
  import opened System
  import opened Errors

  ghost predicate RowsInv(rows: Rows) {
    && FlowInv(rows)
    && !Cyclic(GraphOf(rows.steps))
    && TasksInv(rows.tasks)
    && LinkInv(rows)
    && LogInv(rows)
  }

  predicate Succeeded(rows: Rows, r: RunId) {
    HasRun(rows, r) && RunAt(rows, r).terminal == Some(RunProcessed)
  }

  /** Claimed at some time, whatever became of it. */
  predicate Taken(rows: Rows, r: RunId) {
    HasRun(rows, r) && Phase(RunAt(rows, r).state) >= 3
  }

  /** What a message in flight tells is true. */
  predicate Truthful(rows: Rows, jobs: map<RunId, Job>, m: Msg) {
    && Backed(rows, m)
    && (m.ExecSucceeded? ==> Succeeded(rows, m.run))
    && (m.ExecFailed? ==> m.run !in jobs && Taken(rows, m.run) && !Succeeded(rows, m.run))
  }

  predicate ClaimedBy(claims: seq<Claimed>, r: RunId) {
    exists i :: 0 <= i < |claims| && claims[i].run == r
  }

  predicate JobInv(s: State, r: RunId)
    requires r in s.jobs
  {
    && Taken(s.rows, r) && !Succeeded(s.rows, r)
    && RunAt(s.rows, r).worker == Some(s.jobs[r].worker)
    && ClaimedBy(s.claims, r)
    && (r in s.calls <==> s.jobs[r].stage == Invoked)
  }

  /** No run is claimed twice, no processor called twice for a run, and a success was preceded by a call. */
  ghost predicate WorkInv(s: State) {
    && (forall i, j :: 0 <= i < j < |s.claims| ==> s.claims[i].run != s.claims[j].run)
    && (forall i :: 0 <= i < |s.claims| ==> Taken(s.rows, s.claims[i].run))
    && Distinct(s.calls)
    && (forall r :: r in s.calls ==> ClaimedBy(s.claims, r))
    && (forall r :: Succeeded(s.rows, r) ==> r in s.calls)
  }

  /** The messages in flight are true and the workers' jobs in order. */
  ghost predicate FlightInv(s: State) {
    && (forall m :: m in s.msgs ==> Truthful(s.rows, s.jobs, m))
    && (forall r :: r in s.jobs ==> JobInv(s, r))
    && WorkInv(s)
  }

  ghost predicate SystemInv(s: State) {
    RowsInv(s.rows) && FlightInv(s)
  }

  // ---- what no action undoes -----------------------------------------------------------------

  /** How the rows move forward, whichever engine writes them. */
  ghost predicate RowsAdvance(a: Rows, b: Rows) {
    && a.steps.Keys == b.steps.Keys
    && (forall n :: n in a.steps ==>
                     && a.steps[n].parents == b.steps[n].parents && a.steps[n].retry == b.steps[n].retry
                     && a.steps[n].attempts <= b.steps[n].attempts)
    && (forall n :: n in a.steps && a.steps[n].state in {StepComplete, StepCancelled} ==> b.steps[n] == a.steps[n])
    && (a.wf.state in {WfComplete, WfCancelled} ==> b.wf == a.wf)
    && (a.wf.state != WfPending ==> b.wf.state != WfPending)
    && |a.tasks| <= |b.tasks|
    && (forall t :: 0 <= t < |a.tasks| ==> TaskEvolves(a.tasks[t], b.tasks[t]))
    && a.log <= b.log
  }

  /** Once the workflow is CANCELLING no step gets another task and no further step completes. */
  predicate CancellationWins(a: Rows, b: Rows) {
    a.wf.state in {WfCancelling, WfCancelled} ==>
      && b.wf.state in {WfCancelling, WfCancelled}
      && forall n :: n in a.steps && n in b.steps ==>
                       && b.steps[n].attempts == a.steps[n].attempts
                       && (b.steps[n].state == StepComplete ==> a.steps[n].state == StepComplete)
  }

  lemma KeepsAdvance(a: Rows, b: Rows)
    requires Keeps(a, b)
    ensures RowsAdvance(a, b) && CancellationWins(a, b) && GraphOf(b.steps) == GraphOf(a.steps)
  {
    SameGraph(a, b);
  }

  lemma EngineAdvances(a: Rows, b: Rows)
    requires EngineKeeps(a, b)
    ensures RowsAdvance(a, b) && CancellationWins(a, b)
  {
  }

  lemma EngineKeepsRows(a: Rows, b: Rows)
    requires RowsInv(a) && EngineKeeps(a, b)
    ensures RowsInv(b)
  {
    EngineLinks(a, b);
  }

  /** The runs that became successes between `a` and `b`. */
  ghost predicate NoNewSuccess(a: Rows, b: Rows, done: set<RunId>) {
    forall r :: Succeeded(b, r) ==> Succeeded(a, r) || r in done
  }

  lemma StillSucceeded(a: Rows, b: Rows, r: RunId)
    requires RowsAdvance(a, b)
    ensures Succeeded(a, r) ==> Succeeded(b, r)
    ensures Taken(a, r) ==> Taken(b, r)
    ensures HasRun(a, r) && RunAt(a, r).worker.Some? ==> HasRun(b, r) && RunAt(b, r).worker == RunAt(a, r).worker
  {
    if HasRun(a, r) { assert RunEvolves(RunAt(a, r), RunAt(b, r)); }
  }

  lemma StillBacked(a: Rows, b: Rows, m: Msg)
    requires RowsAdvance(a, b) && LinkInv(a) && Backed(a, m)
    ensures Backed(b, m)
  {
    if m.ExecUpdate? && m.outcome == StepComplete {
      assert StepLinks(a, m.step);
      var t :| t in a.steps[m.step].attempts && TaskStateAt(a.tasks, t) == TaskComplete;
      var i :| 0 <= i < |a.steps[m.step].attempts| && a.steps[m.step].attempts[i] == t;
      assert b.steps[m.step].attempts[i] == t && t < |a.tasks|;
      assert TaskEvolves(a.tasks[t], b.tasks[t]);
      assert TaskStateAt(b.tasks, t) == TaskComplete;
    }
  }

  lemma StillTruthful(a: Rows, b: Rows, jobs: map<RunId, Job>, left: map<RunId, Job>, done: set<RunId>, m: Msg)
    requires RowsAdvance(a, b) && LinkInv(a) && Truthful(a, jobs, m)
    requires NoNewSuccess(a, b, done) && done <= jobs.Keys && left.Keys <= jobs.Keys
    ensures Truthful(b, left, m)
  {
    StillBacked(a, b, m);
    if m.ExecSucceeded? || m.ExecFailed? { StillSucceeded(a, b, m.run); }
  }

  /** An action that claims nothing and calls no processor: rows move forward, jobs may end, and every
      new message is true. */
  lemma Carry(s: State, t: State, done: set<RunId>)
    requires LinkInv(s.rows) && FlightInv(s) && RowsAdvance(s.rows, t.rows)
    requires t.claims == s.claims && t.calls == s.calls
    requires NoNewSuccess(s.rows, t.rows, done) && done <= s.jobs.Keys && done !! t.jobs.Keys
    requires forall r :: r in done ==> r in s.calls
    requires forall r :: r in t.jobs ==> r in s.jobs && t.jobs[r] == s.jobs[r]
    requires forall m :: m in t.msgs ==> m in s.msgs || Truthful(t.rows, t.jobs, m)
    ensures FlightInv(t)
  {
    forall m | m in t.msgs ensures Truthful(t.rows, t.jobs, m) {
      if m in s.msgs { StillTruthful(s.rows, t.rows, s.jobs, t.jobs, done, m); }
    }
    forall r | r in t.jobs ensures JobInv(t, r) {
      assert JobInv(s, r);
      StillSucceeded(s.rows, t.rows, r);
    }
    CarryWork(s, t, done);
  }

  lemma CarryWork(s: State, t: State, done: set<RunId>)
    requires WorkInv(s) && RowsAdvance(s.rows, t.rows) && t.claims == s.claims && t.calls == s.calls
    requires NoNewSuccess(s.rows, t.rows, done) && forall r :: r in done ==> r in s.calls
    ensures WorkInv(t)
  {
    forall i | 0 <= i < |t.claims| ensures Taken(t.rows, t.claims[i].run) {
      StillSucceeded(s.rows, t.rows, s.claims[i].run);
    }
  }

  lemma {:induction false} SameRows(rows: Rows)
    ensures RowsAdvance(rows, rows) && NoNewSuccess(rows, rows, {})
  {
  }

  /** Only messages were added, or jobs lost. */
  lemma SameRowsInv(s: State, t: State)
    requires SystemInv(s) && t.rows == s.rows && t.claims == s.claims && t.calls == s.calls
    requires forall r :: r in t.jobs ==> r in s.jobs && t.jobs[r] == s.jobs[r]
    requires forall m :: m in t.msgs ==> m in s.msgs || Truthful(t.rows, t.jobs, m)
    ensures SystemInv(t)
  {
    SameRows(s.rows);
    Carry(s, t, {});
  }

  /** Pokes and requests: nothing that must be true. */
  predicate Poke(m: Msg) {
    m.ProcessWorkflow? || m.ScheduleStep? || m.NewTask? || m.CancelTask? || m.PendingInstance?
  }

  /** What a scheduler may send from these rows. */
  predicate Sendable(rows: Rows, m: Msg) {
    Poke(m) || (m.ExecUpdate? && Backed(rows, m))
  }

  /** A transaction of either scheduler. */
  lemma CommitInv(s: State, e: Effect)
    requires LinkInv(s.rows) && FlightInv(s) && RowsAdvance(s.rows, e.rows) && NoNewSuccess(s.rows, e.rows, {})
    requires forall m :: m in e.sends ==> Sendable(e.rows, m)
    ensures FlightInv(Commit(s, e))
  {
    Carry(s, Commit(s, e), {});
  }

  // ---- the workflow scheduler ----------------------------------------------------------------

  lemma TimeOutSends(rows: Rows)
    ensures TimeOut(rows).rows.tasks == rows.tasks
    ensures forall m :: m in TimeOut(rows).sends ==> m.CancelTask?
  {
  }

  lemma HandleSends(rows: Rows, m: Msg, now: Time)
    requires ForWorkflow(m)
    ensures forall p :: p in Handle(rows, m, now).sends ==> Poke(p)
  {
  }

  /** A workflow handler adds at most a task without runs. */
  lemma HandleMakesNoSuccess(rows: Rows, m: Msg, now: Time)
    requires ForWorkflow(m)
    ensures NoNewSuccess(rows, Handle(rows, m, now).rows, {})
  {
  }

  /** A transaction of the workflow scheduler: on good rows it leaves good rows and true messages. */
  ghost predicate WorkflowTx(rows: Rows, e: Effect) {
    || !RowsInv(rows)
    || (&& RowsInv(e.rows)
        && Keeps(rows, e.rows)
        && NoNewSuccess(rows, e.rows, {})
        && forall m :: m in e.sends ==> Sendable(e.rows, m))
  }

  lemma WorkflowTxInv(s: State, e: Effect)
    requires SystemInv(s) && WorkflowTx(s.rows, e)
    ensures SystemInv(Commit(s, e))
  {
    KeepsAdvance(s.rows, e.rows);
    CommitInv(s, e);
  }

  lemma TxAssembled(rows: Rows, e: Effect)
    requires RowsInv(rows) && Keeps(rows, e.rows) && LinkInv(e.rows) && LogInv(e.rows)
    requires TasksInv(e.rows.tasks) && NoNewSuccess(rows, e.rows, {})
    requires forall m :: m in e.sends ==> Sendable(e.rows, m)
    ensures WorkflowTx(rows, e)
  {
    KeepsAdvance(rows, e.rows);
  }

  lemma HandleIsTx(rows: Rows, m: Msg, now: Time)
    requires ForWorkflow(m) && Backed(rows, m)
    ensures WorkflowTx(rows, Handle(rows, m, now))
  {
    if RowsInv(rows) {
      if m.TaskUpdate? { TaskOutcomeLinks(rows, m.task, m.outcome); }
      HandleKeeps(rows, m, now);
      HandleLinks(rows, m, now);
      HandleTasks(rows, m, now);
      HandleLogs(rows, m, now);
      HandleSends(rows, m, now);
      HandleMakesNoSuccess(rows, m, now);
      TxAssembled(rows, Handle(rows, m, now));
    }
  }

  /** The synthesized outcomes of the sweep are backed by the tasks they speak of. */
  lemma SweptOutcomesBacked(rows: Rows)
    requires RowsInv(rows)
    ensures forall m :: m in SweptOutcomes(rows) ==> m.ExecUpdate? && Backed(rows, m)
  {
    forall m | m in SweptOutcomes(rows) ensures m.ExecUpdate? && Backed(rows, m) {
      SweptOutcomeBacked(rows, m.step, m.outcome);
    }
  }

  lemma SweptOutcomeBacked(rows: Rows, n: Name, outcome: StepState)
    requires RowsInv(rows) && n in rows.steps && rows.steps[n].state in {StepRunning, StepCancelling}
    requires outcome == StepCancelled || LostOutcome(rows, n) == Some(outcome)
    ensures Backed(rows, ExecUpdate(n, outcome))
  {
    assert StepLinks(rows, n);
    var attempts := rows.steps[n].attempts;
    assert attempts[|attempts| - 1] in attempts;
  }

  lemma TimeOutIsTx(rows: Rows)
    ensures WorkflowTx(rows, TimeOut(rows))
  {
    if RowsInv(rows) {
      TimeOutSends(rows);
      TimeOutKeeps(rows);
      TimeOutLinks(rows);
      TimeOutLogs(rows);
      SameTasksTx(rows, TimeOut(rows));
    }
  }

  lemma SameTasksTx(rows: Rows, e: Effect)
    requires RowsInv(rows) && Keeps(rows, e.rows) && LinkInv(e.rows) && LogInv(e.rows)
    requires e.rows.tasks == rows.tasks && forall m :: m in e.sends ==> m.CancelTask?
    ensures WorkflowTx(rows, e)
  {
    TxAssembled(rows, e);
  }

  lemma SweptPokes(rows: Rows)
    ensures forall m :: m in SweptSchedules(rows) + SweptProcess(rows) + SweptCancels(rows) ==> Poke(m)
  {
  }

  lemma SweptSendable(rows: Rows)
    requires RowsInv(rows)
    ensures forall m :: m in SweptOutcomes(rows) + SweptSchedules(rows) + SweptProcess(rows) + SweptCancels(rows) ==>
                          Sendable(rows, m)
  {
    SweptOutcomesBacked(rows);
    SweptPokes(rows);
  }

  lemma ReconcileIsTx(rows: Rows, now: Time)
    ensures WorkflowTx(rows, Reconcile(rows, now))
  {
    if rows.wf.deadline <= now {
      assert Reconcile(rows, now) == TimeOut(rows);
      TimeOutIsTx(rows);
    } else if RowsInv(rows) {
      NothingToSettle(rows);
      assert Reconcile(rows, now).rows == rows;
      SweptSendable(rows);
      NothingWrittenTx(rows, Reconcile(rows, now));
    }
  }

  lemma NothingWrittenTx(rows: Rows, e: Effect)
    requires RowsInv(rows) && e.rows == rows && forall m :: m in e.sends ==> Sendable(rows, m)
    ensures WorkflowTx(rows, e)
  {
  }

  // ---- the task scheduler --------------------------------------------------------------------

  /** A transaction of the task scheduler: it never decides that a run succeeded. */
  ghost predicate SchedulerStep(rows: Rows, e: Effect) {
    && EngineKeeps(rows, e.rows)
    && NoNewSuccess(rows, e.rows, {})
    && forall m :: m in e.sends ==> m.PendingInstance?
  }

  lemma SchedulerInv(s: State, e: Effect)
    requires SystemInv(s) && SchedulerStep(s.rows, e)
    ensures SystemInv(Commit(s, e))
  {
    EngineKeepsRows(s.rows, e.rows);
    EngineAdvances(s.rows, e.rows);
    CommitInv(s, e);
  }

  lemma ActivateStep(rows: Rows, t: TaskId, senders: set<TaskName>)
    requires TasksInv(rows.tasks)
    ensures SchedulerStep(rows, Activate(rows, t, senders))
  {
    ActivateKeeps(rows, t, senders);
  }

  lemma StartRunStep(rows: Rows, r: RunId, senders: set<TaskName>)
    requires TasksInv(rows.tasks)
    ensures SchedulerStep(rows, StartRun(rows, r, senders))
  {
    StartRunKeeps(rows, r, senders);
  }

  lemma CompleteRunStep(rows: Rows, r: RunId)
    requires TasksInv(rows.tasks) && (HasRun(rows, r) ==> Succeeded(rows, r))
    ensures SchedulerStep(rows, CompleteRun(rows, r))
  {
    CompleteRunKeeps(rows, r);
    CompleteRunMakesNoSuccess(rows, r);
  }

  lemma CompleteRunMakesNoSuccess(rows: Rows, r: RunId)
    ensures NoNewSuccess(rows, CompleteRun(rows, r).rows, {})
  {
  }

  lemma FailRunStep(rows: Rows, r: RunId, at: Time)
    requires TasksInv(rows.tasks) && !Succeeded(rows, r)
    ensures SchedulerStep(rows, FailRun(rows, r, at))
  {
    FailRunKeeps(rows, r, at);
    FailRunMakesNoSuccess(rows, r, at);
  }

  lemma FailRunMakesNoSuccess(rows: Rows, r: RunId, at: Time)
    ensures NoNewSuccess(rows, FailRun(rows, r, at).rows, {})
  {
  }

  lemma EngineFailRunStep(rows: Rows, r: RunId)
    requires TasksInv(rows.tasks)
    ensures SchedulerStep(rows, EngineFailRun(rows, r))
  {
    EngineFailRunKeeps(rows, r);
    EngineFailMakesNoSuccess(rows, r);
  }

  lemma EngineFailMakesNoSuccess(rows: Rows, r: RunId)
    ensures NoNewSuccess(rows, EngineFailRun(rows, r).rows, {})
  {
  }

  lemma TimeOutRunStep(rows: Rows, r: RunId)
    requires TasksInv(rows.tasks)
    ensures SchedulerStep(rows, TimeOutRun(rows, r))
  {
    TimeOutRunKeeps(rows, r);
    TimeOutMakesNoSuccess(rows, r);
  }

  lemma TimeOutMakesNoSuccess(rows: Rows, r: RunId)
    ensures NoNewSuccess(rows, TimeOutRun(rows, r).rows, {})
  {
    if HasRun(rows, r) && TimeOutRun(rows, r).rows != rows {
      var task := rows.tasks[r.task];
      var late := PutRun(task, r.index, Finalized(FailedWith(RunAt(rows, r), false))).(state := TaskTimedOut);
      LateRunSuccess(rows, r.task, late);
    }
  }

  lemma LateRunSuccess(rows: Rows, t: TaskId, late: Task)
    requires t < |rows.tasks| && |late.runs| == |rows.tasks[t].runs|
    requires forall i :: 0 <= i < |late.runs| ==> late.runs[i].terminal in {rows.tasks[t].runs[i].terminal, Some(RunFailed)}
    ensures NoNewSuccess(rows, PutTask(rows, t, CancelOngoing(late), [TaskEvent(t, TaskTimedOut)]), {})
  {
    CancelOngoingSuccess(PutTask(rows, t, late, []), t, late, [TaskEvent(t, TaskTimedOut)]);
    var b := PutTask(rows, t, CancelOngoing(late), [TaskEvent(t, TaskTimedOut)]);
    var a := PutTask(rows, t, late, []);
    assert PutTask(a, t, CancelOngoing(late), [TaskEvent(t, TaskTimedOut)]).tasks == b.tasks;
    forall r | Succeeded(b, r) ensures Succeeded(rows, r) {
      assert Succeeded(PutTask(a, t, CancelOngoing(late), [TaskEvent(t, TaskTimedOut)]), r);
      assert Succeeded(a, r);
    }
  }

  lemma CancelOngoingSuccess(rows: Rows, t: TaskId, task: Task, events: seq<Event>)
    requires t < |rows.tasks| && task.runs == rows.tasks[t].runs
    ensures NoNewSuccess(rows, PutTask(rows, t, CancelOngoing(task), events), {})
  {
    var b := PutTask(rows, t, CancelOngoing(task), events);
    assert |CancelOngoing(task).runs| == |task.runs|;
    forall r | Succeeded(b, r) ensures Succeeded(rows, r) {
      if r.task == t { assert b.tasks[t].runs[r.index] in {task.runs[r.index], CancelledRun(task.runs[r.index])}; }
    }
  }

  lemma StopTaskStep(rows: Rows, t: TaskId)
    requires TasksInv(rows.tasks)
    ensures SchedulerStep(rows, StopTask(rows, t))
  {
    StopTaskKeeps(rows, t);
    if t < |rows.tasks| {
      CancelOngoingSuccess(rows, t, rows.tasks[t].(state := TaskCancelled), [TaskEvent(t, TaskCancelled)]);
    }
  }

  lemma TimeOutTaskStep(rows: Rows, t: TaskId)
    requires TasksInv(rows.tasks)
    ensures SchedulerStep(rows, TimeOutTask(rows, t))
  {
    TimeOutTaskKeeps(rows, t);
    if t < |rows.tasks| {
      CancelOngoingSuccess(rows, t, rows.tasks[t].(state := TaskTimedOut), [TaskEvent(t, TaskTimedOut)]);
    }
  }

  lemma ReactInv(s: State, m: Msg, at: Time)
    requires SystemInv(s) && m in s.msgs
    ensures SystemInv(Commit(s, React(s.rows, m, s.now, at, s.senders)))
  {
    if ForWorkflow(m) {
      HandleIsTx(s.rows, m, s.now);
      WorkflowTxInv(s, Handle(s.rows, m, s.now));
    } else {
      ReactStep(s.rows, s.jobs, m, s.now, at, s.senders);
      SchedulerInv(s, React(s.rows, m, s.now, at, s.senders));
    }
  }

  lemma ReactStep(rows: Rows, jobs: map<RunId, Job>, m: Msg, now: Time, at: Time, senders: set<TaskName>)
    requires TasksInv(rows.tasks) && Truthful(rows, jobs, m) && !ForWorkflow(m)
    ensures SchedulerStep(rows, React(rows, m, now, at, senders))
  {
    ReactIsStep(rows, jobs, m, now, at, senders);
  }

  /** The effect is a step of the task scheduler, or the rows were not in order. */
  ghost predicate Stepped(rows: Rows, e: Effect) {
    !TasksInv(rows.tasks) || SchedulerStep(rows, e)
  }

  lemma ReactIsStep(rows: Rows, jobs: map<RunId, Job>, m: Msg, now: Time, at: Time, senders: set<TaskName>)
    requires TasksInv(rows.tasks) && Truthful(rows, jobs, m) && !ForWorkflow(m)
    ensures Stepped(rows, React(rows, m, now, at, senders))
  {
    match m
    case NewTask(t) => ActivateStep(rows, t, senders);
    case CancelTask(t) => StopTaskStep(rows, t);
    case ExecSucceeded(r) => CompleteRunStep(rows, r);
    case ExecFailed(r) => FailRunStep(rows, r, at);
    case EngineFailed(r) => EngineFailRunStep(rows, r);
    case PendingInstance(r) => NothingStepped(rows);
  }

  lemma NothingStepped(rows: Rows)
    ensures Stepped(rows, Ignore(rows))
  {
  }

  // ---- users and notifications ---------------------------------------------------------------

  lemma SendInv(s: State, m: Msg)
    requires SystemInv(s) && Truthful(s.rows, s.jobs, m)
    ensures SystemInv(Send(s, m))
  {
    SameRowsInv(s, Send(s, m));
  }

  lemma NoticeBacked(rows: Rows, i: nat)
    requires LogInv(rows) && i < |rows.log| && Notice(rows.log[i]).Some?
    ensures Backed(rows, Notice(rows.log[i]).value)
  {
    assert EventTrue(rows.log[i], rows.tasks);
  }

  lemma SubmitLinks(rows: Rows, task: Task)
    requires LinkInv(rows)
    ensures LinkInv(Submit(rows, task))
  {
    var b := Submit(rows, task);
    forall n | n in b.steps ensures StepLinks(b, n) {
      assert StepLinks(rows, n);
      ChainSurvivesNewTask(rows.steps[n].attempts, rows.tasks, task);
      if b.steps[n].state == StepComplete {
        var t :| t in rows.steps[n].attempts && TaskStateAt(rows.tasks, t) == TaskComplete;
        assert TaskStateAt(b.tasks, t) == TaskComplete;
      }
    }
  }

  lemma SubmitKeeps(rows: Rows, task: Task)
    requires RowsInv(rows) && ValidRetry(task.retry) && task.state == TaskPending && task.runs == []
    ensures RowsInv(Submit(rows, task))
  {
    NewTaskLogs(rows, task);
    SubmitLinks(rows, task);
  }

  lemma SubmitAdvances(rows: Rows, task: Task)
    requires task.runs == []
    ensures RowsAdvance(rows, Submit(rows, task))
    ensures NoNewSuccess(rows, Submit(rows, task), {})
  {
    var b := Submit(rows, task);
    assert forall t :: 0 <= t < |rows.tasks| ==> b.tasks[t] == rows.tasks[t];
  }

  lemma SubmitInv(s: State, t: State, task: Task)
    requires SystemInv(s) && ValidRetry(task.retry) && task.state == TaskPending && task.runs == []
    requires t == Send(s, NewTask(|s.rows.tasks|)).(rows := Submit(s.rows, task))
    ensures SystemInv(t)
  {
    SubmitKeeps(s.rows, task);
    SubmitAdvances(s.rows, task);
    CommitInv(s, Effect(true, t.rows, {NewTask(|s.rows.tasks|)}));
  }

  // ---- workers -------------------------------------------------------------------------------

  /** A guarded write to one run makes at most that run a success. */
  lemma WriteRunSucceeds(rows: Rows, r: RunId, next: Run)
    ensures NoNewSuccess(rows, WriteRun(rows, r, next).rows, {r})
    ensures next.terminal != Some(RunProcessed) ==> NoNewSuccess(rows, WriteRun(rows, r, next).rows, {})
  {
    if WriteRun(rows, r, next).ok {
      var b := WriteRun(rows, r, next).rows;
      assert forall q :: HasRun(b, q) ==> HasRun(rows, q) && (q != r ==> RunAt(b, q) == RunAt(rows, q));
    }
  }

  /** Any transaction of the task engine on good rows. */
  lemma EngineTx(a: Rows, b: Rows)
    requires RowsInv(a) && EngineKeeps(a, b)
    ensures RowsInv(b) && RowsAdvance(a, b)
  {
    EngineKeepsRows(a, b);
    EngineAdvances(a, b);
  }

  /** If the invariant held before, it holds after. */
  ghost predicate Kept(s: State, t: State) {
    !SystemInv(s) || SystemInv(t)
  }

  /** A claim puts the run in one worker's hands: nobody else ever had it. */
  lemma ReceiveInv(s: State, r: RunId, w: Worker)
    ensures Kept(s, Received(s, r, w))
  {
    if SystemInv(s) {
      if PendingInstance(r) in s.msgs {
        if Claim(s.rows, r, w).ok { ClaimInv(s, Received(s, r, w), r, w); } else { SendInv(s, EngineFailed(r)); }
      }
    }
  }

  lemma ClaimInv(s: State, t: State, r: RunId, w: Worker)
    requires SystemInv(s) && Claim(s.rows, r, w) == Effect(true, t.rows, {})
    requires t.msgs == s.msgs && t.jobs == s.jobs[r := Job(w, Submitted)] && t.calls == s.calls
    requires t.claims == s.claims + [Claimed(r, w)]
    ensures SystemInv(t)
  {
    ClaimKeeps(s.rows, r, w);
    EngineTx(s.rows, t.rows);
    ClaimedFlight(s, t, r, w);
  }

  lemma ClaimedFlight(s: State, t: State, r: RunId, w: Worker)
    requires LinkInv(s.rows) && FlightInv(s) && RowsAdvance(s.rows, t.rows)
    requires Claim(s.rows, r, w) == Effect(true, t.rows, {})
    requires t.msgs == s.msgs && t.jobs == s.jobs[r := Job(w, Submitted)] && t.calls == s.calls
    requires t.claims == s.claims + [Claimed(r, w)]
    ensures FlightInv(t)
  {
    WriteRunSucceeds(s.rows, r, RunAt(s.rows, r).(state := RunAcquired, worker := Some(w)));
    assert !Taken(s.rows, r);
    assert r !in s.jobs;
    ClaimedWork(s, t, r, w);
    ClaimsExtend(s.claims, Claimed(r, w));
    forall m | m in t.msgs ensures Truthful(t.rows, t.jobs, m) {
      StillTruthful(s.rows, t.rows, s.jobs, s.jobs, {}, m);
    }
    forall q | q in t.jobs ensures JobInv(t, q) {
      if q != r {
        assert JobInv(s, q);
        StillSucceeded(s.rows, t.rows, q);
      }
    }
  }

  lemma ClaimedWork(s: State, t: State, r: RunId, w: Worker)
    requires WorkInv(s) && RowsAdvance(s.rows, t.rows) && NoNewSuccess(s.rows, t.rows, {})
    requires !Taken(s.rows, r) && Taken(t.rows, r)
    requires t.calls == s.calls && t.claims == s.claims + [Claimed(r, w)]
    ensures WorkInv(t) && r !in t.calls
  {
    ClaimsExtend(s.claims, Claimed(r, w));
    forall i | 0 <= i < |t.claims| ensures Taken(t.rows, t.claims[i].run) {
      if i < |s.claims| { StillSucceeded(s.rows, t.rows, s.claims[i].run); }
    }
    assert forall i :: 0 <= i < |s.claims| ==> s.claims[i].run != r;
    assert !ClaimedBy(s.claims, r);
  }

  lemma ClaimsExtend(claims: seq<Claimed>, c: Claimed)
    ensures forall r :: ClaimedBy(claims + [c], r) <==> ClaimedBy(claims, r) || r == c.run
  {
    assert (claims + [c])[|claims|] == c;
    forall r | ClaimedBy(claims, r) ensures ClaimedBy(claims + [c], r) {
      var i :| 0 <= i < |claims| && claims[i].run == r;
      assert (claims + [c])[i].run == r;
    }
  }

  /** A job ends without a success. */
  lemma EndJobFlight(s: State, t: State, r: RunId, m: Msg)
    requires LinkInv(s.rows) && FlightInv(s) && r in s.jobs && RowsAdvance(s.rows, t.rows)
    requires NoNewSuccess(s.rows, t.rows, {}) && (m == EngineFailed(r) || m == ExecFailed(r))
    requires t.msgs == s.msgs + {m} && t.jobs == Without(s.jobs, r) && t.claims == s.claims && t.calls == s.calls
    ensures FlightInv(t)
  {
    EndedJobTruthful(s, t.rows, r, m);
    Carry(s, t, {});
  }

  lemma EndedJobTruthful(s: State, rows: Rows, r: RunId, m: Msg)
    requires r in s.jobs && JobInv(s, r) && RowsAdvance(s.rows, rows) && NoNewSuccess(s.rows, rows, {})
    requires m == EngineFailed(r) || m == ExecFailed(r)
    ensures Truthful(rows, Without(s.jobs, r), m)
  {
    StillSucceeded(s.rows, rows, r);
  }

  lemma MarkFailedAdvances(rows: Rows, r: RunId, noRetry: bool)
    requires RowsInv(rows)
    ensures var b := MarkFailed(rows, r, noRetry).rows;
            RowsInv(b) && RowsAdvance(rows, b) && NoNewSuccess(rows, b, {})
  {
    MarkFailedKeeps(rows, r, noRetry);
    EngineTx(rows, MarkFailed(rows, r, noRetry).rows);
    SameRows(rows);
    if HasRun(rows, r) { WriteRunSucceeds(rows, r, FailedWith(RunAt(rows, r), noRetry)); }
  }

  lemma RefuseInv(s: State, r: RunId)
    ensures Kept(s, Refused(s, r))
  {
    if SystemInv(s) {
      if r in s.jobs && s.jobs[r].stage == Submitted {
        MarkFailedAdvances(s.rows, r, false);
        EndJobFlight(s, Refused(s, r), r, EngineFailed(r));
      }
    }
  }

  lemma BeginInv(s: State, r: RunId, served: bool, fault: bool)
    ensures Kept(s, BegunJob(s, r, served, fault))
  {
    if r !in s.jobs || s.jobs[r].stage != Submitted {
      assert BegunJob(s, r, served, fault) == s;
    } else if fault || !BeginRun(s.rows, r).ok {
      assert BegunJob(s, r, served, fault) == Send(s, ExecFailed(r)).(jobs := Without(s.jobs, r));
      NotBegunInv(s, Send(s, ExecFailed(r)).(jobs := Without(s.jobs, r)), r);
    } else if SystemInv(s) {
      BegunInv(s, BegunJob(s, r, served, fault), r, served);
    }
  }

  lemma NotBegunInv(s: State, t: State, r: RunId)
    requires r in s.jobs && t == Send(s, ExecFailed(r)).(jobs := Without(s.jobs, r))
    ensures Kept(s, t)
  {
    SameRows(s.rows);
    if SystemInv(s) { EndJobFlight(s, t, r, ExecFailed(r)); }
  }

  lemma BegunInv(s: State, t: State, r: RunId, served: bool)
    requires SystemInv(s) && r in s.jobs && s.jobs[r].stage == Submitted
    requires BeginRun(s.rows, r) == Effect(true, t.rows, {}) && t.msgs == s.msgs && t.claims == s.claims
    requires t.jobs == s.jobs[r := s.jobs[r].(stage := if served then Invoked else Unserved)]
    requires t.calls == if served then s.calls + [r] else s.calls
    ensures SystemInv(t)
  {
    BeginRunKeeps(s.rows, r);
    EngineTx(s.rows, t.rows);
    BegunFlight(s, t, r, served);
  }

  lemma BegunFlight(s: State, t: State, r: RunId, served: bool)
    requires LinkInv(s.rows) && FlightInv(s) && RowsAdvance(s.rows, t.rows) && r in s.jobs && s.jobs[r].stage == Submitted
    requires BeginRun(s.rows, r) == Effect(true, t.rows, {}) && t.msgs == s.msgs && t.claims == s.claims
    requires t.jobs == s.jobs[r := s.jobs[r].(stage := if served then Invoked else Unserved)]
    requires t.calls == if served then s.calls + [r] else s.calls
    ensures FlightInv(t)
  {
    assert JobInv(s, r);
    WriteRunSucceeds(s.rows, r, RunAt(s.rows, r).(state := RunProcessing));
    BegunMessages(s, t, r);
    BegunJobs(s, t, r, served);
    BegunWork(s, t, r);
  }

  lemma BegunJobs(s: State, t: State, r: RunId, served: bool)
    requires FlightInv(s) && RowsAdvance(s.rows, t.rows) && r in s.jobs && s.jobs[r].stage == Submitted
    requires BeginRun(s.rows, r) == Effect(true, t.rows, {}) && NoNewSuccess(s.rows, t.rows, {})
    requires t.jobs == s.jobs[r := s.jobs[r].(stage := if served then Invoked else Unserved)]
    requires t.claims == s.claims && t.calls == if served then s.calls + [r] else s.calls
    ensures forall q :: q in t.jobs ==> JobInv(t, q)
  {
    forall q | q in t.jobs ensures JobInv(t, q) {
      assert JobInv(s, q);
      StillSucceeded(s.rows, t.rows, q);
    }
  }

  lemma BegunMessages(s: State, t: State, r: RunId)
    requires LinkInv(s.rows) && FlightInv(s) && RowsAdvance(s.rows, t.rows) && NoNewSuccess(s.rows, t.rows, {})
    requires t.msgs == s.msgs && t.jobs.Keys == s.jobs.Keys
    ensures forall m :: m in t.msgs ==> Truthful(t.rows, t.jobs, m)
  {
    forall m | m in t.msgs ensures Truthful(t.rows, t.jobs, m) {
      StillTruthful(s.rows, t.rows, s.jobs, t.jobs, {}, m);
    }
  }

  lemma BegunWork(s: State, t: State, r: RunId)
    requires WorkInv(s) && RowsAdvance(s.rows, t.rows) && NoNewSuccess(s.rows, t.rows, {})
    requires r !in s.calls && ClaimedBy(s.claims, r)
    requires t.claims == s.claims && (t.calls == s.calls + [r] || t.calls == s.calls)
    ensures WorkInv(t)
  {
    Snoc(s.calls, r);
    forall i | 0 <= i < |t.claims| ensures Taken(t.rows, t.claims[i].run) {
      StillSucceeded(s.rows, t.rows, s.claims[i].run);
    }
  }

  lemma FinishInv(s: State, r: RunId, ending: Ending)
    ensures Kept(s, Finished(s, r, ending))
  {
    if r !in s.jobs || s.jobs[r].stage == Submitted {
      assert Finished(s, r, ending) == s;
    } else {
      var error := JobError(s.jobs[r].stage, ending);
      if error == None && Recorded(s.rows, r, error, ending).ok {
        FinishedShape(s, r, ending);
        if SystemInv(s) { SuccessInv(s, Finished(s, r, ending), r); }
      } else {
        FailedFinishInv(s, Finished(s, r, ending), r, ending);
      }
    }
  }

  lemma FinishedShape(s: State, r: RunId, ending: Ending)
    requires r in s.jobs && s.jobs[r].stage != Submitted
    ensures var t, error := Finished(s, r, ending), JobError(s.jobs[r].stage, ending);
            var e := Recorded(s.rows, r, error, ending);
            && t.rows == e.rows && t.jobs == Without(s.jobs, r) && t.claims == s.claims && t.calls == s.calls
            && t.msgs == s.msgs + {Reported(r, Classify(if e.ok then error else Some(UNRECORDED)))}
  {
  }

  /** A failure is reported as one, in either way. */
  lemma FailureReported(r: RunId, error: Option<Error>)
    ensures error.Some? ==> Reported(r, Classify(error)) in {EngineFailed(r), ExecFailed(r)}
  {
  }

  lemma FailedFinishInv(s: State, t: State, r: RunId, ending: Ending)
    requires r in s.jobs && s.jobs[r].stage != Submitted && t == Finished(s, r, ending)
    requires JobError(s.jobs[r].stage, ending) != None || !Recorded(s.rows, r, None, ending).ok
    ensures Kept(s, t)
  {
    FinishedShape(s, r, ending);
    var error := JobError(s.jobs[r].stage, ending);
    var e := Recorded(s.rows, r, error, ending);
    var told := if e.ok then error else Some(UNRECORDED);
    FailureReported(r, told);
    if SystemInv(s) {
      RecordedFailure(s.rows, r, error, ending);
      EndJobFlight(s, t, r, Reported(r, Classify(told)));
    }
  }

  lemma RecordedFailure(rows: Rows, r: RunId, error: Option<Error>, ending: Ending)
    requires RowsInv(rows) && (error != None || !Recorded(rows, r, None, ending).ok)
    ensures var b := Recorded(rows, r, error, ending).rows;
            RowsInv(b) && RowsAdvance(rows, b) && NoNewSuccess(rows, b, {})
  {
    if ending.Fault? || error == None {
      assert Recorded(rows, r, error, ending).rows == rows;
      SameRows(rows);
    } else {
      assert Recorded(rows, r, error, ending) == MarkFailed(rows, r, Disposition(error));
      MarkFailedAdvances(rows, r, Disposition(error));
    }
  }

  /** The processor returned and its success is recorded. */
  lemma SuccessInv(s: State, t: State, r: RunId)
    requires SystemInv(s) && r in s.jobs && s.jobs[r].stage == Invoked
    requires MarkProcessed(s.rows, r) == Effect(true, t.rows, {})
    requires t.msgs == s.msgs + {ExecSucceeded(r)} && t.jobs == Without(s.jobs, r)
    requires t.claims == s.claims && t.calls == s.calls
    ensures SystemInv(t)
  {
    MarkProcessedAdvances(s.rows, r);
    SuccessFlight(s, t, r);
  }

  lemma SuccessFlight(s: State, t: State, r: RunId)
    requires LinkInv(s.rows) && FlightInv(s) && r in s.jobs && s.jobs[r].stage == Invoked
    requires RowsAdvance(s.rows, t.rows) && Succeeded(t.rows, r) && NoNewSuccess(s.rows, t.rows, {r})
    requires t.msgs == s.msgs + {ExecSucceeded(r)} && t.jobs == Without(s.jobs, r)
    requires t.claims == s.claims && t.calls == s.calls
    ensures FlightInv(t)
  {
    assert JobInv(s, r);
    Carry(s, t, {r});
  }

  lemma MarkProcessedAdvances(rows: Rows, r: RunId)
    requires RowsInv(rows) && MarkProcessed(rows, r).ok
    ensures var b := MarkProcessed(rows, r).rows;
            RowsInv(b) && RowsAdvance(rows, b) && Succeeded(b, r) && NoNewSuccess(rows, b, {r})
  {
    MarkProcessedKeeps(rows, r);
    EngineTx(rows, MarkProcessed(rows, r).rows);
    WriteRunSucceeds(rows, r, RunAt(rows, r).(state := RunProcessed, terminal := Some(RunProcessed)));
  }

  // ---- crashes -------------------------------------------------------------------------------

  lemma RecoverAdvances(rows: Rows, w: Worker)
    requires RowsInv(rows)
    ensures RowsInv(Recover(rows, w).rows) && RowsAdvance(rows, Recover(rows, w).rows)
    ensures NoNewSuccess(rows, Recover(rows, w).rows, {})
  {
    var b := Recover(rows, w).rows;
    RecoverKeeps(rows, w);
    EngineKeepsRows(rows, b);
    EngineAdvances(rows, b);
    forall r | Succeeded(b, r) ensures Succeeded(rows, r) {
      assert b.tasks[r.task] == AbandonedTask(rows.tasks[r.task], w);
    }
  }

  /** Recovery reports runs of the restarted worker only, and none of its old jobs is left. */
  lemma RecoverReports(rows: Rows, w: Worker, m: Msg)
    requires m in Recover(rows, w).sends
    ensures m.ExecFailed? && HasRun(rows, m.run) && OwnedBy(RunAt(rows, m.run), w)
    ensures Taken(Recover(rows, w).rows, m.run) && !Succeeded(Recover(rows, w).rows, m.run)
  {
    assert Recover(rows, w).rows.tasks[m.run.task] == AbandonedTask(rows.tasks[m.run.task], w);
  }

  lemma CrashInv(s: State, w: Worker)
    ensures Kept(s, s.(jobs := WithoutWorker(s.jobs, w)))
  {
    if SystemInv(s) { SameRowsInv(s, s.(jobs := WithoutWorker(s.jobs, w))); }
  }

  lemma RestartInv(s: State, w: Worker)
    ensures Kept(s, Commit(s.(jobs := WithoutWorker(s.jobs, w)), Recover(s.rows, w)))
  {
    if SystemInv(s) {
      RecoverAdvances(s.rows, w);
      RestartFlight(s, Commit(s.(jobs := WithoutWorker(s.jobs, w)), Recover(s.rows, w)), w);
    }
  }

  lemma RestartFlight(s: State, t: State, w: Worker)
    requires LinkInv(s.rows) && FlightInv(s) && t.rows == Recover(s.rows, w).rows
    requires RowsAdvance(s.rows, t.rows) && NoNewSuccess(s.rows, t.rows, {})
    requires t.msgs == s.msgs + Recover(s.rows, w).sends && t.jobs == WithoutWorker(s.jobs, w)
    requires t.claims == s.claims && t.calls == s.calls
    ensures FlightInv(t)
  {
    forall m | m in Recover(s.rows, w).sends ensures Truthful(t.rows, t.jobs, m) {
      RecoverReports(s.rows, w, m);
      assert m.run in s.jobs ==> JobInv(s, m.run);
    }
    Carry(s, t, {});
  }

  // ---- every action --------------------------------------------------------------------------

  /** Every action keeps the invariant. */
  lemma NextInv(s: State, a: Action)
    requires SystemInv(s)
    ensures SystemInv(Next(s, a))
  {
    NextKept(s, a);
  }

  lemma NextKept(s: State, a: Action)
    ensures Kept(s, Next(s, a))
  {
    if a.Deliver? {
      DeliverInv(s, a.msg, a.at);
    } else if a.SubmitTask? {
      SubmitTaskInv(s, a);
    } else if a.Receive? || a.Refuse? || a.Begin? || a.Finish? || a.Crash? || a.Restart? {
      WorkerInv(s, a);
    } else if TaskSweep(a) || a.SweepWorkflow? {
      SweepInv(s, a);
    } else {
      MessageInv(s, a);
    }
  }

  lemma DeliverInv(s: State, m: Msg, at: Time)
    ensures Kept(s, Next(s, Deliver(m, at)))
  {
    DeliverAction(s, m, at);
    if m in s.msgs && SystemInv(s) { ReactInv(s, m, at); }
  }

  lemma SubmitKept(s: State, t: State, task: Task)
    requires ValidRetry(task.retry) && task.state == TaskPending && task.runs == []
    requires t == Send(s, NewTask(|s.rows.tasks|)).(rows := Submit(s.rows, task))
    ensures Kept(s, t)
  {
    if SystemInv(s) { SubmitInv(s, t, task); }
  }

  lemma SubmitTaskInv(s: State, a: Action)
    requires a.SubmitTask?
    ensures Kept(s, Next(s, a))
  {
    var task := Task(a.name, TaskPending, a.timing, a.deadline, a.retry, s.now, []);
    if !ValidRetry(a.retry) {
      assert Next(s, a) == s;
    } else {
      assert Next(s, a) == Send(s, NewTask(|s.rows.tasks|)).(rows := Submit(s.rows, task));
      SubmitKept(s, Next(s, a), task);
    }
  }

  lemma MessageInv(s: State, a: Action)
    requires a.Tick? || a.Queues? || a.AskProcess? || a.AskCancel? || a.AskRevive? || a.AskCancelTask? || a.Leak? || a.Notify?
    ensures Kept(s, Next(s, a))
  {
    match a
    case Tick(time) => assert Next(s, a) in {s, s.(now := time)}; OutsideInv(s, time, s.senders);
    case Queues(senders) => assert Next(s, a) == s.(senders := senders); OutsideInv(s, s.now, senders);
    case AskProcess => assert Next(s, a) == Send(s, ProcessWorkflow); AskInv(s, ProcessWorkflow);
    case AskCancel => assert Next(s, a) == Send(s, CancelWorkflow); AskInv(s, CancelWorkflow);
    case AskRevive(newDeadline) => assert Next(s, a) == Send(s, ReviveWorkflow(newDeadline)); AskInv(s, ReviveWorkflow(newDeadline));
    case AskCancelTask(t) => assert Next(s, a) == Send(s, CancelTask(t)); AskInv(s, CancelTask(t));
    case Leak(r) => assert Next(s, a) == Send(s, PendingInstance(r)); AskInv(s, PendingInstance(r));
    case Notify(i) =>
      if i < |s.rows.log| && Notice(s.rows.log[i]).Some? {
        assert Next(s, a) == Send(s, Notice(s.rows.log[i]).value);
        NoticeInv(s, i);
      } else {
        assert Next(s, a) == s;
      }
  }

  lemma OutsideInv(s: State, time: Time, senders: set<TaskName>)
    ensures Kept(s, s) && Kept(s, s.(now := time)) && Kept(s, s.(senders := senders))
  {
    if SystemInv(s) {
      SameRowsInv(s, s.(now := time));
      SameRowsInv(s, s.(senders := senders));
    }
  }

  /** A request that says nothing that could be untrue. */
  lemma AskInv(s: State, m: Msg)
    requires m.ProcessWorkflow? || m.CancelWorkflow? || m.ReviveWorkflow? || m.CancelTask? || m.PendingInstance?
    ensures Kept(s, Send(s, m))
  {
    if SystemInv(s) { SendInv(s, m); }
  }

  lemma NoticeInv(s: State, i: nat)
    requires i < |s.rows.log| && Notice(s.rows.log[i]).Some?
    ensures Kept(s, Send(s, Notice(s.rows.log[i]).value))
  {
    if SystemInv(s) {
      NoticeBacked(s.rows, i);
      SendInv(s, Notice(s.rows.log[i]).value);
    }
  }

  lemma WorkerInv(s: State, a: Action)
    requires a.Receive? || a.Refuse? || a.Begin? || a.Finish? || a.Crash? || a.Restart?
    ensures Kept(s, Next(s, a))
  {
    match a
    case Receive(r, w) => ClaimActions(s, r, w); ReceiveInv(s, r, w);
    case Refuse(r) => ClaimActions(s, r, ""); RefuseInv(s, r);
    case Begin(r, served, fault) => JobActions(s, r, served, fault, Fault); BeginInv(s, r, served, fault);
    case Finish(r, ending) => JobActions(s, r, false, false, ending); FinishInv(s, r, ending);
    case Crash(w) => CrashActions(s, w); CrashInv(s, w);
    case Restart(w) => CrashActions(s, w); RestartInv(s, w);
  }

  lemma SweepInv(s: State, a: Action)
    requires TaskSweep(a) || a.SweepWorkflow?
    ensures Kept(s, Next(s, a))
  {
    if a.SweepWorkflow? {
      SweepActions(s, a);
      ReconcileIsTx(s.rows, s.now);
      if SystemInv(s) { WorkflowTxInv(s, Reconcile(s.rows, s.now)); }
    } else {
      SweepActions(s, a);
      if SystemInv(s) {
        SweepIsStep(s, a);
        SchedulerInv(s, SweepEffect(s, a));
      }
    }
  }

  /** A sweep of the task engine is one of its scheduler's transactions, or nothing. */
  lemma SweepIsStep(s: State, a: Action)
    requires TasksInv(s.rows.tasks) && TaskSweep(a)
    ensures SchedulerStep(s.rows, SweepEffect(s, a))
  {
    if SweepEffect(s, a) == Ignore(s.rows) {
      NothingIsStep(s.rows);
    } else if a.SweepPending? || a.SweepCancelling? || a.SweepLateTask? {
      TaskSweepIsStep(s, a);
    } else {
      RunSweepIsStep(s, a);
    }
  }

  lemma NothingIsStep(rows: Rows)
    requires TasksInv(rows.tasks)
    ensures SchedulerStep(rows, Ignore(rows))
  {
  }

  lemma TaskSweepIsStep(s: State, a: Action)
    requires TasksInv(s.rows.tasks) && SweepEffect(s, a) != Ignore(s.rows)
    requires a.SweepPending? || a.SweepCancelling? || a.SweepLateTask?
    ensures SchedulerStep(s.rows, SweepEffect(s, a))
  {
    match a
    case SweepPending(t) => assert SweepEffect(s, a) == Activate(s.rows, t, s.senders); ActivateStep(s.rows, t, s.senders);
    case SweepCancelling(t) => assert SweepEffect(s, a) == StopTask(s.rows, t); StopTaskStep(s.rows, t);
    case SweepLateTask(t) => assert SweepEffect(s, a) == TimeOutTask(s.rows, t); TimeOutTaskStep(s.rows, t);
  }

  lemma RunSweepIsStep(s: State, a: Action)
    requires TasksInv(s.rows.tasks) && SweepEffect(s, a) != Ignore(s.rows)
    requires a.SweepProcessed? || a.SweepFailed? || a.SweepDue? || a.SweepLateRun?
    ensures SchedulerStep(s.rows, SweepEffect(s, a))
  {
    match a
    case SweepProcessed(r) => assert SweepEffect(s, a) == CompleteRun(s.rows, r); CompleteRunStep(s.rows, r);
    case SweepFailed(r, at) => assert SweepEffect(s, a) == FailRun(s.rows, r, at); FailRunStep(s.rows, r, at);
    case SweepDue(r) => assert SweepEffect(s, a) == StartRun(s.rows, r, s.senders); StartRunStep(s.rows, r, s.senders);
    case SweepLateRun(r) => assert SweepEffect(s, a) == TimeOutRun(s.rows, r); TimeOutRunStep(s.rows, r);
  }
}
