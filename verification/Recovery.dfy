/** What the maintenance sweep makes up for, and where the code does less than its comments say. */
module Recovery {
  import opened Prelude
  import opened Tables
  import opened Backoff
  import opened StepGraph
  import opened Rows
  import opened WorkflowSpec
  import opened WorkflowInvariants
  import opened TaskSpec
  import opened TaskInvariants
  import opened AuditInvariants
  import opened LinkInvariants
  import opened System
  import opened SystemInvariants

  /** Handling `p` on these rows would write nothing and send nothing. */
  ghost predicate NoOp(rows: Rows, p: Msg, now: Time)
    requires ForWorkflow(p)
  {
    Handle(rows, p, now) in {Ignore(rows), Abort(rows)}
  }

  /** A lost fan-out or schedule poke: before the deadline, on any rows whatever, the sweep sends it
      again unless handling it would do nothing. */
  lemma LostPokeResent(rows: Rows, p: Msg, now: Time)
    requires p.ProcessWorkflow? || p.ScheduleStep?
    requires now < rows.wf.deadline
    ensures p in Reconcile(rows, now).sends || NoOp(rows, p, now)
  {
    if p.ProcessWorkflow? && p !in Reconcile(rows, now).sends {
      assert WithState(rows.steps, {StepDefined}) == {};
      assert forall n :: n in rows.steps && rows.steps[n].state == StepDefined ==> n in WithState(rows.steps, {StepDefined});
      assert Ready(rows.steps) == {};
      assert (set n | n in Ready(rows.steps) :: ScheduleStep(n)) == {};
    }
  }

  /** What the handlers send for the workflow scheduler is nothing but such pokes, so losing all of it
      right after the commit loses nothing. */
  lemma HandlerPokesResent(rows: Rows, m: Msg, now: Time, later: Time)
    requires ForWorkflow(m) && later < Handle(rows, m, now).rows.wf.deadline
    ensures var b := Handle(rows, m, now).rows;
            forall p :: p in Handle(rows, m, now).sends && ForWorkflow(p) ==>
                          (p.ProcessWorkflow? || p.ScheduleStep?) && (p in Reconcile(b, later).sends || NoOp(b, p, later))
  {
    var b := Handle(rows, m, now).rows;
    HandleSends(rows, m, now);
    forall p | p in Handle(rows, m, now).sends && ForWorkflow(p)
      ensures (p.ProcessWorkflow? || p.ScheduleStep?) && (p in Reconcile(b, later).sends || NoOp(b, p, later))
    {
      assert Poke(p);
      LostPokeResent(b, p, later);
    }
  }

  /** A lost request to run a new task: the task is still PENDING, which the task sweep looks for, and the
      sweep does what the request would have done. If the queue takes messages, that is to activate the task
      and to request its first run. */
  lemma LostSubmissionResent(s: State, m: Msg, t: TaskId, at: Time)
    requires ForWorkflow(m) && NewTask(t) in Handle(s.rows, m, s.now).sends
    ensures var b := s.(rows := Handle(s.rows, m, s.now).rows);
            && t < |b.rows.tasks| && b.rows.tasks[t].state == TaskPending
            && Next(b, SweepPending(t)).rows == Next(Send(b, NewTask(t)), Deliver(NewTask(t), at)).rows
            && (WORKFLOW_TASK in s.senders ==>
                  && Next(b, SweepPending(t)).rows.tasks[t].state == TaskActive
                  && PendingInstance(RunId(t, 0)) in Next(b, SweepPending(t)).msgs)
  {
    var b := s.(rows := Handle(s.rows, m, s.now).rows);
    SubmittedIsNew(s.rows, m, s.now, t);
    SweepIsSubmission(b, t, at);
  }

  lemma SubmittedIsNew(rows: Rows, m: Msg, now: Time, t: TaskId)
    requires ForWorkflow(m) && NewTask(t) in Handle(rows, m, now).sends
    ensures var tasks := Handle(rows, m, now).rows.tasks;
            && t < |tasks| && tasks[t].state == TaskPending && tasks[t].timing == Immediate
            && tasks[t].name == WORKFLOW_TASK && tasks[t].runs == []
  {
  }

  lemma SweepIsSubmission(b: State, t: TaskId, at: Time)
    requires t < |b.rows.tasks| && b.rows.tasks[t].state == TaskPending && b.rows.tasks[t].timing == Immediate
    requires b.rows.tasks[t].name == WORKFLOW_TASK && b.rows.tasks[t].runs == []
    ensures Next(b, SweepPending(t)).rows == Next(Send(b, NewTask(t)), Deliver(NewTask(t), at)).rows
    ensures WORKFLOW_TASK in b.senders ==>
              && Next(b, SweepPending(t)).rows.tasks[t].state == TaskActive
              && PendingInstance(RunId(t, 0)) in Next(b, SweepPending(t)).msgs
  {
  }

  /** A lost outcome: once the current attempt of a RUNNING or CANCELLING step has ended, the sweep
      synthesizes an outcome that does exactly what the lost notification would have done. */
  lemma LostOutcomeReplaced(rows: Rows, n: Name, now: Time)
    requires RowsInv(rows) && now < rows.wf.deadline
    requires n in rows.steps && rows.steps[n].state in {StepRunning, StepCancelling}
    requires TerminalTask(CurrentState(rows, n))
    ensures exists outcome ::
              && ExecUpdate(n, outcome) in Reconcile(rows, now).sends
              && ApplyOutcome(rows, n, outcome) == ApplyTaskOutcome(rows, Current(rows, n), OutcomeOf(CurrentState(rows, n)))
  {
    AllAttemptsEnded(rows, n);
    LinkResolves(rows, n, Current(rows, n));
    OutcomeIsSwept(rows, n);
    var outcome := if rows.steps[n].state == StepRunning then OutcomeOf(CurrentState(rows, n)) else StepCancelled;
    assert ExecUpdate(n, outcome) in Reconcile(rows, now).sends;
    if rows.steps[n].state == StepCancelling { AllOutcomesCancel(rows, n, OutcomeOf(CurrentState(rows, n))); }
  }

  lemma OutcomeIsSwept(rows: Rows, n: Name)
    requires n in rows.steps && rows.steps[n].attempts != [] && AllTerminal(rows, rows.steps[n].attempts)
    ensures rows.steps[n].state == StepRunning ==> ExecUpdate(n, OutcomeOf(CurrentState(rows, n))) in SweptOutcomes(rows)
    ensures rows.steps[n].state == StepCancelling ==> ExecUpdate(n, StepCancelled) in SweptOutcomes(rows)
  {
  }

  /** A draining step ends CANCELLED whatever its outcome. */
  lemma AllOutcomesCancel(rows: Rows, n: Name, outcome: StepState)
    requires Agrees(rows) && n in rows.steps && rows.steps[n].state == StepCancelling && SettledStep(outcome)
    ensures ApplyOutcome(rows, n, outcome) == ApplyOutcome(rows, n, StepCancelled)
  {
  }

  lemma AllAttemptsEnded(rows: Rows, n: Name)
    requires n in rows.steps && StepLinks(rows, n) && rows.steps[n].state in {StepRunning, StepCancelling}
    requires TerminalTask(CurrentState(rows, n))
    ensures rows.steps[n].attempts != [] && AllTerminal(rows, rows.steps[n].attempts)
  {
    var attempts := rows.steps[n].attempts;
    forall t | t in attempts ensures TerminalTask(TaskStateAt(rows.tasks, t)) {
      var i :| 0 <= i < |attempts| && attempts[i] == t;
    }
  }

  function Current(rows: Rows, n: Name): TaskId
    requires n in rows.steps
  {
    var attempts := rows.steps[n].attempts;
    if attempts == [] then 0 else attempts[|attempts| - 1]
  }

  function CurrentState(rows: Rows, n: Name): TaskState
    requires n in rows.steps
  {
    TaskStateAt(rows.tasks, Current(rows, n))
  }

  // ---- what commits --------------------------------------------------------------------------

  /** The whole-workflow timeout commits exactly from RUNNING and TIMED_OUT. So past the deadline a
      PENDING, FAILED or CANCELLING workflow is left as it is, sweep after sweep. */
  lemma TimeOutCommits(rows: Rows, now: Time)
    requires RowsInv(rows) && rows.wf.deadline <= now
    ensures Reconcile(rows, now).ok <==> rows.wf.state in {WfRunning, WfTimedOut}
    ensures Reconcile(rows, now).rows.wf.state == WfTimedOut <==> rows.wf.state in {WfRunning, WfTimedOut}
    ensures !Reconcile(rows, now).ok ==> Reconcile(rows, now).rows == rows && Reconcile(rows, now).sends == {}
  {
  }

  /** The outcomes a step takes. CANCELLED is never one of them while the step is RUNNING, and TIMED_OUT on
      a live step only while the workflow is RUNNING. */
  predicate Takes(wf: WorkflowState, state: StepState, outcome: StepState) {
    match state
    case StepDefined => (outcome == StepTimedOut && wf == WfRunning) || outcome == StepCancelled
    case StepPending => (outcome == StepTimedOut && wf == WfRunning) || outcome == StepCancelled
    case StepRunning => (outcome == StepTimedOut && wf == WfRunning) || outcome in {StepComplete, StepFailed}
    case StepCancelling => true
    case _ => false
  }

  /** Exactly when an outcome commits: the step takes it, or is settled and ignores it. Exactly when it
      changes the rows: the step takes it. */
  lemma OutcomeCommits(rows: Rows, n: Name, outcome: StepState)
    requires RowsInv(rows) && rows.wf.state != WfPending && n in rows.steps && SettledStep(outcome)
    ensures var state := rows.steps[n].state;
            && (ApplyOutcome(rows, n, outcome).ok <==> SettledStep(state) || Takes(rows.wf.state, state, outcome))
            && (ApplyOutcome(rows, n, outcome).rows != rows <==> Takes(rows.wf.state, state, outcome))
  {
    var state := rows.steps[n].state;
    NothingToSettle(rows);
    if SettledStep(state) {
      SettledIgnores(rows, n, outcome);
    } else if rows.wf.state in {WfCancelling, WfCancelled} {
      LiveStepMeansLiveWorkflow(rows, n);
      assert state == StepCancelling;
      CancelledChanges(rows, n, outcome);
    } else {
      LiveStepMeansLiveWorkflow(rows, n);
      assert state != StepCancelling;
      LiveOutcome(rows, n, outcome);
    }
  }

  lemma SettledIgnores(rows: Rows, n: Name, outcome: StepState)
    requires n in rows.steps && SettledStep(outcome) && SettledStep(rows.steps[n].state) && !Settles(rows)
    ensures ApplyOutcome(rows, n, outcome) == Ignore(rows)
  {
  }

  lemma CancelledChanges(rows: Rows, n: Name, outcome: StepState)
    requires n in rows.steps && SettledStep(outcome) && rows.wf.state in {WfCancelling, WfCancelled}
    requires rows.steps[n].state == StepCancelling
    ensures ApplyOutcome(rows, n, outcome).ok && ApplyOutcome(rows, n, outcome).rows != rows
  {
    SettleKeepsLog(MoveSteps(rows, {n}, StepCancelled));
  }

  /** An outcome of a live step while nothing is being cancelled. */
  lemma LiveOutcome(rows: Rows, n: Name, outcome: StepState)
    requires n in rows.steps && SettledStep(outcome) && rows.wf.state in {WfRunning, WfFailed}
    requires rows.steps[n].state in {StepDefined, StepPending, StepRunning}
    ensures ApplyOutcome(rows, n, outcome).ok == Takes(rows.wf.state, rows.steps[n].state, outcome)
    ensures ApplyOutcome(rows, n, outcome).rows != rows <==> ApplyOutcome(rows, n, outcome).ok
  {
    if outcome == StepTimedOut {
      assert rows.wf.state == WfFailed ==> TimeOut(rows) == Abort(rows);
      assert rows.wf.state == WfRunning ==> TimeOut(rows).rows.wf.state == WfTimedOut;
    } else {
      SettleKeepsLog(MoveSteps(rows, {n}, outcome));
    }
  }

  lemma SettleKeepsLog(rows: Rows)
    ensures |Settle(rows).log| >= |rows.log|
  {
  }

  /** The reducer knows the step, not the attempt: an outcome of an earlier attempt that is delivered
      late does to a revived step what the same outcome of the current attempt would do. */
  lemma AttemptIsNotLookedAt(rows: Rows, n: Name, early: TaskId, late: TaskId, outcome: StepState)
    requires LinkInv(rows) && n in rows.steps && early in rows.steps[n].attempts && late in rows.steps[n].attempts
    ensures ApplyTaskOutcome(rows, early, outcome) == ApplyTaskOutcome(rows, late, outcome)
  {
    LinkResolves(rows, n, early);
    LinkResolves(rows, n, late);
  }

  /** So a late outcome of any attempt changes the rows exactly when the step, in the state it is in now,
      takes it. */
  lemma LateOutcomeChanges(rows: Rows, n: Name, t: TaskId, outcome: StepState)
    requires RowsInv(rows) && n in rows.steps && t in rows.steps[n].attempts && SettledStep(outcome)
    ensures ApplyTaskOutcome(rows, t, outcome).rows != rows <==> Takes(rows.wf.state, rows.steps[n].state, outcome)
  {
    LinkResolves(rows, n, t);
    OutcomeCommits(rows, n, outcome);
  }

  /** Engine failures are final only if they are reported before the sweep finds the FAILED row: if the
      sweep is first, the task ends FAILED exactly when no retry is due. */
  lemma EngineFailureRace(rows: Rows, r: RunId, at: Time)
    requires TasksInv(rows.tasks) && HasRun(rows, r) && RunAt(rows, r).state == RunFailed
    requires rows.tasks[r.task].state == TaskActive
    ensures EngineFailRun(rows, r).rows.tasks[r.task].state == TaskFailed
    ensures EngineFailRun(FailRun(rows, r, at).rows, r).rows.tasks[r.task].state == TaskFailed <==>
            NoRetryLeft(rows.tasks[r.task], RunAt(rows, r))
  {
    NotLastIsSuperseded(rows, r);
    FailRunShapes(rows, r, at);
    DelayBounds(rows.tasks[r.task].retry, |rows.tasks[r.task].runs| - 1);
    FailRunThenEngine(rows, r, at);
  }

  lemma FailRunThenEngine(rows: Rows, r: RunId, at: Time)
    requires HasRun(rows, r) && CanFinalize(RunAt(rows, r).state)
    ensures var b := FailRun(rows, r, at).rows; EngineFailRun(b, r).rows == b
  {
    var b := FailRun(rows, r, at).rows;
    assert HasRun(b, r) && RunAt(b, r).state == RunFinalized;
  }

  /** A run that succeeded and whose request was delivered twice: whichever of the success and the
      refused second claim is handled first decides the task. */
  lemma DuplicateRequestRace(rows: Rows, r: RunId)
    requires TasksInv(rows.tasks) && HasRun(rows, r) && RunAt(rows, r).state == RunProcessed
    requires rows.tasks[r.task].state == TaskActive
    ensures CompleteRun(EngineFailRun(rows, r).rows, r).rows.tasks[r.task].state == TaskFailed
    ensures EngineFailRun(CompleteRun(rows, r).rows, r).rows.tasks[r.task].state == TaskComplete
  {
  }
}
