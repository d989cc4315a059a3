/** Delivering a message twice changes the rows no more than delivering it once: on every state the
    invariant admits, for both schedulers, including the deliveries that roll back. */
module Idempotence {
  import opened Prelude
  import opened Tables
  import opened Backoff
  import opened StepGraph
  import opened Rows
  import opened WorkflowSpec
  import opened WorkflowInvariants
  import opened TaskSpec
  import opened TaskInvariants
  import opened LinkInvariants
  import opened System
  import opened SystemInvariants
  import opened Guarantees
  import SpecValidation

  lemma ProcessTwice(rows: Rows)
    ensures Process(Process(rows).rows).rows == Process(rows).rows
  {
    if !HardStop(rows.wf.state) {
      var ready, b := Ready(rows.steps), Process(rows).rows;
      forall n | n in rows.steps && rows.steps[n].state == StepDefined && n !in ready ensures !Startable(b.steps, n) {
        var p :| p in rows.steps[n].parents && p in rows.steps && rows.steps[p].state != StepComplete;
        assert b.steps[p].state != StepComplete;
      }
      assert Ready(b.steps) == {};
    }
  }

  lemma TimeOutTwice(rows: Rows)
    ensures TimeOut(TimeOut(rows).rows).rows == TimeOut(rows).rows
  {
    MovedStates(rows, {StepDefined, StepPending, StepRunning}, StepTimedOut);
    var b := TimeOut(rows).rows;
    if rows.wf.state in {WfRunning, WfTimedOut} {
      assert WithState(b.steps, {StepDefined, StepPending, StepRunning}) == {};
    }
  }

  lemma ScheduleTwice(rows: Rows, n: Name, now: Time)
    requires Agrees(rows)
    ensures WorkflowSpec.Schedule(WorkflowSpec.Schedule(rows, n, now).rows, n, now).rows
         == WorkflowSpec.Schedule(rows, n, now).rows
  {
    if n in rows.steps && !HardStop(rows.wf.state) && rows.steps[n].state == StepPending {
      if now > rows.wf.deadline { TimeOutAgrees(rows); } else { assert Dispatch(rows, n, now).steps[n].state == StepRunning; }
    }
  }

  lemma OutcomeTwice(rows: Rows, n: Name, outcome: StepState)
    requires Agrees(rows) && rows.wf.state != WfPending
    ensures ApplyOutcome(ApplyOutcome(rows, n, outcome).rows, n, outcome).rows == ApplyOutcome(rows, n, outcome).rows
  {
    var b := ApplyOutcome(rows, n, outcome).rows;
    if b != rows {
      ApplyOutcomeAgrees(rows, n, outcome);
      NothingToSettle(b);
      AppliedSettles(rows, n, outcome);
    }
  }

  /** An outcome that changed anything left its step settled. */
  lemma AppliedSettles(rows: Rows, n: Name, outcome: StepState)
    requires Agrees(rows) && ApplyOutcome(rows, n, outcome).rows != rows
    ensures n in rows.steps && n in ApplyOutcome(rows, n, outcome).rows.steps
    ensures SettledStep(ApplyOutcome(rows, n, outcome).rows.steps[n].state)
  {
    OutcomeShapes(rows, n, outcome);
    NothingToSettle(rows);
    if ApplyOutcome(rows, n, outcome).rows == TimeOut(rows).rows {
      TimedOutSettles(rows, n);
    } else {
      ShapeSettles(rows, n, outcome, ApplyOutcome(rows, n, outcome).rows);
    }
  }

  lemma TimedOutSettles(rows: Rows, n: Name)
    requires TimeOut(rows).rows != rows && n in rows.steps && rows.steps[n].state != StepCancelling
    ensures n in TimeOut(rows).rows.steps && SettledStep(TimeOut(rows).rows.steps[n].state)
  {
    MovedStates(rows, {StepDefined, StepPending, StepRunning}, StepTimedOut);
  }

  lemma ShapeSettles(rows: Rows, n: Name, outcome: StepState, b: Rows)
    requires n in rows.steps && OutcomeShape(rows, n, outcome, b)
    ensures n in b.steps && SettledStep(b.steps[n].state)
  {
  }

  lemma TaskOutcomeTwice(rows: Rows, t: TaskId, outcome: StepState)
    requires FlowInv(rows) && LinkInv(rows) && Backed(rows, TaskUpdate(t, outcome))
    ensures ApplyTaskOutcome(ApplyTaskOutcome(rows, t, outcome).rows, t, outcome).rows
         == ApplyTaskOutcome(rows, t, outcome).rows
  {
    if StepOfTask(rows.steps, t).Some? {
      var n := StepOfTask(rows.steps, t).value;
      var b := ApplyOutcome(rows, n, outcome).rows;
      TaskOutcomeLinks(rows, t, outcome);
      ApplyOutcomeSteps(rows, n, outcome);
      assert t in b.steps[n].attempts;
      LinkResolves(b, n, t);
      OutcomeTwice(rows, n, outcome);
    }
  }

  lemma CancelTwice(rows: Rows)
    ensures Cancel(Cancel(rows).rows).rows == Cancel(rows).rows
  {
  }

  lemma ReviveTwice(rows: Rows, newDeadline: Option<Time>, now: Time)
    ensures Revive(Revive(rows, newDeadline, now).rows, newDeadline, now).rows == Revive(rows, newDeadline, now).rows
  {
  }

  /** A second pass of the sweep at the same time writes nothing. */
  lemma ReconcileTwice(rows: Rows, now: Time)
    requires FlowInv(rows)
    ensures Reconcile(Reconcile(rows, now).rows, now).rows == Reconcile(rows, now).rows
  {
    ReconcileKeeps(rows, now);
    TimeOutTwice(rows);
  }

  lemma HandleTwice(rows: Rows, m: Msg, now: Time)
    requires RowsInv(rows) && ForWorkflow(m) && Backed(rows, m)
    ensures Handle(Handle(rows, m, now).rows, m, now).rows == Handle(rows, m, now).rows
  {
    match m
    case ProcessWorkflow => ProcessTwice(rows);
    case ScheduleStep(n) => ScheduleTwice(rows, n, now);
    case ExecUpdate(n, outcome) => OutcomeTwice(rows, n, outcome);
    case TaskUpdate(t, outcome) => TaskOutcomeTwice(rows, t, outcome);
    case CancelWorkflow => CancelTwice(rows);
    case ReviveWorkflow(newDeadline) => ReviveTwice(rows, newDeadline, now);
  }

  // ---- the task scheduler --------------------------------------------------------------------

  /** The task scheduler's own messages, in any state at all. */
  lemma EngineTwice(rows: Rows, m: Msg, now: Time, at: Time, senders: set<TaskName>)
    requires !ForWorkflow(m)
    ensures React(React(rows, m, now, at, senders).rows, m, now, at, senders).rows == React(rows, m, now, at, senders).rows
  {
    match m
    case NewTask(t) =>
    case CancelTask(t) =>
    case ExecSucceeded(r) =>
    case ExecFailed(r) => FailRunTwice(rows, r, at);
    case EngineFailed(r) =>
    case PendingInstance(r) =>
  }

  lemma FailRunTwice(rows: Rows, r: RunId, at: Time)
    ensures FailRun(FailRun(rows, r, at).rows, r, at).rows == FailRun(rows, r, at).rows
  {
    if HasRun(rows, r) && CanFinalize(RunAt(rows, r).state) {
      var b := FailRun(rows, r, at).rows;
      assert HasRun(b, r) && RunAt(b, r).state == RunFinalized;
    }
  }

  lemma TwiceIsOnce(s: State, m: Msg, at: Time)
    requires SystemInv(s) && m in s.msgs
    ensures var once := React(s.rows, m, s.now, at, s.senders).rows; React(once, m, s.now, at, s.senders).rows == once
  {
    assert Truthful(s.rows, s.jobs, m);
    if ForWorkflow(m) { HandleTwice(s.rows, m, s.now); } else { EngineTwice(s.rows, m, s.now, at, s.senders); }
  }

  /** In every state the two engines can reach, delivering any message in flight twice, or sweeping
      twice, leaves the rows as doing it once does. */
  lemma DeliveredTwice(spec: SpecValidation.WorkflowSpec, start: Time, actions: seq<Action>, m: Msg, at: Time)
    requires SpecValidation.Sound(spec)
    ensures var s := Reached(spec, start, actions);
            var once := React(s.rows, m, s.now, at, s.senders).rows;
            m in s.msgs ==> React(once, m, s.now, at, s.senders).rows == once
    ensures var s := Reached(spec, start, actions);
            var once := Reconcile(s.rows, s.now).rows;
            Reconcile(once, s.now).rows == once
  {
    ReachedInv(spec, start, actions);
    var s := Reached(spec, start, actions);
    if m in s.msgs { TwiceIsOnce(s, m, at); }
    ReconcileTwice(s.rows, s.now);
  }
}
