/** What every workflow handler keeps: agreement of the workflow state with the step states, the
    dependency order, mirrored deadlines, and the finality of COMPLETE and CANCELLED. */
module WorkflowInvariants {
  import opened Prelude
  import opened Tables
  import opened StepGraph
  import opened Rows
  import opened WorkflowSpec
  import SpecValidation

  predicate Has(steps: map<Name, Step>, state: StepState) {
    exists n :: n in steps && steps[n].state == state
  }

  /** The workflow state agrees with its steps. */
  predicate Aggregate(wf: WorkflowState, steps: map<Name, Step>) {
    && steps.Keys != {}
    && (wf == WfComplete <==> AllComplete(steps))
    && (wf == WfFailed <==> Has(steps, StepFailed))
    && (wf == WfCancelling <==> Has(steps, StepCancelling))
    && (wf == WfPending ==> AllIn(steps, {StepDefined}))
    && (Has(steps, StepTimedOut) ==> wf == WfTimedOut)
    && (wf == WfTimedOut ==> AllIn(steps, {StepTimedOut, StepComplete, StepCancelled}))
    && (wf == WfCancelling ==> AllIn(steps, {StepCancelling, StepComplete, StepCancelled}))
    && (wf == WfCancelled ==> AllIn(steps, {StepComplete, StepCancelled}))
  }

  predicate Agrees(rows: Rows) {
    Aggregate(rows.wf.state, rows.steps)
  }

  predicate Begun(state: StepState) {
    state in {StepPending, StepRunning, StepCancelling, StepFailed, StepComplete}
  }

  predicate ParentsComplete(steps: map<Name, Step>, n: Name)
    requires n in steps
  {
    forall p :: p in steps[n].parents ==> p in steps && steps[p].state == StepComplete
  }

  /** No step has begun before its parents were COMPLETE. */
  predicate DependencyOrder(steps: map<Name, Step>) {
    forall n {:trigger ParentsComplete(steps, n)} :: n in steps && Begun(steps[n].state) ==> ParentsComplete(steps, n)
  }

  /** Every step that can still move carries the workflow's deadline. */
  predicate Mirrored(rows: Rows) {
    forall n :: n in rows.steps && rows.steps[n].state !in {StepComplete, StepCancelled} ==>
                  rows.steps[n].deadline == rows.wf.deadline
  }

  /** The invariants that speak of single steps and their parents. */
  ghost predicate StepsInv(rows: Rows) {
    && KnownParents(GraphOf(rows.steps))
    && DependencyOrder(rows.steps)
    && Mirrored(rows)
  }

  ghost predicate FlowInv(rows: Rows) {
    StepsInv(rows) && Aggregate(rows.wf.state, rows.steps)
  }

  /** What no handler ever undoes. */
  predicate Advances(a: Rows, b: Rows) {
    && a.steps.Keys == b.steps.Keys
    && (forall n :: n in a.steps ==>
                     && a.steps[n].parents == b.steps[n].parents && a.steps[n].retry == b.steps[n].retry
                     && a.steps[n].attempts <= b.steps[n].attempts)
    && (forall n :: n in a.steps && a.steps[n].state in {StepComplete, StepCancelled} ==> b.steps[n] == a.steps[n])
    && (a.wf.state in {WfComplete, WfCancelled} ==> b.wf == a.wf)
    && (a.wf.state != WfPending ==> b.wf.state != WfPending)
    && a.tasks <= b.tasks
    && a.log <= b.log
  }

  /** Once cancellation has begun nothing is dispatched and nothing completes. */
  predicate CancellationHolds(a: Rows, b: Rows) {
    a.wf.state in {WfCancelling, WfCancelled} ==>
      && b.wf.state in {WfCancelling, WfCancelled}
      && b.tasks == a.tasks
      && forall n :: n in a.steps && n in b.steps ==>
                       && b.steps[n].attempts == a.steps[n].attempts
                       && (b.steps[n].state == StepComplete ==> a.steps[n].state == StepComplete)
  }

  ghost predicate Keeps(a: Rows, b: Rows) {
    && FlowInv(b)
    && Advances(a, b)
    && CancellationHolds(a, b)
  }

  lemma AdvancesTransitive(a: Rows, b: Rows, c: Rows)
    requires Advances(a, b) && Advances(b, c)
    ensures Advances(a, c)
  {
  }

  lemma SameGraph(a: Rows, b: Rows)
    requires a.steps.Keys == b.steps.Keys
    requires forall n :: n in a.steps ==> a.steps[n].parents == b.steps[n].parents
    ensures GraphOf(a.steps) == GraphOf(b.steps)
  {
  }

  lemma MoveAdvances(rows: Rows, names: set<Name>, state: StepState)
    requires forall n :: n in names ==> n in rows.steps && rows.steps[n].state !in {StepComplete, StepCancelled}
    ensures Advances(rows, MoveSteps(rows, names, state))
  {
  }

  /** A group write that respects finality and starts no step before its parents are COMPLETE. */
  lemma MoveKeeps(rows: Rows, names: set<Name>, state: StepState)
    requires StepsInv(rows)
    requires forall n :: n in names ==> n in rows.steps && rows.steps[n].state !in {StepComplete, StepCancelled}
    requires forall n :: n in names && Begun(state) ==> ParentsComplete(rows.steps, n)
    ensures StepsInv(MoveSteps(rows, names, state)) && Advances(rows, MoveSteps(rows, names, state))
  {
    var b := MoveSteps(rows, names, state);
    MoveAdvances(rows, names, state);
    SameGraph(rows, b);
    forall n | n in b.steps && Begun(b.steps[n].state) ensures ParentsComplete(b.steps, n) {
      assert ParentsComplete(rows.steps, n);
    }
  }

  lemma MoveWfKeeps(rows: Rows, state: WorkflowState)
    requires StepsInv(rows) && rows.wf.state !in {WfComplete, WfCancelled} && state != WfPending
    ensures StepsInv(MoveWf(rows, state)) && Advances(rows, MoveWf(rows, state))
  {
  }

  lemma SettleKeeps(rows: Rows)
    requires StepsInv(rows)
    ensures StepsInv(Settle(rows)) && Advances(rows, Settle(rows))
  {
  }

  lemma ProcessKeeps(rows: Rows)
    requires FlowInv(rows)
    ensures Keeps(rows, Process(rows).rows)
  {
    if !HardStop(rows.wf.state) {
      var a, ready := Started(rows), Ready(rows.steps);
      if rows.wf.state == WfPending { MoveWfKeeps(rows, WfRunning); }
      ReadyParents(rows);
      MoveKeeps(a, ready, StepPending);
      AdvancesTransitive(rows, a, MoveSteps(a, ready, StepPending));
      StartAgrees(a, ready);
    }
  }

  lemma ReadyParents(rows: Rows)
    requires StepsInv(rows)
    ensures forall n :: n in Ready(rows.steps) ==> ParentsComplete(rows.steps, n)
  {
    forall n | n in Ready(rows.steps) ensures ParentsComplete(rows.steps, n) {
      assert GraphOf(rows.steps)[n] == rows.steps[n].parents;
    }
  }

  lemma StartAgrees(rows: Rows, ready: set<Name>)
    requires Agrees(rows) || (rows.wf.state == WfRunning && Aggregate(WfPending, rows.steps))
    requires rows.wf.state in {WfRunning, WfFailed}
    requires forall n :: n in ready ==> n in rows.steps && rows.steps[n].state == StepDefined
    ensures Aggregate(rows.wf.state, MoveSteps(rows, ready, StepPending).steps)
  {
    var steps := MoveSteps(rows, ready, StepPending).steps;
    assert forall n :: n in steps ==> steps[n].state == rows.steps[n].state || n in ready;
  }

  lemma TimeOutSteps(rows: Rows)
    requires StepsInv(rows)
    ensures StepsInv(TimeOut(rows).rows) && Advances(rows, TimeOut(rows).rows)
  {
    var open := WithState(rows.steps, {StepDefined, StepPending, StepRunning});
    var moved := MoveSteps(rows, open, StepTimedOut);
    MoveKeeps(rows, open, StepTimedOut);
    if rows.wf.state == WfRunning {
      MoveWfKeeps(moved, WfTimedOut);
      AdvancesTransitive(rows, moved, MoveWf(moved, WfTimedOut));
    }
  }

  /** A group write of all steps in certain states, seen step by step. */
  lemma MovedStates(rows: Rows, states: set<StepState>, state: StepState)
    ensures var b := MoveSteps(rows, WithState(rows.steps, states), state);
            && b.steps.Keys == rows.steps.Keys && b.wf == rows.wf
            && forall n :: n in rows.steps ==>
                             b.steps[n].state == if rows.steps[n].state in states then state else rows.steps[n].state
  {
    var names := WithState(rows.steps, states);
    assert forall n :: n in rows.steps ==> (n in names <==> rows.steps[n].state in states);
  }

  lemma TimeOutAgrees(rows: Rows)
    requires Agrees(rows)
    ensures Agrees(TimeOut(rows).rows)
  {
    MovedStates(rows, {StepDefined, StepPending, StepRunning}, StepTimedOut);
    var open := WithState(rows.steps, {StepDefined, StepPending, StepRunning});
    if rows.wf.state == WfRunning {
      OpenTimedOut(rows, MoveSteps(rows, open, StepTimedOut).steps);
    } else if rows.wf.state == WfTimedOut {
      SameStatesAgree(WfTimedOut, rows.steps, MoveSteps(rows, open, StepTimedOut).steps);
    }
  }

  lemma OpenTimedOut(rows: Rows, steps: map<Name, Step>)
    requires Aggregate(WfRunning, rows.steps) && steps.Keys == rows.steps.Keys
    requires forall n :: n in steps ==>
                           steps[n].state == if rows.steps[n].state in {StepDefined, StepPending, StepRunning}
                                             then StepTimedOut else rows.steps[n].state
    ensures Aggregate(WfTimedOut, steps)
  {
    forall n | n in steps ensures steps[n].state in {StepTimedOut, StepComplete, StepCancelled} {
      assert rows.steps[n].state !in {StepFailed, StepCancelling};
    }
    var n :| n in rows.steps && rows.steps[n].state != StepComplete;
    assert steps[n].state != StepComplete;
  }

  lemma TimeOutKeeps(rows: Rows)
    requires FlowInv(rows)
    ensures Keeps(rows, TimeOut(rows).rows)
  {
    TimeOutSteps(rows);
    TimeOutAgrees(rows);
  }

  lemma DispatchKeeps(rows: Rows, n: Name, now: Time)
    requires StepsInv(rows) && n in rows.steps && rows.steps[n].state == StepPending
    ensures StepsInv(Dispatch(rows, n, now)) && Advances(rows, Dispatch(rows, n, now))
  {
    var linked := rows.(tasks := rows.tasks + [StepTask(rows.steps[n], now)],
                        steps := rows.steps[n := rows.steps[n].(attempts := rows.steps[n].attempts + [|rows.tasks|])]);
    SameGraph(rows, linked);
    forall m | m in linked.steps && Begun(linked.steps[m].state) ensures ParentsComplete(linked.steps, m) {
      assert ParentsComplete(rows.steps, m);
    }
    assert ParentsComplete(linked.steps, n);
    assert StepsInv(linked) && Advances(rows, linked);
    MoveKeeps(linked, {n}, StepRunning);
    AdvancesTransitive(rows, linked, MoveSteps(linked, {n}, StepRunning));
  }

  lemma DispatchAgrees(rows: Rows, n: Name, now: Time)
    requires Agrees(rows) && rows.wf.state in {WfRunning, WfFailed}
    requires n in rows.steps && rows.steps[n].state == StepPending
    ensures Agrees(Dispatch(rows, n, now))
  {
    var steps := Dispatch(rows, n, now).steps;
    assert steps[n].state == StepRunning;
    assert forall m :: m in steps && m != n ==> steps[m] == rows.steps[m];
  }

  lemma ScheduleSteps(rows: Rows, n: Name, now: Time)
    requires StepsInv(rows)
    ensures StepsInv(WorkflowSpec.Schedule(rows, n, now).rows)
    ensures Advances(rows, WorkflowSpec.Schedule(rows, n, now).rows)
  {
    var e := WorkflowSpec.Schedule(rows, n, now);
    if e.rows == rows {
    } else if now > rows.wf.deadline {
      assert e == TimeOut(rows);
      TimeOutSteps(rows);
    } else {
      assert e.rows == Dispatch(rows, n, now);
      DispatchKeeps(rows, n, now);
    }
  }

  lemma ScheduleAgrees(rows: Rows, n: Name, now: Time)
    requires Agrees(rows)
    ensures Agrees(WorkflowSpec.Schedule(rows, n, now).rows)
  {
    TimeOutAgrees(rows);
    if n in rows.steps && !HardStop(rows.wf.state) && rows.steps[n].state == StepPending {
      DispatchAgrees(rows, n, now);
    }
  }

  // ---- outcomes ------------------------------------------------------------------------------

  /** The shapes the rows can have after an outcome was applied. */
  lemma OutcomeShapes(rows: Rows, n: Name, outcome: StepState)
    ensures var r := ApplyOutcome(rows, n, outcome).rows;
            || r == rows
            || r == Settle(rows)
            || (r == TimeOut(rows).rows && rows.wf.state !in {WfCancelling, WfCancelled})
            || (n in rows.steps && !SettledStep(rows.steps[n].state) && OutcomeShape(rows, n, outcome, r))
  {
  }

  predicate OutcomeShape(rows: Rows, n: Name, outcome: StepState, r: Rows)
    requires n in rows.steps
  {
    var next := NextStepStates(rows.steps[n].state);
    || (StepCancelled in next && r == Settle(MoveSteps(rows, {n}, StepCancelled)))
    || (&& outcome in next && outcome == StepComplete && rows.wf.state !in {WfCancelling, WfCancelled}
        && r == Settle(MoveSteps(rows, {n}, outcome)))
    || (&& outcome in next && outcome == StepFailed && rows.wf.state !in {WfRunning, WfCancelling, WfCancelled}
        && r == MoveSteps(rows, {n}, outcome))
    || (&& outcome in next && outcome == StepFailed && rows.wf.state == WfRunning
        && r == MoveWf(MoveSteps(rows, {n}, outcome), WfFailed))
  }

  lemma ApplyOutcomeSteps(rows: Rows, n: Name, outcome: StepState)
    requires StepsInv(rows)
    ensures StepsInv(ApplyOutcome(rows, n, outcome).rows)
    ensures Advances(rows, ApplyOutcome(rows, n, outcome).rows)
  {
    OutcomeShapes(rows, n, outcome);
    var r := ApplyOutcome(rows, n, outcome).rows;
    if r == Settle(rows) {
      SettleKeeps(rows);
    } else if r == TimeOut(rows).rows {
      TimeOutSteps(rows);
    } else if r != rows {
      OutcomeSteps(rows, n, StepCancelled);
      OutcomeSteps(rows, n, outcome);
    }
  }

  lemma OutcomeSteps(rows: Rows, n: Name, outcome: StepState)
    requires StepsInv(rows) && n in rows.steps && !SettledStep(rows.steps[n].state)
    ensures outcome in NextStepStates(rows.steps[n].state) && SettledStep(outcome) ==>
              var moved := MoveSteps(rows, {n}, outcome);
              && StepsInv(Settle(moved)) && Advances(rows, Settle(moved))
              && StepsInv(moved) && Advances(rows, moved)
              && (rows.wf.state == WfRunning ==> StepsInv(MoveWf(moved, WfFailed)) && Advances(rows, MoveWf(moved, WfFailed)))
  {
    if outcome in NextStepStates(rows.steps[n].state) && SettledStep(outcome) {
      var moved := MoveSteps(rows, {n}, outcome);
      assert Begun(outcome) ==> ParentsComplete(rows.steps, n);
      MoveKeeps(rows, {n}, outcome);
      SettleKeeps(moved);
      AdvancesTransitive(rows, moved, Settle(moved));
      if rows.wf.state == WfRunning {
        MoveWfKeeps(moved, WfFailed);
        AdvancesTransitive(rows, moved, MoveWf(moved, WfFailed));
      }
    }
  }

  /** One live step takes its outcome; the workflow follows when it must. */
  lemma OutcomeAgrees(rows: Rows, n: Name, outcome: StepState, r: Rows)
    requires Agrees(rows) && rows.wf.state != WfPending
    requires n in rows.steps && !SettledStep(rows.steps[n].state) && OutcomeShape(rows, n, outcome, r)
    ensures Agrees(r)
  {
    LiveStepMeansLiveWorkflow(rows, n);
    OneMoved(rows, n, StepCancelled);
    OneMoved(rows, n, outcome);
    if StepCancelled in NextStepStates(rows.steps[n].state) && r == Settle(MoveSteps(rows, {n}, StepCancelled)) {
      OneCancelled(rows, n, MoveSteps(rows, {n}, StepCancelled));
    } else if outcome == StepComplete {
      OneComplete(rows, n, MoveSteps(rows, {n}, outcome));
    } else {
      OneFailed(rows, n, MoveSteps(rows, {n}, outcome).steps);
    }
  }

  predicate OnlyDiffersAt(a: map<Name, Step>, b: map<Name, Step>, n: Name, state: StepState) {
    && n in a && a.Keys == b.Keys && b[n].state == state
    && forall m :: m in a && m != n ==> a[m] == b[m]
  }

  lemma OneMoved(rows: Rows, n: Name, state: StepState)
    requires n in rows.steps
    ensures OnlyDiffersAt(rows.steps, MoveSteps(rows, {n}, state).steps, n, state)
    ensures MoveSteps(rows, {n}, state).wf == rows.wf
  {
  }

  lemma OneCancelled(rows: Rows, n: Name, moved: Rows)
    requires Agrees(rows) && rows.wf.state in {WfRunning, WfFailed, WfCancelling} && moved.wf == rows.wf
    requires OnlyDiffersAt(rows.steps, moved.steps, n, StepCancelled)
    requires rows.steps[n].state in {StepDefined, StepPending, StepCancelling}
    ensures Agrees(Settle(moved))
  {
    assert forall state :: state !in {StepCancelled, rows.steps[n].state} ==>
                             (Has(rows.steps, state) <==> Has(moved.steps, state));
  }

  lemma OneComplete(rows: Rows, n: Name, moved: Rows)
    requires Agrees(rows) && rows.wf.state in {WfRunning, WfFailed} && moved.wf == rows.wf
    requires OnlyDiffersAt(rows.steps, moved.steps, n, StepComplete) && rows.steps[n].state == StepRunning
    ensures Agrees(Settle(moved))
  {
    assert forall state :: state !in {StepComplete, StepRunning} ==>
                             (Has(rows.steps, state) <==> Has(moved.steps, state));
  }

  lemma OneFailed(rows: Rows, n: Name, steps: map<Name, Step>)
    requires Agrees(rows) && rows.wf.state in {WfRunning, WfFailed}
    requires OnlyDiffersAt(rows.steps, steps, n, StepFailed) && rows.steps[n].state == StepRunning
    ensures Aggregate(WfFailed, steps)
  {
    assert forall state :: state !in {StepFailed, StepRunning} ==>
                             (Has(rows.steps, state) <==> Has(steps, state));
  }

  lemma ApplyOutcomeAgrees(rows: Rows, n: Name, outcome: StepState)
    requires Agrees(rows) && rows.wf.state != WfPending
    ensures Agrees(ApplyOutcome(rows, n, outcome).rows)
  {
    OutcomeShapes(rows, n, outcome);
    var r := ApplyOutcome(rows, n, outcome).rows;
    if r == Settle(rows) {
      NothingToSettle(rows);
    } else if r == TimeOut(rows).rows {
      TimeOutAgrees(rows);
    } else if r != rows {
      OutcomeAgrees(rows, n, outcome, r);
    }
  }

  lemma LiveStepMeansLiveWorkflow(rows: Rows, n: Name)
    requires Agrees(rows) && n in rows.steps && !SettledStep(rows.steps[n].state)
    ensures rows.wf.state in {WfPending, WfRunning, WfFailed, WfCancelling}
  {
  }

  /** In an agreeing state the aggregate check finds nothing to do. */
  lemma NothingToSettle(rows: Rows)
    requires Agrees(rows)
    ensures !Settles(rows) && Settle(rows) == rows
  {
  }

  lemma ApplyOutcomeKeeps(rows: Rows, n: Name, outcome: StepState)
    requires FlowInv(rows) && rows.wf.state != WfPending
    ensures Keeps(rows, ApplyOutcome(rows, n, outcome).rows)
  {
    ApplyOutcomeSteps(rows, n, outcome);
    ApplyOutcomeAgrees(rows, n, outcome);
    OutcomeCancels(rows, n, outcome);
  }

  lemma OutcomeCancels(rows: Rows, n: Name, outcome: StepState)
    ensures CancellationHolds(rows, ApplyOutcome(rows, n, outcome).rows)
  {
  }

  // ---- cancel --------------------------------------------------------------------------------

  lemma CancelSteps(rows: Rows)
    requires StepsInv(rows)
    ensures StepsInv(Cancel(rows).rows) && Advances(rows, Cancel(rows).rows)
  {
    if rows.wf.state !in {WfCancelling, WfCancelled, WfComplete} {
      DrainSteps(rows);
      DropSteps(rows, Drained(rows), WithState(rows.steps, DROPPED));
    }
  }

  lemma DrainSteps(rows: Rows)
    requires StepsInv(rows) && rows.wf.state !in {WfComplete, WfCancelled}
    ensures StepsInv(Drained(rows)) && Advances(rows, Drained(rows))
    ensures forall n :: n in WithState(rows.steps, DROPPED) ==>
                          n in Drained(rows).steps && Drained(rows).steps[n].state !in {StepComplete, StepCancelled}
  {
    var a, draining := MoveWf(rows, WfCancelling), WithState(rows.steps, {StepRunning});
    MoveWfKeeps(rows, WfCancelling);
    forall n | n in draining ensures ParentsComplete(a.steps, n) { assert ParentsComplete(rows.steps, n); }
    MoveKeeps(a, draining, StepCancelling);
    AdvancesTransitive(rows, a, MoveSteps(a, draining, StepCancelling));
  }

  lemma DropSteps(rows: Rows, b: Rows, dropped: set<Name>)
    requires StepsInv(b) && Advances(rows, b)
    requires forall n :: n in dropped ==> n in b.steps && b.steps[n].state !in {StepComplete, StepCancelled}
    ensures StepsInv(Settle(MoveSteps(b, dropped, StepCancelled)))
    ensures Advances(rows, Settle(MoveSteps(b, dropped, StepCancelled)))
  {
    var c := MoveSteps(b, dropped, StepCancelled);
    MoveKeeps(b, dropped, StepCancelled);
    SettleKeeps(c);
    AdvancesTransitive(rows, b, c);
    AdvancesTransitive(rows, c, Settle(c));
  }

  lemma CancelAgrees(rows: Rows)
    requires Agrees(rows)
    ensures Agrees(Cancel(rows).rows)
  {
    if rows.wf.state !in {WfCancelling, WfCancelled, WfComplete} {
      CancelledStates(rows);
      DrainedAgrees(rows, MoveSteps(Drained(rows), WithState(rows.steps, DROPPED), StepCancelled));
    }
  }

  lemma CancelledStates(rows: Rows)
    ensures var c := MoveSteps(Drained(rows), WithState(rows.steps, DROPPED), StepCancelled);
            && c.wf.state == WfCancelling && c.steps.Keys == rows.steps.Keys
            && forall n :: n in rows.steps ==> c.steps[n].state == CancelledImage(rows.steps[n].state)
  {
    MovedStates(MoveWf(rows, WfCancelling), {StepRunning}, StepCancelling);
    MovedStates(Drained(rows), DROPPED, StepCancelled);
    assert WithState(Drained(rows).steps, DROPPED) == WithState(rows.steps, DROPPED);
  }

  lemma DrainedAgrees(rows: Rows, c: Rows)
    requires Agrees(rows) && rows.wf.state !in {WfCancelling, WfCancelled, WfComplete}
    requires c.wf.state == WfCancelling && c.steps.Keys == rows.steps.Keys
    requires forall n :: n in rows.steps ==> c.steps[n].state == CancelledImage(rows.steps[n].state)
    ensures Agrees(Settle(c))
  {
    forall n | n in c.steps ensures c.steps[n].state in {StepComplete, StepCancelling, StepCancelled} {
      assert rows.steps[n].state != StepCancelling;
    }
    var n :| n in rows.steps && rows.steps[n].state != StepComplete;
    assert c.steps[n].state != StepComplete;
  }

  /** Where one cancellation takes each step state. */
  function CancelledImage(state: StepState): StepState {
    match state
    case StepRunning => StepCancelling
    case StepDefined => StepCancelled
    case StepPending => StepCancelled
    case StepFailed => StepCancelled
    case StepTimedOut => StepCancelled
    case _ => state
  }

  // ---- revive --------------------------------------------------------------------------------

  lemma RevivedSteps(rows: Rows)
    requires StepsInv(rows) && rows.wf.state in {WfFailed, WfTimedOut}
    ensures StepsInv(Revived(rows)) && Advances(rows, Revived(rows))
  {
    var names := WithState(rows.steps, {StepFailed, StepTimedOut});
    var a := MoveWf(rows, WfRunning);
    MoveWfKeeps(rows, WfRunning);
    MoveKeeps(a, names, StepDefined);
    AdvancesTransitive(rows, a, MoveSteps(a, names, StepDefined));
  }

  lemma RevivedAgrees(rows: Rows)
    requires Agrees(rows) && rows.wf.state in {WfFailed, WfTimedOut}
    ensures Agrees(Revived(rows)) && Revived(rows).wf.state == WfRunning
  {
    var b := Revived(rows);
    MovedStates(MoveWf(rows, WfRunning), {StepFailed, StepTimedOut}, StepDefined);
    forall n | n in b.steps ensures b.steps[n].state !in {StepFailed, StepTimedOut, StepCancelling} {
      assert rows.steps[n].state != StepCancelling;
    }
    var n :| n in rows.steps && rows.steps[n].state != StepComplete;
    assert b.steps[n].state != StepComplete;
  }

  lemma DeadlineSteps(rows: Rows, deadline: Time)
    requires StepsInv(rows) && rows.wf.state == WfRunning
    ensures StepsInv(MoveDeadline(rows, deadline)) && Advances(rows, MoveDeadline(rows, deadline))
  {
    var b := MoveDeadline(rows, deadline);
    SameGraph(rows, b);
    forall n | n in b.steps && Begun(b.steps[n].state) ensures ParentsComplete(b.steps, n) {
      assert ParentsComplete(rows.steps, n);
    }
  }

  lemma DeadlineAgrees(rows: Rows, deadline: Time)
    requires Agrees(rows)
    ensures Agrees(MoveDeadline(rows, deadline))
  {
    var b := MoveDeadline(rows, deadline);
    assert forall n :: n in b.steps <==> n in rows.steps;
    assert forall n :: n in b.steps ==> b.steps[n].state == rows.steps[n].state;
    SameStatesAgree(rows.wf.state, rows.steps, b.steps);
  }

  lemma SameStatesAgree(wf: WorkflowState, a: map<Name, Step>, b: map<Name, Step>)
    requires a.Keys == b.Keys && forall n :: n in a ==> a[n].state == b[n].state
    ensures Aggregate(wf, a) <==> Aggregate(wf, b)
  {
    assert forall state :: Has(a, state) <==> Has(b, state);
    assert forall states :: AllIn(a, states) <==> AllIn(b, states);
  }

  lemma ReviveKeeps(rows: Rows, newDeadline: Option<Time>, now: Time)
    requires FlowInv(rows)
    ensures Keeps(rows, Revive(rows, newDeadline, now).rows)
  {
    if Revivable(rows, newDeadline, now) {
      var b := Revived(rows);
      RevivedSteps(rows);
      RevivedAgrees(rows);
      if newDeadline.Some? {
        DeadlineSteps(b, newDeadline.value);
        DeadlineAgrees(b, newDeadline.value);
        AdvancesTransitive(rows, b, MoveDeadline(b, newDeadline.value));
      }
    }
  }

  lemma CancelKeeps(rows: Rows)
    requires FlowInv(rows)
    ensures Keeps(rows, Cancel(rows).rows)
  {
    CancelSteps(rows);
    CancelAgrees(rows);
  }

  lemma ScheduleKeeps(rows: Rows, n: Name, now: Time)
    requires FlowInv(rows)
    ensures Keeps(rows, WorkflowSpec.Schedule(rows, n, now).rows)
  {
    ScheduleSteps(rows, n, now);
    ScheduleAgrees(rows, n, now);
  }

  /** Before the deadline the sweep writes nothing; past it, it times the workflow out. */
  lemma ReconcileKeeps(rows: Rows, now: Time)
    requires FlowInv(rows)
    ensures Keeps(rows, Reconcile(rows, now).rows)
    ensures rows.wf.deadline > now ==> Reconcile(rows, now).rows == rows
  {
    TimeOutKeeps(rows);
    NothingToSettle(rows);
  }

  /** Every workflow message keeps the invariants. An outcome message presupposes a started workflow. */
  lemma HandleKeeps(rows: Rows, m: Msg, now: Time)
    requires FlowInv(rows) && ForWorkflow(m)
    requires m.ExecUpdate? || (m.TaskUpdate? && StepOfTask(rows.steps, m.task).Some?) ==> rows.wf.state != WfPending
    ensures Keeps(rows, Handle(rows, m, now).rows)
  {
    match m
    case ProcessWorkflow => ProcessKeeps(rows);
    case ScheduleStep(n) => ScheduleKeeps(rows, n, now);
    case ExecUpdate(n, outcome) => ApplyOutcomeKeeps(rows, n, outcome);
    case TaskUpdate(t, outcome) =>
      if StepOfTask(rows.steps, t).Some? {
        ApplyOutcomeKeeps(rows, StepOfTask(rows.steps, t).value, outcome);
      }
    case CancelWorkflow => CancelKeeps(rows);
    case ReviveWorkflow(newDeadline) => ReviveKeeps(rows, newDeadline, now);
  }

  /** The rows written from an accepted specification satisfy the invariants, and its graph is the
      accepted one. */
  lemma DefinedKeeps(spec: SpecValidation.WorkflowSpec)
    requires SpecValidation.Sound(spec)
    ensures FlowInv(DefinedRows(spec))
    ensures GraphOf(DefinedRows(spec).steps) == SpecValidation.GraphOf(spec)
  {
    assert DefinedRows(spec).steps.Keys == spec.steps.Keys;
    AllDefinedAgrees(DefinedRows(spec));
  }

  lemma AllDefinedAgrees(rows: Rows)
    requires rows.wf.state == WfPending && rows.steps.Keys != {} && AllIn(rows.steps, {StepDefined})
    ensures Agrees(rows)
  {
    var n :| n in rows.steps;
    assert rows.steps[n].state == StepDefined;
  }
}
