/** Every accepted workflow can really complete: from its definition some run of the two engines leads to
    COMPLETE before the deadline. So the invariants and the rounds speak of runs that exist. */
module Completion {
  import opened Prelude
  import opened Tables
  import opened StepGraph
  import opened Rows
  import opened WorkflowSpec
  import opened WorkflowInvariants
  import opened TaskSpec
  import opened TaskInvariants
  import opened LinkInvariants
  import opened System
  import opened SystemInvariants
  import opened Guarantees
  import opened Recovery
  import opened Progress
  import SpecValidation

  // ---- one task, from PENDING to COMPLETE ----------------------------------------------------

  predicate Waiting(task: Task) {
    task.name == WORKFLOW_TASK && task.state == TaskPending && task.timing == Immediate && task.runs == []
  }

  /** The rows with one task taken through its only run to success, leaving the rest alone. */
  predicate TaskDone(a: Rows, b: Rows, t: TaskId) {
    && t < |a.tasks| == |b.tasks|
    && b.wf == a.wf && b.steps == a.steps
    && b.tasks == a.tasks[t := b.tasks[t]] && b.tasks[t].state == TaskComplete
  }

  function HappyPath(t: TaskId, w: Worker): seq<Action> {
    var r := RunId(t, 0);
    [SweepPending(t), Receive(r, w), Begin(r, true, false), Finish(r, Success), Deliver(ExecSucceeded(r), 0)]
  }

  /** Same time, same queues. */
  predicate SameOutside(a: State, b: State) {
    b.now == a.now && b.senders == a.senders
  }

  /** Somewhere on the happy path: the run's state, the worker's job, and nothing else touched. */
  predicate OnPath(a: State, s: State, t: TaskId, state: RunState, job: Option<Job>) {
    && t < |a.rows.tasks| == |s.rows.tasks|
    && SameOutside(a, s) && s.rows.wf == a.rows.wf && s.rows.steps == a.rows.steps
    && s.rows.tasks == a.rows.tasks[t := s.rows.tasks[t]]
    && s.rows.tasks[t].state == TaskActive && |s.rows.tasks[t].runs| == 1 && s.rows.tasks[t].runs[0].state == state
    && (if RunId(t, 0) in s.jobs then job == Some(s.jobs[RunId(t, 0)]) else job == None)
  }

  lemma PathStart(a: State, t: TaskId)
    requires t < |a.rows.tasks| && Waiting(a.rows.tasks[t]) && RunId(t, 0) !in a.jobs && WORKFLOW_TASK in a.senders
    ensures var s := Next(a, SweepPending(t)); OnPath(a, s, t, RunEnqueued, None) && PendingInstance(RunId(t, 0)) in s.msgs
  {
  }

  lemma PathClaim(a: State, s: State, t: TaskId, w: Worker)
    requires OnPath(a, s, t, RunEnqueued, None) && PendingInstance(RunId(t, 0)) in s.msgs
    ensures OnPath(a, Next(s, Receive(RunId(t, 0), w)), t, RunAcquired, Some(Job(w, Submitted)))
  {
  }

  lemma PathBegin(a: State, s: State, t: TaskId, w: Worker)
    requires OnPath(a, s, t, RunAcquired, Some(Job(w, Submitted)))
    ensures OnPath(a, Next(s, Begin(RunId(t, 0), true, false)), t, RunProcessing, Some(Job(w, Invoked)))
  {
  }

  lemma PathFinish(a: State, s: State, t: TaskId, w: Worker)
    requires OnPath(a, s, t, RunProcessing, Some(Job(w, Invoked)))
    ensures var u := Next(s, Finish(RunId(t, 0), Success));
            OnPath(a, u, t, RunProcessed, None) && ExecSucceeded(RunId(t, 0)) in u.msgs
  {
  }

  lemma PathDeliver(a: State, s: State, t: TaskId)
    requires OnPath(a, s, t, RunProcessed, None) && ExecSucceeded(RunId(t, 0)) in s.msgs
    ensures var u := Next(s, Deliver(ExecSucceeded(RunId(t, 0)), 0)); TaskDone(a.rows, u.rows, t) && SameOutside(a, u)
  {
  }

  lemma AfterOne(s: State, actions: seq<Action>, a: Action)
    ensures After(s, actions + [a]) == Next(After(s, actions), a)
  {
    assert (actions + [a])[..|actions|] == actions;
  }

  lemma HappyPathWorks(s: State, t: TaskId, w: Worker)
    requires t < |s.rows.tasks| && Waiting(s.rows.tasks[t]) && RunId(t, 0) !in s.jobs && WORKFLOW_TASK in s.senders
    ensures TaskDone(s.rows, After(s, HappyPath(t, w)).rows, t) && SameOutside(s, After(s, HappyPath(t, w)))
  {
    var r := RunId(t, 0);
    var p1, p2, p3 := [SweepPending(t)], [SweepPending(t), Receive(r, w)], [SweepPending(t), Receive(r, w), Begin(r, true, false)];
    var p4 := p3 + [Finish(r, Success)];
    AfterOne(s, [], SweepPending(t));
    assert [] + [SweepPending(t)] == p1 && p1 + [Receive(r, w)] == p2 && p2 + [Begin(r, true, false)] == p3;
    AfterOne(s, p1, Receive(r, w));
    AfterOne(s, p2, Begin(r, true, false));
    AfterOne(s, p3, Finish(r, Success));
    AfterOne(s, p4, Deliver(ExecSucceeded(r), 0));
    assert HappyPath(t, w)[..4] == p4 && HappyPath(t, w) == p4 + [Deliver(ExecSucceeded(r), 0)];
    HappySteps(s, After(s, p1), After(s, p2), After(s, p3), After(s, p4), t, w);
  }

  lemma HappySteps(s: State, s1: State, s2: State, s3: State, s4: State, t: TaskId, w: Worker)
    requires t < |s.rows.tasks| && Waiting(s.rows.tasks[t]) && RunId(t, 0) !in s.jobs && WORKFLOW_TASK in s.senders
    requires var r := RunId(t, 0);
             && s1 == Next(s, SweepPending(t)) && s2 == Next(s1, Receive(r, w))
             && s3 == Next(s2, Begin(r, true, false)) && s4 == Next(s3, Finish(r, Success))
    ensures var end := Next(s4, Deliver(ExecSucceeded(RunId(t, 0)), 0)); TaskDone(s.rows, end.rows, t) && SameOutside(s, end)
  {
    PathStart(s, t);
    PathClaim(s, s1, t, w);
    PathBegin(s, s2, t, w);
    PathFinish(s, s3, t, w);
    PathDeliver(s, s4, t);
  }

  /** No worker can have a job for a run that does not exist. */
  lemma NoJobYet(s: State, t: TaskId)
    requires SystemInv(s) && t < |s.rows.tasks| && Waiting(s.rows.tasks[t])
    ensures RunId(t, 0) !in s.jobs
  {
    assert RunId(t, 0) in s.jobs ==> JobInv(s, RunId(t, 0));
  }

  // ---- all tasks of a round ------------------------------------------------------------------

  /** Every RUNNING step's current task has succeeded or is about to start. */
  predicate Runnable(rows: Rows) {
    forall n :: n in rows.steps && rows.steps[n].state == StepRunning ==> CanSucceed(rows, Current(rows, n))
  }

  predicate CanSucceed(rows: Rows, t: TaskId) {
    t < |rows.tasks| && (rows.tasks[t].state == TaskComplete || Waiting(rows.tasks[t]))
  }

  /** A poke that dispatches nothing makes no step RUNNING. */
  lemma NoDispatchRunnable(rows: Rows, b: Rows)
    requires Runnable(rows) && GentleMove(rows, b) && b.tasks == rows.tasks
    requires forall n :: n in b.steps && b.steps[n].state == StepRunning ==> b.steps[n].state == rows.steps[n].state
    ensures Runnable(b)
  {
  }

  lemma ProcessRunnable(rows: Rows)
    requires Runnable(rows) && OpenOnly(rows) && rows.wf.state in {WfPending, WfRunning, WfComplete}
    ensures Runnable(Process(rows).rows)
  {
    ProcessIsGentle(rows);
    NoDispatchRunnable(rows, Process(rows).rows);
  }

  lemma OutcomeRunnable(rows: Rows, n: Name)
    requires Runnable(rows) && OpenOnly(rows) && rows.wf.state in {WfRunning, WfComplete}
    ensures Runnable(ApplyOutcome(rows, n, StepComplete).rows)
  {
    OutcomeIsGentle(rows, n);
    NoDispatchRunnable(rows, ApplyOutcome(rows, n, StepComplete).rows);
  }

  lemma ScheduleRunnable(rows: Rows, n: Name, now: Time)
    requires Runnable(rows) && rows.wf.state in {WfPending, WfRunning, WfComplete} && now < rows.wf.deadline
    ensures Runnable(WorkflowSpec.Schedule(rows, n, now).rows)
  {
    var b := WorkflowSpec.Schedule(rows, n, now).rows;
    if b != rows {
      forall m | m in b.steps && b.steps[m].state == StepRunning ensures CanSucceed(b, Current(b, m)) {
        assert m != n ==> rows.steps[m] == b.steps[m] && CanSucceed(rows, Current(rows, m));
      }
    }
  }

  lemma PokeRunnable(rows: Rows, p: Msg, now: Time)
    requires OnItsWay(rows) && SweepPoke(rows, p) && Runnable(rows) && now < rows.wf.deadline
    ensures Runnable(Handle(rows, p, now).rows)
  {
    OpenStates(rows);
    match p
    case ProcessWorkflow => ProcessRunnable(rows);
    case ScheduleStep(n) => ScheduleRunnable(rows, n, now);
    case ExecUpdate(n, outcome) => OutcomeRunnable(rows, n);
  }

  /** From a workflow on its way, only to rows whose RUNNING steps can succeed. */
  ghost predicate KeepsRunnable(a: Rows, b: Rows) {
    !OnItsWay(a) || !Runnable(a) || Runnable(b)
  }

  lemma PokeStepRunnable(rows: Rows, mid: Rows, p: Msg, now: Time)
    requires Closing(rows, mid) && KeepsRunnable(rows, mid) && SweepPoke(rows, p) && now < rows.wf.deadline
    ensures KeepsRunnable(rows, Handle(mid, p, now).rows)
  {
    if OnItsWay(rows) && Runnable(rows) {
      StillBacked(rows, mid, p);
      PokeRunnable(mid, p, now);
    }
  }

  lemma {:induction false} RoundRunnable(rows: Rows, pokes: seq<Msg>, now: Time)
    requires AllSweepPokes(rows, pokes) && now < rows.wf.deadline
    ensures KeepsRunnable(rows, HandleAll(rows, pokes, now))
  {
    if pokes == [] {
    } else {
      var front, last := pokes[..|pokes| - 1], pokes[|pokes| - 1];
      RoundRunnable(rows, front, now);
      HandleAllKeeps(rows, front, now);
      PokeStepRunnable(rows, HandleAll(rows, front, now), last, now);
    }
  }

  /** Only whole tasks were taken to success: workflow, steps and ended tasks are as before. */
  predicate TasksRan(a: Rows, b: Rows) {
    && b.wf == a.wf && b.steps == a.steps && |b.tasks| == |a.tasks|
    && forall t :: 0 <= t < |a.tasks| ==> b.tasks[t] == a.tasks[t] || (Waiting(a.tasks[t]) && b.tasks[t].state == TaskComplete)
  }

  predicate StepSucceeded(rows: Rows, n: Name) {
    n in rows.steps && rows.steps[n].state == StepRunning ==> CurrentState(rows, n) == TaskComplete
  }

  predicate AllSucceeded(rows: Rows, names: seq<Name>) {
    forall i :: 0 <= i < |names| ==> StepSucceeded(rows, names[i])
  }

  /** From a good state, the actions did nothing but take the current tasks of the listed steps to
      success. */
  ghost predicate Ran(s: State, actions: seq<Action>, names: seq<Name>) {
    || !SystemInv(s) || !Runnable(s.rows) || WORKFLOW_TASK !in s.senders
    || (&& TasksRan(s.rows, After(s, actions).rows) && SameOutside(s, After(s, actions))
        && AllSucceeded(After(s, actions).rows, names))
  }

  /** Runs the current tasks of the listed RUNNING steps, one after the other. */
  lemma {:induction false} RunTasks(s: State, names: seq<Name>) returns (actions: seq<Action>)
    ensures Ran(s, actions, names)
  {
    if names == [] {
      actions := [];
      RanNothing(s);
    } else {
      var front, n := names[..|names| - 1], names[|names| - 1];
      assert names == front + [n];
      var ran := RunTasks(s, front);
      actions := RunOneMore(s, ran, front, n);
    }
  }

  lemma RanNothing(s: State)
    ensures Ran(s, [], [])
  {
  }

  lemma RunOneMore(s: State, ran: seq<Action>, front: seq<Name>, n: Name) returns (actions: seq<Action>)
    requires Ran(s, ran, front)
    ensures Ran(s, actions, front + [n])
  {
    if SystemInv(s) && Runnable(s.rows) && WORKFLOW_TASK in s.senders && !StepSucceeded(After(s, ran).rows, n) {
      actions := RunIt(s, ran, front, n);
    } else {
      actions := ran;
      NothingMoreToRun(s, ran, front, n);
    }
  }

  lemma NothingMoreToRun(s: State, ran: seq<Action>, front: seq<Name>, n: Name)
    requires Ran(s, ran, front) && (!SystemInv(s) || !Runnable(s.rows) || WORKFLOW_TASK !in s.senders || StepSucceeded(After(s, ran).rows, n))
    ensures Ran(s, ran, front + [n])
  {
  }

  lemma RunIt(s: State, ran: seq<Action>, front: seq<Name>, n: Name) returns (actions: seq<Action>)
    requires SystemInv(s) && Runnable(s.rows) && WORKFLOW_TASK in s.senders && Ran(s, ran, front) && !StepSucceeded(After(s, ran).rows, n)
    ensures Ran(s, actions, front + [n])
  {
    var mid := After(s, ran);
    AfterInv(s, ran);
    var more := RunTask(s.rows, mid, n);
    AfterConcat(s, ran, more);
    actions := ran + more;
    RanIt(s, mid, After(s, actions), actions, front, n);
  }

  lemma RanIt(s: State, mid: State, t: State, actions: seq<Action>, front: seq<Name>, n: Name)
    requires t == After(s, actions) && TasksRan(s.rows, mid.rows) && SameOutside(s, mid) && SameOutside(mid, t)
    requires n in mid.rows.steps && TaskDone(mid.rows, t.rows, Current(mid.rows, n)) && Waiting(mid.rows.tasks[Current(mid.rows, n)])
    requires AllSucceeded(mid.rows, front)
    ensures Ran(s, actions, front + [n])
  {
    RanFurther(s.rows, mid.rows, t.rows, front, n);
  }

  lemma RunTask(a: Rows, s: State, n: Name) returns (actions: seq<Action>)
    requires SystemInv(s) && Runnable(a) && TasksRan(a, s.rows) && !StepSucceeded(s.rows, n) && WORKFLOW_TASK in s.senders
    ensures TaskDone(s.rows, After(s, actions).rows, Current(s.rows, n)) && SameOutside(s, After(s, actions))
    ensures Waiting(s.rows.tasks[Current(s.rows, n)])
  {
    var t := Current(s.rows, n);
    assert CanSucceed(a, t);
    NoJobYet(s, t);
    actions := HappyPath(t, "worker");
    HappyPathWorks(s, t, "worker");
  }

  lemma RanFurther(a: Rows, b: Rows, c: Rows, front: seq<Name>, n: Name)
    requires TasksRan(a, b) && n in b.steps && TaskDone(b, c, Current(b, n)) && Waiting(b.tasks[Current(b, n)])
    requires AllSucceeded(b, front)
    ensures TasksRan(a, c) && StepSucceeded(c, n) && AllSucceeded(c, front)
  {
  }

  // ---- a round for real ----------------------------------------------------------------------

  /** A state from which rounds can start. */
  ghost predicate CanStart(s: State, listing: seq<Name>) {
    SystemInv(s) && Underway(s.rows, listing) && s.now < s.rows.wf.deadline && WORKFLOW_TASK in s.senders
  }

  /** A sweep, its pokes, and then every dispatched task, as actions: a round that takes place. */
  lemma RealRound(s: State, listing: seq<Name>) returns (actions: seq<Action>)
    requires CanStart(s, listing)
    ensures Round(s.rows, After(s, actions).rows, s.now)
    ensures SystemInv(After(s, actions)) && SameOutside(s, After(s, actions))
  {
    var pokes := Enumerated(Reconcile(s.rows, s.now).sends);
    var swept := Swept(s, pokes);
    var mid := After(s, swept);
    AfterInv(s, swept);
    SweptRunnable(s.rows, pokes, s.now);
    var names := Enumerated(mid.rows.steps.Keys);
    var ran := RunTasks(mid, names);
    actions := swept + ran;
    AfterConcat(s, swept, ran);
    AfterInv(mid, ran);
    RanIsFinish(mid.rows, After(mid, ran).rows, names);
    assert PokesOf(s.rows, s.now, pokes);
  }

  lemma Swept(s: State, pokes: seq<Msg>) returns (actions: seq<Action>)
    requires OnItsWay(s.rows) && TasksSucceeded(s.rows) && s.now < s.rows.wf.deadline && PokesOf(s.rows, s.now, pokes)
    ensures AllSweepPokes(s.rows, pokes)
    ensures After(s, actions).rows == HandleAll(s.rows, pokes, s.now) && SameOutside(s, After(s, actions))
  {
    actions := [SweepWorkflow] + Deliveries(pokes);
    AfterConcat(s, [SweepWorkflow], Deliveries(pokes));
    AfterOne(s, [], SweepWorkflow);
    assert [] + [SweepWorkflow] == [SweepWorkflow];
    RoundPokesOnly(s.rows, pokes, s.now);
    SweepLeavesPokes(s, pokes);
    DeliveriesHandle(Next(s, SweepWorkflow), pokes);
  }

  lemma SweptRunnable(rows: Rows, pokes: seq<Msg>, now: Time)
    requires OnItsWay(rows) && TasksSucceeded(rows) && AllSweepPokes(rows, pokes) && now < rows.wf.deadline
    ensures Runnable(HandleAll(rows, pokes, now))
  {
    forall n | n in rows.steps && rows.steps[n].state == StepRunning ensures CanSucceed(rows, Current(rows, n)) {
      assert StepLinks(rows, n);
    }
    RoundRunnable(rows, pokes, now);
  }

  lemma RanIsFinish(a: Rows, b: Rows, names: seq<Name>)
    requires TasksRan(a, b) && RowsInv(b) && Elems(names) == a.steps.Keys
    requires AllSucceeded(b, names)
    ensures TasksFinish(a, b)
  {
    forall n | n in b.steps && b.steps[n].state == StepRunning ensures CurrentState(b, n) == TaskComplete {
      assert n in Elems(names);
      var i :| 0 <= i < |names| && names[i] == n;
      assert StepSucceeded(b, names[i]);
    }
  }

  // ---- to the end ----------------------------------------------------------------------------

  lemma {:induction false} CanComplete(s: State, listing: seq<Name>) returns (actions: seq<Action>)
    requires CanStart(s, listing)
    ensures After(s, actions).rows.wf.state == WfComplete
    decreases Distance(s.rows, listing)
  {
    actions := [];
    if s.rows.wf.state == WfComplete {
    } else {
      var first := RealRound(s, listing);
      RoundKeeps(s.rows, After(s, first).rows, s.now, listing);
      var rest := CanComplete(After(s, first), listing);
      AfterConcat(s, first, rest);
      actions := first + rest;
    }
  }

  /** Every accepted specification can be run to COMPLETE if it is defined before its deadline and the
      queue of the workflow engine's tasks takes messages. */
  lemma EverySpecificationCanComplete(spec: SpecValidation.WorkflowSpec, start: Time) returns (actions: seq<Action>)
    requires SpecValidation.Sound(spec) && start < spec.deadline.value
    ensures Reached(spec, start, actions).rows.wf.state == WfComplete
  {
    var init := Init(spec, start);
    var ready := init.(senders := {WORKFLOW_TASK});
    InitInv(spec, start);
    NextInv(init, Queues({WORKFLOW_TASK}));
    DefinedIsOnItsWay(spec);
    var listing := Enumerated(DefinedRows(spec).steps.Keys);
    var rest := CanComplete(ready, listing);
    actions := [Queues({WORKFLOW_TASK})] + rest;
    AfterOne(init, [], Queues({WORKFLOW_TASK}));
    assert [] + [Queues({WORKFLOW_TASK})] == [Queues({WORKFLOW_TASK})];
    AfterConcat(init, [Queues({WORKFLOW_TASK})], rest);
  }
}
