/** Cancellation comes to an end: the cancel requests of a cancellation (or of any sweep), once delivered,
    and the outcomes of one further sweep before the deadline take a CANCELLING workflow to CANCELLED. After
    the deadline, when no sweep does anything more for it, the requests and the tasks' notifications do. */
module Draining {
  import opened Prelude
  import opened Tables
  import opened StepGraph
  import opened Rows
  import opened WorkflowSpec
  import opened WorkflowInvariants
  import opened TaskSpec
  import opened TaskInvariants
  import opened LinkInvariants
  import opened AuditInvariants
  import opened System
  import opened SystemInvariants
  import opened Guarantees
  import opened Recovery
  import opened Progress
  import SpecValidation

  /** Delivers cancel requests to the task scheduler. */
  function StopAll(rows: Rows, tasks: seq<TaskId>): Rows {
    if tasks == [] then rows else StopTask(StopAll(rows, tasks[..|tasks| - 1]), tasks[|tasks| - 1]).rows
  }

  /** On good rows the task engine leaves good rows and touches neither workflow nor steps. */
  ghost predicate EngineOnly(a: Rows, b: Rows) {
    || !RowsInv(a)
    || (&& RowsInv(b) && b.wf == a.wf && b.steps == a.steps
        && |b.tasks| == |a.tasks| && forall t :: 0 <= t < |a.tasks| ==> TaskEvolves(a.tasks[t], b.tasks[t]))
  }

  lemma StopIsEngineOnly(a: Rows, b: Rows, t: TaskId)
    requires EngineOnly(a, b)
    ensures EngineOnly(a, StopTask(b, t).rows)
    ensures RowsInv(a) && t < |a.tasks| ==> TerminalTask(StopTask(b, t).rows.tasks[t].state)
  {
    if RowsInv(a) {
      var c := StopTask(b, t).rows;
      StopTaskKeeps(b, t);
      EngineKeepsRows(b, c);
      EngineOnlyFurther(a, b, c);
      if t < |a.tasks| { assert TaskInv(b.tasks[t]); }
    }
  }

  lemma EngineOnlyFurther(a: Rows, b: Rows, c: Rows)
    requires EngineOnly(a, b) && EngineKeeps(b, c) && RowsInv(c)
    ensures EngineOnly(a, c)
  {
    if RowsInv(a) {
      forall t | 0 <= t < |a.tasks| ensures TaskEvolves(a.tasks[t], c.tasks[t]) {
        TaskEvolvesTransitive(a.tasks[t], b.tasks[t], c.tasks[t]);
      }
    }
  }

  /** From good rows, by the task engine alone: the listed tasks have ended. */
  ghost predicate Stopped(a: Rows, b: Rows, tasks: seq<TaskId>) {
    !RowsInv(a) || (EngineOnly(a, b) && AllEnded(a, b, tasks))
  }

  predicate AllEnded(a: Rows, b: Rows, tasks: seq<TaskId>) {
    forall i :: 0 <= i < |tasks| && tasks[i] < |a.tasks| ==> TerminalTask(TaskStateAt(b.tasks, tasks[i]))
  }

  lemma {:induction false} StopAllStops(rows: Rows, tasks: seq<TaskId>)
    ensures Stopped(rows, StopAll(rows, tasks), tasks)
  {
    if tasks == [] {
      SameRows(rows);
    } else {
      var front, t := tasks[..|tasks| - 1], tasks[|tasks| - 1];
      assert tasks == front + [t];
      StopAllStops(rows, front);
      assert StopAll(rows, tasks) == StopTask(StopAll(rows, front), t).rows;
      StopOneMore(rows, StopAll(rows, front), front, t);
    }
  }

  lemma StopOneMore(rows: Rows, b: Rows, front: seq<TaskId>, t: TaskId)
    requires Stopped(rows, b, front)
    ensures Stopped(rows, StopTask(b, t).rows, front + [t])
  {
    StopIsEngineOnly(rows, b, t);
    if RowsInv(rows) { StoppedStays(b, t, front); }
  }

  lemma StoppedStays(b: Rows, t: TaskId, front: seq<TaskId>)
    ensures forall i :: 0 <= i < |front| && TerminalTask(TaskStateAt(b.tasks, front[i])) ==>
                          TerminalTask(TaskStateAt(StopTask(b, t).rows.tasks, front[i]))
  {
  }

  // ---- the outcomes of a sweep over stopped tasks --------------------------------------------

  /** Every attempt of the CANCELLING steps has ended. */
  predicate AllStopped(rows: Rows) {
    forall n :: n in rows.steps && rows.steps[n].state == StepCancelling ==> AllTerminal(rows, rows.steps[n].attempts)
  }

  /** The requests cover every live task the sweep would ask to cancel. */
  lemma RequestsStop(rows: Rows, tasks: seq<TaskId>)
    requires RowsInv(rows) && SweptCancels(rows) <= (set t | t in tasks :: CancelTask(t))
    ensures AllStopped(StopAll(rows, tasks))
  {
    var b := StopAll(rows, tasks);
    StopAllStops(rows, tasks);
    forall n, t | n in b.steps && b.steps[n].state == StepCancelling && t in b.steps[n].attempts
      ensures TerminalTask(TaskStateAt(b.tasks, t))
    {
      StoppedAttempt(rows, tasks, n, t);
    }
  }

  lemma StoppedAttempt(rows: Rows, tasks: seq<TaskId>, n: Name, t: TaskId)
    requires LinkInv(rows) && SweptCancels(rows) <= (set u | u in tasks :: CancelTask(u))
    requires n in rows.steps && rows.steps[n].state == StepCancelling && t in rows.steps[n].attempts
    requires |StopAll(rows, tasks).tasks| == |rows.tasks|
    requires forall u :: 0 <= u < |rows.tasks| ==> TaskEvolves(rows.tasks[u], StopAll(rows, tasks).tasks[u])
    requires AllEnded(rows, StopAll(rows, tasks), tasks)
    ensures TerminalTask(TaskStateAt(StopAll(rows, tasks).tasks, t))
  {
    assert StepLinks(rows, n);
    if !TerminalTask(TaskStateAt(rows.tasks, t)) {
      assert CancelTask(t) in SweptCancels(rows);
      var i :| 0 <= i < |tasks| && tasks[i] == t;
    } else {
      assert TaskEvolves(rows.tasks[t], StopAll(rows, tasks).tasks[t]);
    }
  }

  /** The sweep over stopped tasks sends just one CANCELLED outcome per CANCELLING step. */
  lemma SweepOfStopped(rows: Rows, now: Time)
    requires RowsInv(rows) && rows.wf.state == WfCancelling && AllStopped(rows) && now < rows.wf.deadline
    ensures Reconcile(rows, now).sends ==
              set n | n in rows.steps && rows.steps[n].state == StepCancelling :: ExecUpdate(n, StepCancelled)
  {
    NoneAhead(rows);
    assert SweptSchedules(rows) == {} && SweptCancels(rows) == {} && SweptProcess(rows) == {};
  }

  lemma NoneAhead(rows: Rows)
    requires Agrees(rows) && rows.wf.state == WfCancelling
    ensures WithState(rows.steps, {StepDefined}) == {}
    ensures forall n :: n in rows.steps ==> rows.steps[n].state !in {StepRunning, StepPending}
  {
  }

  /** While outcomes are handled: still good rows, cancelling or cancelled, no step newly CANCELLING. */
  ghost predicate DrainingFrom(a: Rows, b: Rows) {
    || !RowsInv(a) || a.wf.state !in {WfCancelling, WfCancelled}
    || (&& RowsInv(b) && b.wf.state in {WfCancelling, WfCancelled} && b.steps.Keys == a.steps.Keys
        && forall n :: n in a.steps && b.steps[n].state == StepCancelling ==> a.steps[n].state == StepCancelling)
  }

  lemma DrainOne(a: Rows, b: Rows, n: Name, now: Time)
    requires DrainingFrom(a, b) && n in a.steps
    ensures DrainingFrom(a, ApplyOutcome(b, n, StepCancelled).rows)
  {
    if RowsInv(a) && a.wf.state in {WfCancelling, WfCancelled} {
      OutcomeKeepsRows(b, n, now);
      CancelledOutcome(b, n);
    }
  }

  lemma OutcomeKeepsRows(b: Rows, n: Name, now: Time)
    requires n in b.steps && b.wf.state in {WfCancelling, WfCancelled}
    ensures !RowsInv(b) || RowsInv(ApplyOutcome(b, n, StepCancelled).rows)
  {
    HandleIsTx(b, ExecUpdate(n, StepCancelled), now);
  }

  /** A CANCELLED outcome under a cancellation leaves its step settled and the others alone. */
  lemma CancelledOutcome(b: Rows, n: Name)
    requires n in b.steps && b.wf.state in {WfCancelling, WfCancelled}
    ensures var c := ApplyOutcome(b, n, StepCancelled).rows;
            && c.wf.state in {WfCancelling, WfCancelled} && c.steps.Keys == b.steps.Keys
            && c.steps[n].state != StepCancelling && forall m :: m in b.steps && m != n ==> c.steps[m] == b.steps[m]
  {
  }

  predicate CancelOutcomes(rows: Rows, pokes: seq<Msg>) {
    forall i :: 0 <= i < |pokes| ==> pokes[i].ExecUpdate? && pokes[i].outcome == StepCancelled && pokes[i].step in rows.steps
  }

  lemma {:induction false} DrainAll(rows: Rows, pokes: seq<Msg>, now: Time)
    requires CancelOutcomes(rows, pokes)
    ensures DrainingFrom(rows, HandleAll(rows, pokes, now))
  {
    if pokes == [] {
      DrainNothing(rows);
    } else {
      var front, last := pokes[..|pokes| - 1], pokes[|pokes| - 1];
      DrainAll(rows, front, now);
      assert Handle(HandleAll(rows, front, now), last, now) == ApplyOutcome(HandleAll(rows, front, now), last.step, StepCancelled);
      DrainOne(rows, HandleAll(rows, front, now), last.step, now);
    }
  }

  lemma DrainNothing(rows: Rows)
    ensures DrainingFrom(rows, rows)
  {
  }

  /** The steps of the handled outcomes are no longer CANCELLING. */
  predicate StepsDrained(rows: Rows, b: Rows, pokes: seq<Msg>)
    requires CancelOutcomes(rows, pokes)
  {
    && b.wf.state in {WfCancelling, WfCancelled} && b.steps.Keys == rows.steps.Keys
    && forall i :: 0 <= i < |pokes| ==> b.steps[pokes[i].step].state != StepCancelling
  }

  lemma {:induction false} DrainAllSteps(rows: Rows, pokes: seq<Msg>, now: Time)
    requires CancelOutcomes(rows, pokes) && rows.wf.state in {WfCancelling, WfCancelled}
    ensures StepsDrained(rows, HandleAll(rows, pokes, now), pokes)
  {
    if pokes == [] {
    } else {
      var front, last := pokes[..|pokes| - 1], pokes[|pokes| - 1];
      assert pokes == front + [last];
      DrainAllSteps(rows, front, now);
      var b := HandleAll(rows, front, now);
      assert Handle(b, last, now) == ApplyOutcome(b, last.step, StepCancelled);
      DrainStep(rows, b, front, last.step);
    }
  }

  lemma DrainStep(rows: Rows, b: Rows, front: seq<Msg>, n: Name)
    requires CancelOutcomes(rows, front) && StepsDrained(rows, b, front) && n in rows.steps
    ensures StepsDrained(rows, ApplyOutcome(b, n, StepCancelled).rows, front + [ExecUpdate(n, StepCancelled)])
  {
    CancelledOutcome(b, n);
  }

  /** The end of every cancellation: cancel requests delivered, one sweep, its outcomes handled in any
      order. */
  lemma CancellationCompletes(rows: Rows, tasks: seq<TaskId>, pokes: seq<Msg>, now: Time)
    requires RowsInv(rows) && rows.wf.state == WfCancelling && now < rows.wf.deadline
    requires SweptCancels(rows) <= set t | t in tasks :: CancelTask(t)
    requires PokesOf(StopAll(rows, tasks), now, pokes)
    ensures CancelOutcomes(rows, pokes)
    ensures HandleAll(StopAll(rows, tasks), pokes, now).wf.state == WfCancelled
  {
    var b := StopAll(rows, tasks);
    StopAllStops(rows, tasks);
    RequestsStop(rows, tasks);
    SweepOfStopped(b, now);
    forall i | 0 <= i < |pokes| ensures pokes[i].ExecUpdate? && pokes[i].outcome == StepCancelled && pokes[i].step in b.steps {
      assert pokes[i] in Elems(pokes);
    }
    DrainAll(b, pokes, now);
    DrainAllSteps(b, pokes, now);
    NothingCancelling(b, HandleAll(b, pokes, now), pokes);
  }

  lemma NothingCancelling(b: Rows, c: Rows, pokes: seq<Msg>)
    requires RowsInv(b) && b.wf.state == WfCancelling && DrainingFrom(b, c) && c.steps.Keys == b.steps.Keys
    requires Elems(pokes) == set n | n in b.steps && b.steps[n].state == StepCancelling :: ExecUpdate(n, StepCancelled)
    requires CancelOutcomes(b, pokes) && forall i :: 0 <= i < |pokes| ==> c.steps[pokes[i].step].state != StepCancelling
    ensures c.wf.state == WfCancelled
  {
    forall n | n in c.steps ensures c.steps[n].state != StepCancelling {
      if b.steps[n].state == StepCancelling {
        assert ExecUpdate(n, StepCancelled) in Elems(pokes);
        var i :| 0 <= i < |pokes| && pokes[i] == ExecUpdate(n, StepCancelled);
      }
    }
  }

  /** The cancellation's own cancel requests are all that is needed. */
  lemma CancelAsksForAll(rows: Rows)
    requires Agrees(rows) && TasksInv(rows.tasks) && rows.wf.state !in {WfCancelling, WfCancelled, WfComplete}
    ensures Cancel(rows).sends == SweptCancels(Cancel(rows).rows)
  {
    CancelShape(rows);
    NeverCancelling(rows);
    assert forall n :: n in rows.steps ==> rows.steps[n].state != StepCancelling;
    SameRequests(rows, Cancel(rows).rows);
  }

  lemma CancelShape(rows: Rows)
    requires rows.wf.state !in {WfCancelling, WfCancelled, WfComplete}
    ensures var b := Cancel(rows).rows;
            && Cancel(rows).sends == CancelRunning(rows) && b.tasks == rows.tasks && b.steps.Keys == rows.steps.Keys
            && forall n :: n in rows.steps ==>
                             b.steps[n].attempts == rows.steps[n].attempts && b.steps[n].state == CancelledImage(rows.steps[n].state)
  {
    CancelledStates(rows);
  }

  lemma SameRequests(rows: Rows, b: Rows)
    requires b.tasks == rows.tasks && b.steps.Keys == rows.steps.Keys
    requires forall n :: n in rows.steps ==>
                           && b.steps[n].attempts == rows.steps[n].attempts
                           && (b.steps[n].state == StepCancelling <==> rows.steps[n].state == StepRunning)
    requires forall t: TaskId :: TerminalTask(TaskStateAt(rows.tasks, t)) <==> !LiveTask(TaskStateAt(rows.tasks, t))
    ensures CancelRunning(rows) == SweptCancels(b)
  {
  }

  lemma NeverCancelling(rows: Rows)
    requires TasksInv(rows.tasks)
    ensures forall t: TaskId :: TerminalTask(TaskStateAt(rows.tasks, t)) <==> !LiveTask(TaskStateAt(rows.tasks, t))
  {
    forall t: TaskId | t < |rows.tasks| ensures rows.tasks[t].state != TaskCancelling { assert TaskInv(rows.tasks[t]); }
  }

  // ---- as a run of the system ----------------------------------------------------------------

  function Requests(tasks: seq<TaskId>): seq<Action> {
    if tasks == [] then [] else Requests(tasks[..|tasks| - 1]) + [Deliver(CancelTask(tasks[|tasks| - 1]), 0)]
  }

  lemma {:induction false} RequestsStopAll(s: State, tasks: seq<TaskId>)
    requires forall i :: 0 <= i < |tasks| ==> CancelTask(tasks[i]) in s.msgs
    ensures var t := After(s, Requests(tasks));
            t.rows == StopAll(s.rows, tasks) && t.now == s.now && t.senders == s.senders && s.msgs <= t.msgs
  {
    if tasks == [] {
    } else {
      var front, last := tasks[..|tasks| - 1], tasks[|tasks| - 1];
      RequestsStopAll(s, front);
      assert CancelTask(tasks[|tasks| - 1]) in s.msgs;
      assert Requests(tasks)[..|Requests(tasks)| - 1] == Requests(front);
      assert After(s, Requests(tasks)) == Next(After(s, Requests(front)), Deliver(CancelTask(last), 0));
      RequestStops(After(s, Requests(front)), last);
    }
  }

  lemma RequestStops(s: State, t: TaskId)
    requires CancelTask(t) in s.msgs
    ensures var u := Next(s, Deliver(CancelTask(t), 0));
            u.rows == StopTask(s.rows, t).rows && u.now == s.now && u.senders == s.senders && s.msgs <= u.msgs
  {
  }

  lemma OneAction(s: State, a: Action)
    ensures After(s, [a]) == Next(s, a)
  {
    assert [a][..0] == [];
  }

  /** One sweep, its cancel requests delivered, a second sweep and its outcomes delivered, in any order:
      a run of the system that ends every cancellation before its deadline. */
  lemma CancellationIsARun(s: State, tasks: seq<TaskId>, pokes: seq<Msg>)
    requires SystemInv(s) && s.rows.wf.state == WfCancelling && s.now < s.rows.wf.deadline
    requires (set t | t in tasks :: CancelTask(t)) == SweptCancels(s.rows)
    requires PokesOf(StopAll(s.rows, tasks), s.now, pokes)
    ensures CancelOutcomes(s.rows, pokes)
    ensures After(s, [SweepWorkflow] + Requests(tasks) + [SweepWorkflow] + Deliveries(pokes)).rows.wf.state == WfCancelled
  {
    CancellationCompletes(s.rows, tasks, pokes, s.now);
    var first := [SweepWorkflow] + Requests(tasks);
    var mid := After(s, first);
    SweepAndStop(s, tasks);
    StopAllStops(s.rows, tasks);
    OneAction(mid, SweepWorkflow);
    SweepLeavesPokes(mid, pokes);
    DeliveriesHandle(Next(mid, SweepWorkflow), pokes);
    AfterConcat(s, first, [SweepWorkflow]);
    AfterConcat(s, first + [SweepWorkflow], Deliveries(pokes));
  }

  lemma SweepAndStop(s: State, tasks: seq<TaskId>)
    requires Agrees(s.rows) && s.now < s.rows.wf.deadline
    requires (set t | t in tasks :: CancelTask(t)) == SweptCancels(s.rows)
    ensures var mid := After(s, [SweepWorkflow] + Requests(tasks));
            mid.rows == StopAll(s.rows, tasks) && mid.now == s.now
  {
    NothingToSettle(s.rows);
    var swept := Next(s, SweepWorkflow);
    assert swept.rows == s.rows && swept.now == s.now && SweptCancels(s.rows) <= swept.msgs;
    forall i | 0 <= i < |tasks| ensures CancelTask(tasks[i]) in swept.msgs {
      assert tasks[i] in tasks;
      assert CancelTask(tasks[i]) in SweptCancels(s.rows);
    }
    OneAction(s, SweepWorkflow);
    AfterConcat(s, [SweepWorkflow], Requests(tasks));
    RequestsStopAll(swept, tasks);
  }

  /** Before the deadline sweeps alone see to it, whatever requests and notifications were lost. */
  lemma CanEnd(s: State) returns (more: seq<Action>)
    requires SystemInv(s) && s.rows.wf.state == WfCancelling && s.now < s.rows.wf.deadline
    ensures After(s, more).rows.wf.state == WfCancelled
  {
    var requests := Enumerated(SweptCancels(s.rows));
    OnlyRequests(s.rows, requests);
    var tasks := TasksOf(requests);
    var pokes := Enumerated(Reconcile(StopAll(s.rows, tasks), s.now).sends);
    more := [SweepWorkflow] + Requests(tasks) + [SweepWorkflow] + Deliveries(pokes);
    CancellationIsARun(s, tasks, pokes);
  }

  lemma OnlyRequests(rows: Rows, requests: seq<Msg>)
    requires Elems(requests) == SweptCancels(rows)
    ensures forall m :: m in requests ==> m.CancelTask?
  {
    forall m | m in requests ensures m.CancelTask? { assert m in Elems(requests); }
  }

  lemma {:induction false} TasksOf(requests: seq<Msg>) returns (tasks: seq<TaskId>)
    requires forall m :: m in requests ==> m.CancelTask?
    ensures (set t | t in tasks :: CancelTask(t)) == Elems(requests)
  {
    if requests == [] {
      tasks := [];
    } else {
      var front, last := requests[..|requests| - 1], requests[|requests| - 1];
      var rest := TasksOf(front);
      tasks := rest + [last.task];
      assert requests == front + [last];
      Snoc(front, last);
      assert (set t | t in tasks :: CancelTask(t)) == (set t | t in rest :: CancelTask(t)) + {last};
    }
  }

  // ---- the requests of a cancellation are never lost for good --------------------------------

  /** All that a sweep would ask for has been asked for. */
  ghost predicate AllAsked(s: State) {
    SweptCancels(s.rows) <= s.msgs
  }

  lemma NothingToAsk(rows: Rows)
    requires Agrees(rows) && rows.wf.state != WfCancelling
    ensures SweptCancels(rows) == {}
  {
    assert forall n :: n in rows.steps ==> rows.steps[n].state != StepCancelling;
  }

  /** A cancellation that goes on asks for nothing new. */
  lemma NothingNewToAsk(a: Rows, b: Rows)
    requires Agrees(a) && LinkInv(a) && a.wf.state == WfCancelling && RowsAdvance(a, b) && CancellationWins(a, b)
    ensures SweptCancels(b) <= SweptCancels(a)
  {
    forall m | m in SweptCancels(b) ensures m in SweptCancels(a) {
      var n, t :| n in b.steps && b.steps[n].state == StepCancelling && t in b.steps[n].attempts
                  && !TerminalTask(TaskStateAt(b.tasks, t)) && m == CancelTask(t);
      StillAsked(a, b, n, t);
    }
  }

  lemma StillAsked(a: Rows, b: Rows, n: Name, t: TaskId)
    requires Agrees(a) && LinkInv(a) && a.wf.state == WfCancelling && RowsAdvance(a, b) && CancellationWins(a, b)
    requires n in b.steps && b.steps[n].state == StepCancelling && t in b.steps[n].attempts
    requires !TerminalTask(TaskStateAt(b.tasks, t))
    ensures CancelTask(t) in SweptCancels(a)
  {
    assert n in a.steps && a.steps[n].state == StepCancelling && t in a.steps[n].attempts;
    assert StepLinks(a, n);
    assert t < |a.tasks| && TaskEvolves(a.tasks[t], b.tasks[t]);
  }

  // Only the delivery of a cancellation makes a workflow CANCELLING.

  lemma HandleStarts(rows: Rows, m: Msg, now: Time)
    requires ForWorkflow(m) && !m.CancelWorkflow? && rows.wf.state != WfCancelling
    ensures Handle(rows, m, now).rows.wf.state != WfCancelling
  {
  }

  lemma ReactStarts(rows: Rows, m: Msg, now: Time, at: Time, senders: set<TaskName>)
    requires !m.CancelWorkflow? && rows.wf.state != WfCancelling
    ensures React(rows, m, now, at, senders).rows.wf.state != WfCancelling
  {
    if ForWorkflow(m) {
      assert React(rows, m, now, at, senders) == Handle(rows, m, now);
      HandleStarts(rows, m, now);
    }
  }

  lemma WorkersStartNone(s: State, r: RunId, w: Worker, served: bool, fault: bool, ending: Ending)
    ensures Received(s, r, w).rows.wf == s.rows.wf && Refused(s, r).rows.wf == s.rows.wf
    ensures BegunJob(s, r, served, fault).rows.wf == s.rows.wf && Finished(s, r, ending).rows.wf == s.rows.wf
  {
  }

  lemma SweepStartsNone(s: State, a: Action)
    requires TaskSweep(a)
    ensures SweepEffect(s, a).rows.wf == s.rows.wf
  {
  }

  lemma WorkStartsNone(s: State, a: Action)
    requires a.Receive? || a.Refuse? || a.Begin? || a.Finish? || a.Restart?
    ensures Next(s, a).rows.wf == s.rows.wf
  {
    match a
    case Receive(r, w) => ClaimActions(s, r, w); WorkersStartNone(s, r, w, false, false, Fault);
    case Refuse(r) => ClaimActions(s, r, ""); WorkersStartNone(s, r, "", false, false, Fault);
    case Begin(r, served, fault) => JobActions(s, r, served, fault, Fault); WorkersStartNone(s, r, "", served, fault, Fault);
    case Finish(r, ending) => JobActions(s, r, false, false, ending); WorkersStartNone(s, r, "", false, false, ending);
    case Restart(w) => CrashActions(s, w);
  }

  lemma QuietStartsNone(s: State, a: Action)
    requires a.Tick? || a.Queues? || a.AskProcess? || a.AskCancel? || a.AskRevive? || a.AskCancelTask? || a.SubmitTask?
          || a.Notify? || a.Leak? || a.Crash?
    ensures Next(s, a).rows.wf == s.rows.wf
  {
  }

  lemma OnlyCancelStarts(s: State, a: Action)
    requires s.rows.wf.state != WfCancelling && Next(s, a).rows.wf.state == WfCancelling
    ensures a.Deliver? && a.msg == CancelWorkflow && a.msg in s.msgs
  {
    if a.Deliver? {
      DeliverAction(s, a.msg, a.at);
      if a.msg != CancelWorkflow { ReactStarts(s.rows, a.msg, s.now, a.at, s.senders); }
    } else if a.SweepWorkflow? {
      SweepActions(s, a);
    } else if TaskSweep(a) {
      SweepActions(s, a);
      SweepStartsNone(s, a);
    } else if a.Receive? || a.Refuse? || a.Begin? || a.Finish? || a.Restart? {
      WorkStartsNone(s, a);
    } else {
      QuietStartsNone(s, a);
    }
  }

  lemma CancelAsks(s: State, at: Time)
    requires RowsInv(s.rows) && s.rows.wf.state != WfCancelling && CancelWorkflow in s.msgs
    ensures var t := Next(s, Deliver(CancelWorkflow, at)); t.rows.wf.state == WfCancelling ==> AllAsked(t)
  {
    DeliverAction(s, CancelWorkflow, at);
    assert React(s.rows, CancelWorkflow, s.now, at, s.senders) == Cancel(s.rows);
    CancelSends(s.rows);
  }

  lemma CancelSends(rows: Rows)
    requires Agrees(rows) && TasksInv(rows.tasks) && rows.wf.state != WfCancelling
    ensures Cancel(rows).rows.wf.state == WfCancelling ==> SweptCancels(Cancel(rows).rows) == Cancel(rows).sends
  {
    if rows.wf.state !in {WfCancelled, WfComplete} { CancelAsksForAll(rows); }
  }

  /** Every action keeps all requests sent. */
  lemma NextAsks(s: State, a: Action)
    requires SystemInv(s) && AllAsked(s)
    ensures AllAsked(Next(s, a))
  {
    var t := Next(s, a);
    if t.rows.wf.state != WfCancelling {
      NextInv(s, a);
      NothingToAsk(t.rows);
    } else if s.rows.wf.state == WfCancelling {
      NextRows(s, a);
      RowsStepForward(s.rows, t.rows);
      NextGrows(s, a);
      NothingNewToAsk(s.rows, t.rows);
    } else {
      OnlyCancelStarts(s, a);
      CancelAsks(s, a.at);
    }
  }

  lemma {:induction false} AfterAsks(s: State, actions: seq<Action>)
    requires SystemInv(s) && AllAsked(s)
    ensures AllAsked(After(s, actions))
  {
    if actions == [] {
    } else {
      var front, last := actions[..|actions| - 1], actions[|actions| - 1];
      AfterAsks(s, front);
      AfterInv(s, front);
      NextAsks(After(s, front), last);
    }
  }

  /** In every reachable state all cancel requests a sweep could send have been sent before. */
  lemma ReachedAsked(spec: SpecValidation.WorkflowSpec, start: Time, actions: seq<Action>)
    requires SpecValidation.Sound(spec)
    ensures AllAsked(Reached(spec, start, actions))
  {
    InitInv(spec, start);
    NothingToAsk(Init(spec, start).rows);
    AfterAsks(Init(spec, start), actions);
  }

  // ---- without a sweep, after the deadline too -----------------------------------------------

  /** Deliveries of what has been sent, and notifications of what has been logged: no user, no sweep, no
      worker, and no passing of time. */
  predicate MailOnly(actions: seq<Action>) {
    forall i :: 0 <= i < |actions| ==> actions[i].Deliver? || actions[i].Notify?
  }

  lemma {:induction false} StateWasLogged(log: seq<Event>, t: TaskId) returns (i: nat)
    requires LoggedTask(log, t) != TaskPending
    ensures i < |log| && log[i] == TaskEvent(t, LoggedTask(log, t))
  {
    var last := |log| - 1;
    if log[last].TaskEvent? && log[last].task == t {
      i := last;
    } else {
      i := StateWasLogged(log[..last], t);
    }
  }

  /** A CANCELLING step's latest task can be brought to an end. */
  lemma EndTask(s: State, n: Name) returns (more: seq<Action>)
    requires LinkInv(s.rows) && AllAsked(s) && n in s.rows.steps && s.rows.steps[n].state == StepCancelling
    ensures MailOnly(more) && TaskEnded(s.rows, After(s, more).rows, n)
  {
    more := [];
    CurrentIsLinked(s.rows, n);
    if !TerminalTask(CurrentState(s.rows, n)) {
      var t := Current(s.rows, n);
      more := [Deliver(CancelTask(t), 0)];
      OneAction(s, Deliver(CancelTask(t), 0));
      StoppedForGood(s, n);
    }
  }

  predicate TaskEnded(a: Rows, b: Rows, n: Name) {
    b.wf == a.wf && b.steps == a.steps && n in b.steps && TerminalTask(CurrentState(b, n))
  }

  /** A CANCELLING step has a latest task, and the sweep would ask to cancel it if it is not over. */
  lemma CurrentIsLinked(rows: Rows, n: Name)
    requires LinkInv(rows) && n in rows.steps && rows.steps[n].state == StepCancelling
    ensures var t := Current(rows, n);
            && t in rows.steps[n].attempts && t < |rows.tasks|
            && (!TerminalTask(CurrentState(rows, n)) ==> CancelTask(t) in SweptCancels(rows))
  {
    assert StepLinks(rows, n);
  }

  lemma StoppedForGood(s: State, n: Name)
    requires n in s.rows.steps && CancelTask(Current(s.rows, n)) in s.msgs
    requires Current(s.rows, n) < |s.rows.tasks| && !TerminalTask(CurrentState(s.rows, n))
    ensures TaskEnded(s.rows, Next(s, Deliver(CancelTask(Current(s.rows, n)), 0)).rows, n)
  {
    var t := Current(s.rows, n);
    RequestStops(s, t);
    var b := StopTask(s.rows, t).rows;
    assert b.steps == s.rows.steps && TaskStateAt(b.tasks, t) == TaskCancelled;
    assert CurrentState(b, n) == TaskCancelled;
  }

  /** The notification of the ended task settles its step. */
  lemma TellTask(s: State, n: Name) returns (more: seq<Action>)
    requires Agrees(s.rows) && LinkInv(s.rows) && LogTellsStates(s.rows) && s.rows.wf.state == WfCancelling
    requires n in s.rows.steps && s.rows.steps[n].state == StepCancelling && TerminalTask(CurrentState(s.rows, n))
    ensures MailOnly(more) && Drains(s.rows, After(s, more).rows, n)
  {
    var t, outcome := Current(s.rows, n), OutcomeOf(CurrentState(s.rows, n));
    CurrentIsLinked(s.rows, n);
    OutcomeDrains(s.rows, n, t, outcome);
    var i := StateWasLogged(s.rows.log, t);
    assert s.rows.log[i] == TaskEvent(t, s.rows.tasks[t].state);
    more := [Notify(i)] + [Deliver(TaskUpdate(t, outcome), 0)];
    Told(s, i, TaskUpdate(t, outcome));
  }

  /** A notification and its delivery. */
  lemma Told(s: State, i: nat, m: Msg)
    requires i < |s.rows.log| && Notice(s.rows.log[i]) == Some(m) && m.TaskUpdate?
    ensures After(s, [Notify(i)] + [Deliver(m, 0)]).rows == ApplyTaskOutcome(s.rows, m.task, m.outcome).rows
  {
    AfterConcat(s, [Notify(i)], [Deliver(m, 0)]);
    OneAction(s, Notify(i));
    NotifyAction(s, i, m);
    OneAction(Send(s, m), Deliver(m, 0));
    UpdateAction(Send(s, m), m);
  }

  lemma NotifyAction(s: State, i: nat, m: Msg)
    requires i < |s.rows.log| && Notice(s.rows.log[i]) == Some(m)
    ensures Next(s, Notify(i)) == Send(s, m)
  {
  }

  lemma UpdateAction(s: State, m: Msg)
    requires m in s.msgs && m.TaskUpdate?
    ensures Next(s, Deliver(m, 0)).rows == ApplyTaskOutcome(s.rows, m.task, m.outcome).rows
  {
    DeliverAction(s, m, 0);
    assert React(s.rows, m, s.now, 0, s.senders) == Handle(s.rows, m, s.now);
  }

  lemma OutcomeDrains(rows: Rows, n: Name, t: TaskId, outcome: StepState)
    requires Agrees(rows) && LinkInv(rows) && rows.wf.state == WfCancelling && SettledStep(outcome)
    requires n in rows.steps && rows.steps[n].state == StepCancelling && t in rows.steps[n].attempts
    ensures Drains(rows, ApplyTaskOutcome(rows, t, outcome).rows, n)
  {
    LinkResolves(rows, n, t);
    AllOutcomesCancel(rows, n, outcome);
    CancelledOutcome(rows, n);
  }

  /** One CANCELLING step fewer. */
  predicate Drains(a: Rows, b: Rows, n: Name) {
    && b.wf.state in {WfCancelling, WfCancelled} && b.steps.Keys == a.steps.Keys && n in b.steps
    && b.steps[n].state != StepCancelling && forall m :: m in a.steps && m != n ==> b.steps[m] == a.steps[m]
  }

  lemma DrainCancellingStep(s: State, n: Name) returns (more: seq<Action>)
    requires SystemInv(s) && AllAsked(s) && s.rows.wf.state == WfCancelling
    requires n in s.rows.steps && s.rows.steps[n].state == StepCancelling
    ensures MailOnly(more) && Drains(s.rows, After(s, more).rows, n)
  {
    var first := EndTask(s, n);
    AfterInv(s, first);
    var second := TellTask(After(s, first), n);
    AfterConcat(s, first, second);
    more := first + second;
    EndedThenDrained(s.rows, After(s, first).rows, After(s, more).rows, n);
  }

  lemma EndedThenDrained(a: Rows, b: Rows, c: Rows, n: Name)
    requires TaskEnded(a, b, n) && Drains(b, c, n)
    ensures Drains(a, c, n)
  {
  }

  function Draining(rows: Rows): set<Name> {
    WithState(rows.steps, {StepCancelling})
  }

  lemma FewerDraining(a: Rows, b: Rows, n: Name)
    requires Drains(a, b, n) && n in Draining(a)
    ensures |Draining(b)| < |Draining(a)|
  {
    SubsetSize(Draining(b), Draining(a) - {n});
  }

  lemma SomeDraining(rows: Rows) returns (n: Name)
    requires Agrees(rows) && rows.wf.state == WfCancelling
    ensures n in rows.steps && rows.steps[n].state == StepCancelling
  {
    n :| n in rows.steps && rows.steps[n].state == StepCancelling;
  }

  /** On the way to CANCELLED, with every request sent. */
  ghost predicate BeingCancelled(s: State) {
    SystemInv(s) && AllAsked(s) && s.rows.wf.state in {WfCancelling, WfCancelled}
  }

  lemma DrainSome(s: State) returns (more: seq<Action>)
    requires BeingCancelled(s) && s.rows.wf.state == WfCancelling
    ensures MailOnly(more) && BeingCancelled(After(s, more)) && |Draining(After(s, more).rows)| < |Draining(s.rows)|
  {
    var n := SomeDraining(s.rows);
    more := DrainCancellingStep(s, n);
    FewerDraining(s.rows, After(s, more).rows, n);
    AfterInv(s, more);
    AfterAsks(s, more);
  }

  lemma {:induction false} DrainByMail(s: State) returns (more: seq<Action>)
    requires BeingCancelled(s)
    ensures MailOnly(more) && After(s, more).rows.wf.state == WfCancelled
    decreases |Draining(s.rows)|
  {
    if s.rows.wf.state == WfCancelled {
      more := [];
    } else {
      var first := DrainSome(s);
      var rest := DrainByMail(After(s, first));
      more := first + rest;
      AfterConcat(s, first, rest);
    }
  }

  /** From every reachable CANCELLING workflow, before its deadline or after it, some continuation ends
      CANCELLED, and it takes no more than the mail that is already on its way. */
  lemma EveryCancellationCanEnd(spec: SpecValidation.WorkflowSpec, start: Time, actions: seq<Action>) returns (more: seq<Action>)
    requires SpecValidation.Sound(spec)
    ensures MailOnly(more)
    ensures Reached(spec, start, actions).rows.wf.state == WfCancelling ==>
              Reached(spec, start, actions + more).rows.wf.state == WfCancelled
  {
    var s := Reached(spec, start, actions);
    more := [];
    if s.rows.wf.state == WfCancelling {
      ReachedInv(spec, start, actions);
      ReachedAsked(spec, start, actions);
      more := DrainByMail(s);
      AfterConcat(Init(spec, start), actions, more);
    }
  }
}
