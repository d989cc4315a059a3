/** A scheduled run that is due, a retry in particular, is really executed: from every reachable state a sweep,
    a claim and a thread lead to a call of the processor for that very run, and its success to a COMPLETE
    task. */
module DueRuns {
  import opened Prelude
  import opened Tables
  import opened Rows
  import opened TaskSpec
  import opened TaskInvariants
  import opened System
  import opened SystemInvariants
  import opened Guarantees
  import opened Draining
  import opened TaskEffects
  import opened WorkerEffects
  import SpecValidation

  /** SCHEDULED for a time that has come, with a queue that takes the task's requests. */
  predicate DueRun(s: State, r: RunId) {
    && Exists(s.rows, r) && RunAt(s.rows, r).state == RunScheduled
    && RunAt(s.rows, r).enqueueAt.Some? && RunAt(s.rows, r).enqueueAt.value <= s.now
    && s.rows.tasks[r.task].name in s.senders
  }

  /** The run is in this state, and worker `w` has taken it this far. */
  predicate At(s: State, r: RunId, state: RunState, w: Worker, stage: Stage) {
    && RunIn(s.rows, r, {state}) && RunAt(s.rows, r).worker == Some(w)
    && r in s.jobs && s.jobs[r] == Job(w, stage)
  }

  lemma Requested(s: State, r: RunId)
    requires DueRun(s, r)
    ensures var t := Next(s, SweepDue(r)); RunIn(t.rows, r, {RunEnqueued}) && PendingInstance(r) in t.msgs
  {
    SweepActions(s, SweepDue(r));
    StartEffect(s.rows, r, s.senders);
  }

  lemma Claimed(s: State, r: RunId, w: Worker)
    requires RunIn(s.rows, r, {RunEnqueued}) && PendingInstance(r) in s.msgs
    ensures At(Next(s, Receive(r, w)), r, RunAcquired, w, Submitted)
  {
    ClaimEffect(s, r, w);
  }

  lemma Called(s: State, r: RunId, w: Worker)
    requires At(s, r, RunAcquired, w, Submitted)
    ensures var t := Next(s, Begin(r, true, false)); At(t, r, RunProcessing, w, Invoked) && r in t.calls
  {
    BeginEffect(s, r, true, false);
  }

  function Execution(r: RunId, w: Worker): seq<Action> {
    [SweepDue(r), Receive(r, w), Begin(r, true, false)]
  }

  lemma ThreeActions(s: State, a: Action, b: Action, c: Action)
    ensures After(s, [a, b, c]) == Next(Next(Next(s, a), b), c)
  {
    TwoActions(s, a, b);
    AfterConcat(s, [a, b], [c]);
    OneAction(Next(Next(s, a), b), c);
    assert [a, b] + [c] == [a, b, c];
  }

  lemma ExecutionCalls(s: State, r: RunId, w: Worker)
    requires DueRun(s, r)
    ensures var t := After(s, Execution(r, w)); At(t, r, RunProcessing, w, Invoked) && r in t.calls
  {
    ThreeActions(s, SweepDue(r), Receive(r, w), Begin(r, true, false));
    Requested(s, r);
    Claimed(Next(s, SweepDue(r)), r, w);
    Called(Next(Next(s, SweepDue(r)), Receive(r, w)), r, w);
  }

  /** From every reachable state with a run that is due: the sweep, a claim and a thread lead to the call of
      the processor for that run, which had not been called for it before. */
  lemma DueRunIsCalled(spec: SpecValidation.WorkflowSpec, start: Time, actions: seq<Action>, r: RunId, w: Worker)
    requires SpecValidation.Sound(spec) && DueRun(Reached(spec, start, actions), r)
    ensures r !in Reached(spec, start, actions).calls
    ensures var t := Reached(spec, start, actions + Execution(r, w)); r in t.calls && At(t, r, RunProcessing, w, Invoked)
  {
    var s := Reached(spec, start, actions);
    ReachedInv(spec, start, actions);
    NotTakenNotCalled(s, r);
    ExecutionCalls(s, r, w);
    AfterConcat(Init(spec, start), actions, Execution(r, w));
  }

  lemma NotTakenNotCalled(s: State, r: RunId)
    requires WorkInv(s) && Exists(s.rows, r) && RunAt(s.rows, r).state == RunScheduled
    ensures r !in s.calls
  {
  }

  function Completing(r: RunId): seq<Action> {
    [Finish(r, Success), Deliver(ExecSucceeded(r), 0)]
  }

  lemma TwoActions(s: State, a: Action, b: Action)
    ensures After(s, [a, b]) == Next(Next(s, a), b)
  {
    AfterConcat(s, [a], [b]);
    OneAction(s, a);
    OneAction(Next(s, a), b);
    assert [a] + [b] == [a, b];
  }

  lemma SuccessCompletes(s: State, r: RunId, w: Worker)
    requires At(s, r, RunProcessing, w, Invoked) && s.rows.tasks[r.task].state == TaskActive
    ensures var b := After(s, Completing(r)).rows;
            && r.task < |b.tasks| && b.tasks[r.task].state == TaskComplete
            && Exists(b, r) && RunAt(b, r).state == RunFinalized && RunAt(b, r).terminal == Some(RunProcessed)
  {
    var mid := Next(s, Finish(r, Success));
    TwoActions(s, Finish(r, Success), Deliver(ExecSucceeded(r), 0));
    SuccessfulEnd(s, r);
    DeliverAction(mid, ExecSucceeded(r), 0);
    CompletionEffect(mid.rows, r);
  }

  /** And if the processor succeeds, the task is COMPLETE: a task that failed before can still complete. */
  lemma DueRunCanComplete(spec: SpecValidation.WorkflowSpec, start: Time, actions: seq<Action>, r: RunId, w: Worker)
    requires SpecValidation.Sound(spec) && DueRun(Reached(spec, start, actions), r)
    ensures var b := Reached(spec, start, actions + Execution(r, w) + Completing(r)).rows;
            r.task < |b.tasks| && b.tasks[r.task].state == TaskComplete
            && Exists(b, r) && RunAt(b, r).state == RunFinalized && RunAt(b, r).terminal == Some(RunProcessed)
  {
    var before := actions + Execution(r, w);
    DueRunIsCalled(spec, start, actions, r, w);
    ReachedInv(spec, start, before);
    ProcessingIsActive(Reached(spec, start, before), r);
    SuccessCompletes(Reached(spec, start, before), r, w);
    AfterConcat(Init(spec, start), before, Completing(r));
  }

  lemma ProcessingIsActive(s: State, r: RunId)
    requires TasksInv(s.rows.tasks) && RunIn(s.rows, r, {RunProcessing})
    ensures s.rows.tasks[r.task].state == TaskActive
  {
    OnlyLatestOngoing(s.rows.tasks[r.task], r.index);
  }

  /** A retryable failure of an ACTIVE task with a retry left leaves such a run, due when the back-off has
      passed. */
  lemma FailureLeavesDueRun(s: State, r: RunId, at: Time)
    requires TasksInv(s.rows.tasks) && ExecFailed(r) in s.msgs && RunIn(s.rows, r, {RunFailed})
    requires s.rows.tasks[r.task].state == TaskActive && DelayAfter(s.rows.tasks[r.task], r.index) > 0
    requires s.rows.tasks[r.task].name in s.senders
    ensures var t := Next(s, Deliver(ExecFailed(r), at));
            var due := at + DelayAfter(s.rows.tasks[r.task], r.index);
            s.now <= due ==> DueRun(Next(t, Tick(due)), RunId(r.task, r.index + 1))
  {
    var t := Next(s, Deliver(ExecFailed(r), at));
    FailureDelivered(s, r, at);
    RetryFollows(s.rows, r, at);
    assert Next(t, Tick(at + DelayAfter(s.rows.tasks[r.task], r.index))).rows == t.rows;
  }

  lemma FailureDelivered(s: State, r: RunId, at: Time)
    requires ExecFailed(r) in s.msgs
    ensures var t := Next(s, Deliver(ExecFailed(r), at));
            t.rows == FailRun(s.rows, r, at).rows && t.now == s.now && t.senders == s.senders
  {
    DeliverAction(s, ExecFailed(r), at);
  }

  lemma RetryFollows(rows: Rows, r: RunId, at: Time)
    requires TasksInv(rows.tasks) && RunIn(rows, r, {RunFailed})
    requires rows.tasks[r.task].state == TaskActive && DelayAfter(rows.tasks[r.task], r.index) > 0
    ensures var b, q := FailRun(rows, r, at).rows, RunId(r.task, r.index + 1);
            && Exists(b, q) && b.tasks[q.task].name == rows.tasks[r.task].name && RunAt(b, q).state == RunScheduled
            && RunAt(b, q).enqueueAt == Some(at + DelayAfter(rows.tasks[r.task], r.index)) && RunAt(b, q).retryOf == Some(r.index)
  {
    NotLastIsSuperseded(rows, r);
    FailureEffect(rows, r, at);
  }
}
