/** Runs of the two engines in which the code does less, or other, than its comments say. Each case is a
    list of actions from the definition of a one-step workflow. */
module Examples {
  import opened Prelude
  import opened Tables
  import opened Backoff
  import opened StepGraph
  import opened Rows
  import opened WorkflowSpec
  import opened TaskSpec
  import opened Errors
  import opened System
  import opened SystemInvariants
  import opened Guarantees
  import opened LostSuccess
  import SpecValidation

  const ONE_RETRY: RetryParams := RetryParams(1, 1, None, 1.0)

  /** Unlimited retries whose initial delay does not survive the conversion to nanoseconds. */
  const WRAPPED_RETRY: RetryParams := RetryParams(-1, 9_223_372_037, None, 1.0)

  function OneStep(retry: RetryParams): SpecValidation.WorkflowSpec {
    SpecValidation.WorkflowSpec("flow", Some(100), map["a" := SpecValidation.StepSpec("a", "type", retry, {})])
  }

  const RUN: RunId := RunId(0, 0)

  lemma OneStepIsSound(retry: RetryParams)
    requires ValidRetry(retry)
    ensures SpecValidation.Sound(OneStep(retry))
  {
    var spec := OneStep(retry);
    var g := SpecValidation.GraphOf(spec);
    assert g == map["a" := {}];
    RankedIsAcyclic(g, map["a" := 0]);
    assert "a" in spec.steps && |"flow"| == 4 && |"a"| == 1 && |"type"| == 4;
    assert SpecValidation.BasicallyValid(spec) && KnownParents(g);
  }

  // ---- following a run -----------------------------------------------------------------------

  /** All of a state but its messages, its log and its histories. */
  datatype View = View(now: Time, wf: Workflow, step: Step, tasks: seq<Task>, jobs: map<RunId, Job>)

  predicate Seen(s: State, v: View) {
    && s.now == v.now && s.senders == {WORKFLOW_TASK}
    && s.rows.wf == v.wf && s.rows.steps == map["a" := v.step] && s.rows.tasks == v.tasks && s.jobs == v.jobs
  }

  function Started(retry: RetryParams): State {
    Init(OneStep(retry), 0)
  }

  function FirstStep(retry: RetryParams): Step {
    Step(StepDefined, {}, 100, false, retry, [])
  }

  function FirstTask(retry: RetryParams): Task {
    Task(WORKFLOW_TASK, TaskPending, Immediate, Some(100), retry, 0, [])
  }

  /** One action more. */
  lemma Do(init: State, actions: seq<Action>, s: State, a: Action) returns (more: seq<Action>, t: State)
    requires s == After(init, actions)
    ensures more == actions + [a] && t == Next(s, a) && t == After(init, more)
    ensures s.msgs <= t.msgs && s.calls <= t.calls
  {
    more, t := actions + [a], Next(s, a);
    assert more[..|actions|] == actions;
    NextGrows(s, a);
  }

  // ---- what single actions do ----------------------------------------------------------------

  lemma Processing(s: State, v: View)
    requires Seen(s, v) && ProcessWorkflow in s.msgs && v.step.state == StepDefined && v.step.parents == {}
    requires v.wf.state in {WfPending, WfRunning}
    ensures var t := Next(s, Deliver(ProcessWorkflow, 0));
            Seen(t, v.(wf := v.wf.(state := WfRunning), step := v.step.(state := StepPending))) && ScheduleStep("a") in t.msgs
  {
    assert "a" in Ready(s.rows.steps);
  }

  lemma Scheduling(s: State, v: View)
    requires Seen(s, v) && ScheduleStep("a") in s.msgs && v.step.state == StepPending && v.wf.state == WfRunning
    requires v.now <= v.wf.deadline && forall t :: t in v.step.attempts ==> t < |v.tasks| && TerminalTask(v.tasks[t].state)
    ensures var t := Next(s, Deliver(ScheduleStep("a"), 0));
            && Seen(t, v.(step := v.step.(state := StepRunning, attempts := v.step.attempts + [|v.tasks|]),
                          tasks := v.tasks + [StepTask(v.step, v.now)]))
            && NewTask(|v.tasks|) in t.msgs
  {
    assert LiveAttempts(s.rows, "a") == {};
  }

  lemma Activating(s: State, v: View)
    requires Seen(s, v) && NewTask(0) in s.msgs && |v.tasks| == 1
    requires v.tasks[0].state == TaskPending && v.tasks[0].timing == Immediate && v.tasks[0].name == WORKFLOW_TASK
    requires v.tasks[0].runs == []
    ensures var t := Next(s, Deliver(NewTask(0), 0));
            && Seen(t, v.(tasks := [v.tasks[0].(state := TaskActive, runs := [FirstRun(v.tasks[0])])]))
            && PendingInstance(RUN) in t.msgs
  {
    assert v.tasks[0].runs + [FirstRun(v.tasks[0])] == [FirstRun(v.tasks[0])];
  }

  /** A view with one ACTIVE task with one run. */
  predicate OneRun(v: View, state: RunState) {
    && |v.tasks| == 1 && v.tasks[0].state == TaskActive && |v.tasks[0].runs| == 1
    && v.tasks[0].runs[0].state == state
  }

  function WithRun(v: View, run: Run): View
    requires |v.tasks| == 1
  {
    v.(tasks := [v.tasks[0].(runs := [run])])
  }

  lemma OneRunWritten(v: View, run: Run)
    requires |v.tasks| == 1 && |v.tasks[0].runs| == 1
    ensures v.tasks[0 := PutRun(v.tasks[0], 0, run)] == WithRun(v, run).tasks
  {
    assert PutRun(v.tasks[0], 0, run).runs == [run];
  }

  lemma Claiming(s: State, v: View)
    requires Seen(s, v) && OneRun(v, RunEnqueued) && PendingInstance(RUN) in s.msgs && v.jobs == map[]
    ensures var t := Next(s, Receive(RUN, "w"));
            Seen(t, WithRun(v, v.tasks[0].runs[0].(state := RunAcquired, worker := Some("w"))).(jobs := map[RUN := Job("w", Submitted)]))
  {
    OneRunWritten(v, v.tasks[0].runs[0].(state := RunAcquired, worker := Some("w")));
    assert s.jobs[RUN := Job("w", Submitted)] == map[RUN := Job("w", Submitted)];
  }

  lemma Beginning(s: State, v: View)
    requires Seen(s, v) && OneRun(v, RunAcquired) && v.jobs == map[RUN := Job("w", Submitted)]
    ensures var t := Next(s, Begin(RUN, true, false));
            && Seen(t, WithRun(v, v.tasks[0].runs[0].(state := RunProcessing)).(jobs := map[RUN := Job("w", Invoked)]))
            && RUN in t.calls
  {
    OneRunWritten(v, v.tasks[0].runs[0].(state := RunProcessing));
    assert s.jobs[RUN := Job("w", Invoked)] == map[RUN := Job("w", Invoked)];
  }

  lemma Failing(s: State, v: View, error: Error)
    requires Seen(s, v) && OneRun(v, RunProcessing) && v.jobs == map[RUN := Job("w", Invoked)]
    requires !As(error, TaskExecutor)
    ensures var t := Next(s, Finish(RUN, Failure(error)));
            && Seen(t, WithRun(v, FailedWith(v.tasks[0].runs[0], As(error, NonRecoverable))).(jobs := map[]))
            && ExecFailed(RUN) in t.msgs
  {
    var told := Error.Error(TaskExecution, Some(error));
    assert As(told, TaskExecutor) == As(error, TaskExecutor) && As(told, NonRecoverable) == As(error, NonRecoverable);
    assert JobError(Invoked, Failure(error)) == Some(told);
    OneRunWritten(v, FailedWith(v.tasks[0].runs[0], As(error, NonRecoverable)));
    FinishedShape(s, RUN, Failure(error));
    assert Without(s.jobs, RUN) == map[];
  }

  /** The only run has failed, and there is no retry. */
  lemma FailedForGood(s: State, v: View)
    requires Seen(s, v) && OneRun(v, RunFailed) && ExecFailed(RUN) in s.msgs
    requires v.tasks[0].runs[0].terminal == Some(RunFailed)
    requires v.tasks[0].runs[0].noRetry || NextDelay(v.tasks[0].retry, 0) <= 0
    ensures var t := Next(s, Deliver(ExecFailed(RUN), 0));
            && Seen(t, v.(tasks := [v.tasks[0].(state := TaskFailed, runs := [Finalized(v.tasks[0].runs[0])])]))
            && TaskEvent(0, TaskFailed) in t.rows.log
  {
    var runs := PutRun(v.tasks[0], 0, Finalized(v.tasks[0].runs[0])).runs;
    OneRunWritten(v, Finalized(v.tasks[0].runs[0]));
    OneFailure(runs);
    assert runs == [Finalized(v.tasks[0].runs[0])];
    var t := Next(s, Deliver(ExecFailed(RUN), 0));
    assert t.rows.log == s.rows.log + [TaskEvent(0, TaskFailed)];
  }

  lemma OneFailure(runs: seq<Run>)
    requires |runs| == 1 && runs[0].terminal == Some(RunFailed)
    ensures CountFailed(runs) == 1
  {
    assert runs[..0] == [];
    assert CountFailed(runs[..0]) == 0;
  }

  // ---- stations ------------------------------------------------------------------------------

  lemma Asking(retry: RetryParams)
    ensures var t := Next(Next(Started(retry), Queues({WORKFLOW_TASK})), AskProcess);
            Seen(t, View(0, Workflow(WfPending, 100), FirstStep(retry), [], map[])) && ProcessWorkflow in t.msgs
  {
    assert DefinedRows(OneStep(retry)).steps == map["a" := FirstStep(retry)];
  }

  function Dispatched(retry: RetryParams): View {
    View(0, Workflow(WfRunning, 100), FirstStep(retry).(state := StepRunning, attempts := [0]), [FirstTask(retry)], map[])
  }

  /** The step's task has been dispatched. */
  lemma Dispatching(retry: RetryParams) returns (actions: seq<Action>, s: State)
    ensures s == After(Started(retry), actions) && Seen(s, Dispatched(retry))
    ensures NewTask(0) in s.msgs && ProcessWorkflow in s.msgs && ScheduleStep("a") in s.msgs
  {
    var init := Started(retry);
    var v := View(0, Workflow(WfPending, 100), FirstStep(retry), [], map[]);
    Asking(retry);
    actions, s := Do(init, [], init, Queues({WORKFLOW_TASK}));
    actions, s := Do(init, actions, s, AskProcess);
    Processing(s, v);
    actions, s := Do(init, actions, s, Deliver(ProcessWorkflow, 0));
    v := v.(wf := v.wf.(state := WfRunning), step := v.step.(state := StepPending));
    Scheduling(s, v);
    actions, s := Do(init, actions, s, Deliver(ScheduleStep("a"), 0));
    assert [] + [0] == [0];
  }

  function Executing(retry: RetryParams, state: RunState, job: map<RunId, Job>): View {
    Dispatched(retry).(tasks := [FirstTask(retry).(state := TaskActive,
                                                   runs := [FirstRun(FirstTask(retry)).(state := state, worker := Some("w"))])],
                       jobs := job)
  }

  /** Its run has been claimed by a worker. */
  lemma ClaimingFirst(retry: RetryParams) returns (actions: seq<Action>, s: State)
    ensures s == After(Started(retry), actions)
    ensures Seen(s, Executing(retry, RunAcquired, map[RUN := Job("w", Submitted)]))
    ensures ProcessWorkflow in s.msgs && ScheduleStep("a") in s.msgs && PendingInstance(RUN) in s.msgs
  {
    var init := Started(retry);
    actions, s := Dispatching(retry);
    Activating(s, Dispatched(retry));
    actions, s := Do(init, actions, s, Deliver(NewTask(0), 0));
    var v := Dispatched(retry).(tasks := [FirstTask(retry).(state := TaskActive, runs := [FirstRun(FirstTask(retry))])]);
    Claiming(s, v);
    actions, s := Do(init, actions, s, Receive(RUN, "w"));
  }

  function FailedView(retry: RetryParams, noRetry: bool): View {
    var run := FailedWith(FirstRun(FirstTask(retry)).(worker := Some("w")), noRetry);
    Dispatched(retry).(tasks := [FirstTask(retry).(state := TaskFailed, runs := [Finalized(run)])])
  }

  /** Its processor has failed, and with it the task. */
  lemma FailingFirst(retry: RetryParams, noRetry: bool) returns (actions: seq<Action>, s: State)
    requires noRetry || NextDelay(retry, 0) <= 0
    ensures s == After(Started(retry), actions) && Seen(s, FailedView(retry, noRetry))
    ensures ProcessWorkflow in s.msgs && ScheduleStep("a") in s.msgs
    ensures TaskEvent(0, TaskFailed) in s.rows.log && RUN in s.calls
  {
    var init := Started(retry);
    var error := Error.Error(if noRetry then NonRecoverable else Other, None);
    actions, s := ClaimingFirst(retry);
    Beginning(s, Executing(retry, RunAcquired, map[RUN := Job("w", Submitted)]));
    actions, s := Do(init, actions, s, Begin(RUN, true, false));
    var v := Executing(retry, RunProcessing, map[RUN := Job("w", Invoked)]);
    Failing(s, v, error);
    actions, s := Do(init, actions, s, Finish(RUN, Failure(error)));
    v := WithRun(v, FailedWith(v.tasks[0].runs[0], noRetry)).(jobs := map[]);
    FailedForGood(s, v);
    actions, s := Do(init, actions, s, Deliver(ExecFailed(RUN), 0));
    assert s.rows.tasks == FailedView(retry, noRetry).tasks;
  }

  // ---- what the sweep, a revival and a late outcome do ---------------------------------------

  lemma Sweeping(s: State, v: View, outcome: StepState)
    requires Seen(s, v) && v.now < v.wf.deadline && v.wf.state == WfRunning && v.step.state == StepRunning
    requires v.step.attempts == [0] && |v.tasks| == 1 && TerminalTask(v.tasks[0].state)
    requires outcome == OutcomeOf(v.tasks[0].state)
    ensures Seen(Next(s, SweepWorkflow), v) && ExecUpdate("a", outcome) in Next(s, SweepWorkflow).msgs
  {
    assert LostOutcome(s.rows, "a") == Some(outcome);
    assert "a" in s.rows.steps && ExecUpdate("a", outcome) in SweptOutcomes(s.rows);
  }

  lemma LinkedToStep(v: View, t: TaskId)
    requires t in v.step.attempts
    ensures StepOfTask(map["a" := v.step], t) == Some("a")
  {
    var steps := map["a" := v.step];
    assert "a" in steps && t in steps["a"].attempts;
  }

  lemma StepFails(s: State, v: View)
    requires Seen(s, v) && v.wf.state == WfRunning && v.step.state == StepRunning
    ensures ApplyOutcome(s.rows, "a", StepFailed).rows.wf == v.wf.(state := WfFailed)
    ensures ApplyOutcome(s.rows, "a", StepFailed).rows.steps == map["a" := v.step.(state := StepFailed)]
    ensures ApplyOutcome(s.rows, "a", StepFailed).rows.tasks == v.tasks
    ensures s.rows.log <= ApplyOutcome(s.rows, "a", StepFailed).rows.log
  {
  }

  function FailedAgain(v: View): View {
    v.(wf := v.wf.(state := WfFailed), step := v.step.(state := StepFailed))
  }

  /** The workflow has failed with its only step. */
  lemma FailingWorkflow() returns (actions: seq<Action>, s: State)
    ensures s == After(Started(ONE_RETRY), actions) && Seen(s, FailedAgain(FailedView(ONE_RETRY, true)))
    ensures ProcessWorkflow in s.msgs && ScheduleStep("a") in s.msgs && TaskEvent(0, TaskFailed) in s.rows.log
  {
    var init, v := Started(ONE_RETRY), FailedView(ONE_RETRY, true);
    actions, s := FailingFirst(ONE_RETRY, true);
    Sweeping(s, v, StepFailed);
    actions, s := SweepOn(init, actions, s);
    StepFails(s, v);
    actions, s := Do(init, actions, s, Deliver(ExecUpdate("a", StepFailed), 0));
  }

  /** A sweep that writes nothing to the log. */
  lemma SweepOn(init: State, actions: seq<Action>, s: State) returns (more: seq<Action>, t: State)
    requires s == After(init, actions)
    ensures more == actions + [SweepWorkflow] && t == Next(s, SweepWorkflow) && t == After(init, more)
    ensures s.msgs <= t.msgs && s.calls <= t.calls && s.rows.log <= t.rows.log
  {
    more, t := Do(init, actions, s, SweepWorkflow);
  }

  // ---- the cases -----------------------------------------------------------------------------

  /** A workflow that failed before its deadline is not timed out after it: no sweep changes anything. */
  lemma LateFailedWorkflowStays() returns (actions: seq<Action>)
    ensures SpecValidation.Sound(OneStep(ONE_RETRY))
    ensures var s := Reached(OneStep(ONE_RETRY), 0, actions);
            s.rows.wf.state == WfFailed && s.now > s.rows.wf.deadline && Next(s, SweepWorkflow) == s
  {
    OneStepIsSound(ONE_RETRY);
    var s;
    actions, s := FailingWorkflow();
    actions, s := Do(Started(ONE_RETRY), actions, s, Tick(101));
    LateSweepAborts(s);
  }

  lemma LateSweepAborts(s: State)
    requires s.rows.wf.state == WfFailed && s.now > s.rows.wf.deadline
    ensures Next(s, SweepWorkflow) == s
  {
    assert Next(s, SweepWorkflow) == Commit(s, Reconcile(s.rows, s.now));
    assert TimeOut(s.rows) == Abort(s.rows);
    assert s.msgs + {} == s.msgs;
  }

  /** Retries without limit, and an ordinary failure: the task is FAILED after its first run. */
  lemma UnlimitedRetriesNeverRetried() returns (actions: seq<Action>)
    ensures SpecValidation.Sound(OneStep(WRAPPED_RETRY)) && WRAPPED_RETRY.maxRetries == -1
    ensures var s := Reached(OneStep(WRAPPED_RETRY), 0, actions);
            && |s.rows.tasks| == 1 && s.rows.tasks[0].state == TaskFailed && s.rows.tasks[0].retry == WRAPPED_RETRY
            && |s.rows.tasks[0].runs| == 1 && !s.rows.tasks[0].runs[0].noRetry
  {
    OneStepIsSound(WRAPPED_RETRY);
    WrappedSeconds();
    var s;
    actions, s := FailingFirst(WRAPPED_RETRY, false);
  }

  lemma Reviving(s: State, v: View, newDeadline: Option<Time>)
    requires Seen(s, v) && ReviveWorkflow(newDeadline) in s.msgs && Revivable(s.rows, newDeadline, s.now)
    requires v.step.state in {StepFailed, StepTimedOut}
    ensures var t := Next(s, Deliver(ReviveWorkflow(newDeadline), 0));
            var deadline := if newDeadline.Some? then newDeadline.value else v.wf.deadline;
            && Seen(t, v.(wf := Workflow(WfRunning, deadline),
                          step := v.step.(state := StepDefined, restarted := true,
                                          deadline := if newDeadline.Some? then deadline else v.step.deadline)))
            && s.rows.log <= t.rows.log
  {
    var moved := Revived(s.rows);
    assert WithState(MoveWf(s.rows, WfRunning).steps, {StepFailed, StepTimedOut}) == {"a"};
    assert moved.steps == map["a" := v.step.(state := StepDefined, restarted := true)];
    if newDeadline.Some? {
      assert MoveDeadline(moved, newDeadline.value).steps["a"] == moved.steps["a"].(deadline := newDeadline.value);
    }
  }

  /** The notification of an event that is in the log. */
  lemma Notifying(init: State, actions: seq<Action>, s: State, e: Event) returns (more: seq<Action>, t: State)
    requires s == After(init, actions) && e in s.rows.log && Notice(e).Some?
    ensures t == After(init, more) && t == Send(s, Notice(e).value)
  {
    var i :| 0 <= i < |s.rows.log| && s.rows.log[i] == e;
    more, t := Do(init, actions, s, Notify(i));
  }

  function Revived0(): View {
    var v := FailedAgain(FailedView(ONE_RETRY, true));
    v.(wf := Workflow(WfRunning, 100), step := v.step.(state := StepDefined, restarted := true))
  }

  function SecondAttempt(): View {
    var v := Revived0();
    v.(step := v.step.(state := StepRunning, attempts := [0, 1]), tasks := v.tasks + [StepTask(v.step, 0)])
  }

  /** The failed step has been revived and its second task dispatched. */
  lemma DispatchingAgain() returns (actions: seq<Action>, s: State)
    ensures s == After(Started(ONE_RETRY), actions) && Seen(s, SecondAttempt()) && TaskEvent(0, TaskFailed) in s.rows.log
  {
    var init := Started(ONE_RETRY);
    actions, s := FailingWorkflow();
    actions, s := Do(init, actions, s, AskRevive(None));
    Reviving(s, FailedAgain(FailedView(ONE_RETRY, true)), None);
    actions, s := Do(init, actions, s, Deliver(ReviveWorkflow(None), 0));
    Processing(s, Revived0());
    var t;
    actions, t := Do(init, actions, s, Deliver(ProcessWorkflow, 0));
    LogGrows(s, Deliver(ProcessWorkflow, 0));
    s := t;
    Scheduling(s, Revived0().(step := Revived0().step.(state := StepPending)));
    actions, t := Do(init, actions, s, Deliver(ScheduleStep("a"), 0));
    LogGrows(s, Deliver(ScheduleStep("a"), 0));
    s := t;
    assert [0] + [1] == [0, 1];
  }

  lemma LogGrows(s: State, a: Action)
    requires a == Deliver(ProcessWorkflow, 0) || a == Deliver(ScheduleStep("a"), 0)
    ensures s.rows.log <= Next(s, a).rows.log
  {
  }

  lemma LateOutcome(s: State, v: View)
    requires Seen(s, v) && v.wf.state == WfRunning && v.step.state == StepRunning && 0 in v.step.attempts
    requires TaskUpdate(0, StepFailed) in s.msgs
    ensures Seen(Next(s, Deliver(TaskUpdate(0, StepFailed), 0)), FailedAgain(v))
  {
    LinkedToStep(v, 0);
    StepFails(s, v);
    assert Next(s, Deliver(TaskUpdate(0, StepFailed), 0)).rows == ApplyOutcome(s.rows, "a", StepFailed).rows;
  }

  /** A late notification of the first attempt fails the revived step and its workflow while the second
      attempt is waiting to run. */
  lemma LateOutcomeHitsRevivedStep() returns (actions: seq<Action>)
    ensures SpecValidation.Sound(OneStep(ONE_RETRY))
    ensures var rows := Reached(OneStep(ONE_RETRY), 0, actions).rows;
            && rows.wf.state == WfFailed && "a" in rows.steps && rows.steps["a"].state == StepFailed
            && rows.steps["a"].attempts == [0, 1] && |rows.tasks| == 2 && LiveTask(rows.tasks[1].state)
  {
    OneStepIsSound(ONE_RETRY);
    var init := Started(ONE_RETRY);
    var s;
    actions, s := DispatchingAgain();
    actions, s := Notifying(init, actions, s, TaskEvent(0, TaskFailed));
    LateOutcome(s, SecondAttempt());
    actions, s := Do(init, actions, s, Deliver(TaskUpdate(0, StepFailed), 0));
    FailedWhileLive(s);
  }

  lemma FailedWhileLive(s: State)
    requires Seen(s, FailedAgain(SecondAttempt()))
    ensures && s.rows.wf.state == WfFailed && "a" in s.rows.steps && s.rows.steps["a"].state == StepFailed
            && s.rows.steps["a"].attempts == [0, 1] && |s.rows.tasks| == 2 && LiveTask(s.rows.tasks[1].state)
  {
  }

  // ---- an engine failure that is retried -----------------------------------------------------

  function RefusedRun(): Run {
    FailedWith(FirstRun(FirstTask(ONE_RETRY)).(state := RunAcquired, worker := Some("w")), false)
  }

  lemma Refusing(s: State)
    requires Seen(s, Executing(ONE_RETRY, RunAcquired, map[RUN := Job("w", Submitted)]))
    ensures var t := Next(s, Refuse(RUN));
            && Seen(t, WithRun(Executing(ONE_RETRY, RunAcquired, map[]), RefusedRun()))
            && EngineFailed(RUN) in t.msgs
  {
    OneRunWritten(Executing(ONE_RETRY, RunAcquired, map[]), RefusedRun());
    assert Without(s.jobs, RUN) == map[];
  }

  lemma SweptFirst(s: State)
    requires Seen(s, WithRun(Executing(ONE_RETRY, RunAcquired, map[]), RefusedRun()))
    ensures var t := Next(s, SweepFailed(RUN, 0));
            && |t.rows.tasks| == 1 && t.rows.tasks[0].state == TaskActive && |t.rows.tasks[0].runs| == 2
            && t.rows.tasks[0].runs[0].state == RunFinalized && t.rows.tasks[0].runs[1].state == RunScheduled
  {
    var task := s.rows.tasks[0];
    OneRunWritten(WithRun(Executing(ONE_RETRY, RunAcquired, map[]), RefusedRun()), Finalized(RefusedRun()));
    OneFailure(PutRun(task, 0, Finalized(RefusedRun())).runs);
    FittingSecondsAreExact(ONE_RETRY);
    DelayBounds(ONE_RETRY, 0);
  }

  lemma ReportTooLate(s: State)
    requires HasRun(s.rows, RUN) && RunAt(s.rows, RUN).state == RunFinalized && EngineFailed(RUN) in s.msgs
    ensures Next(s, Deliver(EngineFailed(RUN), 0)) == s
  {
    assert React(s.rows, EngineFailed(RUN), s.now, 0, s.senders) == Ignore(s.rows);
  }

  /** The executor refused the run, and the sweep found its FAILED row before the report arrived: the task
      is ACTIVE with a retry, and the report changes nothing any more. */
  lemma EngineFailureRetried() returns (actions: seq<Action>)
    ensures SpecValidation.Sound(OneStep(ONE_RETRY))
    ensures var s := Reached(OneStep(ONE_RETRY), 0, actions);
            && EngineFailed(RUN) in s.msgs && Next(s, Deliver(EngineFailed(RUN), 0)) == s
            && |s.rows.tasks| == 1 && s.rows.tasks[0].state == TaskActive && |s.rows.tasks[0].runs| == 2
  {
    OneStepIsSound(ONE_RETRY);
    var init := Started(ONE_RETRY);
    var s;
    actions, s := ClaimingFirst(ONE_RETRY);
    Refusing(s);
    actions, s := Do(init, actions, s, Refuse(RUN));
    SweptFirst(s);
    actions, s := Do(init, actions, s, SweepFailed(RUN, 0));
    ReportTooLate(s);
  }

  // ---- a cancelled task of a running step ----------------------------------------------------

  function CancelledView(): View {
    Dispatched(ONE_RETRY).(tasks := [FirstTask(ONE_RETRY).(state := TaskCancelled)])
  }

  lemma CancellingTask(s: State, v: View)
    requires Seen(s, v) && CancelTask(0) in s.msgs && |v.tasks| == 1 && v.tasks[0].state == TaskPending && v.tasks[0].runs == []
    ensures var t := Next(s, Deliver(CancelTask(0), 0));
            Seen(t, v.(tasks := [v.tasks[0].(state := TaskCancelled)])) && TaskEvent(0, TaskCancelled) in t.rows.log
  {
    assert CancelOngoing(v.tasks[0].(state := TaskCancelled)).runs == [];
    var t := Next(s, Deliver(CancelTask(0), 0));
    assert t.rows.log == s.rows.log + [TaskEvent(0, TaskCancelled)];
  }

  /** The sweep and its outcome, any number of times. */
  function Sweeps(n: nat): seq<Action> {
    if n == 0 then [] else Sweeps(n - 1) + [SweepWorkflow, Deliver(ExecUpdate("a", StepCancelled), 0)]
  }

  lemma CancelledRollsBack(s: State)
    requires Seen(s, CancelledView()) && ExecUpdate("a", StepCancelled) in s.msgs
    ensures Next(s, Deliver(ExecUpdate("a", StepCancelled), 0)) == s
  {
    assert ApplyOutcome(s.rows, "a", StepCancelled) == Abort(s.rows);
    assert React(s.rows, ExecUpdate("a", StepCancelled), s.now, 0, s.senders) == Abort(s.rows);
  }

  lemma SweptInVain(s: State)
    requires Seen(s, CancelledView())
    ensures var t := Next(Next(s, SweepWorkflow), Deliver(ExecUpdate("a", StepCancelled), 0));
            Seen(t, CancelledView()) && t.rows == s.rows
  {
    assert "a" in s.rows.steps && s.rows.steps["a"].state == StepRunning;
    assert Next(s, SweepWorkflow).rows == s.rows;
    Sweeping(s, CancelledView(), StepCancelled);
    CancelledRollsBack(Next(s, SweepWorkflow));
  }

  lemma {:induction false} AlwaysInVain(s: State, n: nat)
    requires Seen(s, CancelledView())
    ensures Seen(After(s, Sweeps(n)), CancelledView()) && After(s, Sweeps(n)).rows == s.rows
  {
    if n == 0 {
    } else {
      AlwaysInVain(s, n - 1);
      var before := Sweeps(n - 1);
      var mid, swept := before + [SweepWorkflow], After(s, before);
      assert mid[..|before|] == before && Sweeps(n) == mid + [Deliver(ExecUpdate("a", StepCancelled), 0)];
      assert Sweeps(n)[..|mid|] == mid;
      SweptInVain(swept);
    }
  }

  /** A user cancelled the task of a RUNNING step: the step's CANCELLED outcome rolls back, sweep after
      sweep, and the step stays RUNNING. */
  lemma CancelledTaskNeverSettles(n: nat) returns (actions: seq<Action>)
    ensures SpecValidation.Sound(OneStep(ONE_RETRY))
    ensures var s := Reached(OneStep(ONE_RETRY), 0, actions);
            && s.rows.wf.state == WfRunning && "a" in s.rows.steps && s.rows.steps["a"].state == StepRunning
            && |s.rows.tasks| == 1 && s.rows.tasks[0].state == TaskCancelled
            && Reached(OneStep(ONE_RETRY), 0, actions + Sweeps(n)).rows == s.rows
  {
    OneStepIsSound(ONE_RETRY);
    var init := Started(ONE_RETRY);
    var s;
    actions, s := Dispatching(ONE_RETRY);
    actions, s := Do(init, actions, s, AskCancelTask(0));
    CancellingTask(s, Dispatched(ONE_RETRY));
    actions, s := Do(init, actions, s, Deliver(CancelTask(0), 0));
    AlwaysInVain(s, n);
    AfterConcat(init, actions, Sweeps(n));
  }

  // ---- a cancelled step of a workflow nobody cancelled ---------------------------------------

  lemma TimingOut(s: State)
    requires Seen(s, Dispatched(ONE_RETRY).(now := 101))
    ensures var v := Dispatched(ONE_RETRY).(now := 101);
            var t := Next(s, SweepWorkflow);
            && Seen(t, v.(wf := Workflow(WfTimedOut, 100), step := v.step.(state := StepTimedOut)))
            && CancelTask(0) in t.msgs && t.msgs == s.msgs + CancelRunning(s.rows)
  {
    assert WithState(s.rows.steps, {StepDefined, StepPending, StepRunning}) == {"a"};
    assert "a" in s.rows.steps && 0 in LiveAttempts(s.rows, "a");
  }

  /** The view after the timeout, the cancellation of the late task and a revival. */
  function RevivedLate(): View {
    var v := Dispatched(ONE_RETRY);
    View(101, Workflow(WfRunning, 300), v.step.(state := StepDefined, restarted := true, deadline := 300),
         [FirstTask(ONE_RETRY).(state := TaskCancelled)], map[])
  }

  lemma RevivingLate() returns (actions: seq<Action>, s: State)
    ensures s == After(Started(ONE_RETRY), actions) && Seen(s, RevivedLate()) && TaskEvent(0, TaskCancelled) in s.rows.log
  {
    var init := Started(ONE_RETRY);
    actions, s := Dispatching(ONE_RETRY);
    actions, s := Do(init, actions, s, Tick(101));
    TimingOut(s);
    actions, s := Do(init, actions, s, SweepWorkflow);
    var v := Dispatched(ONE_RETRY).(now := 101);
    v := v.(wf := Workflow(WfTimedOut, 100), step := v.step.(state := StepTimedOut));
    CancellingTask(s, v);
    actions, s := Do(init, actions, s, Deliver(CancelTask(0), 0));
    actions, s := Do(init, actions, s, AskRevive(Some(300)));
    Reviving(s, v.(tasks := [v.tasks[0].(state := TaskCancelled)]), Some(300));
    actions, s := Do(init, actions, s, Deliver(ReviveWorkflow(Some(300)), 0));
  }

  lemma StepCancels(s: State)
    requires Seen(s, RevivedLate())
    ensures var b := ApplyOutcome(s.rows, "a", StepCancelled).rows;
            && b.wf == RevivedLate().wf && b.tasks == RevivedLate().tasks
            && b.steps == map["a" := RevivedLate().step.(state := StepCancelled)]
  {
    var moved := MoveSteps(s.rows, {"a"}, StepCancelled);
    assert "a" in moved.steps && moved.steps["a"].state == StepCancelled;
    assert !Settles(moved);
  }

  lemma CancellingRevivedStep(s: State)
    requires Seen(s, RevivedLate()) && TaskUpdate(0, StepCancelled) in s.msgs
    ensures var t := Next(s, Deliver(TaskUpdate(0, StepCancelled), 0));
            Seen(t, RevivedLate().(step := RevivedLate().step.(state := StepCancelled)))
  {
    LinkedToStep(RevivedLate(), 0);
    StepCancels(s);
    assert Next(s, Deliver(TaskUpdate(0, StepCancelled), 0)).rows == ApplyOutcome(s.rows, "a", StepCancelled).rows;
  }

  /** A timeout, a revival, and then the ordinary notification that the late task was cancelled: the
      revived step is CANCELLED in a RUNNING workflow. From there it can neither complete nor be revived
      (Guarantees.CancelledStepIsForever). */
  lemma LateCancellationHitsRevivedStep() returns (actions: seq<Action>)
    ensures SpecValidation.Sound(OneStep(ONE_RETRY))
    ensures var rows := Reached(OneStep(ONE_RETRY), 0, actions).rows;
            rows.wf.state == WfRunning && "a" in rows.steps && rows.steps["a"].state == StepCancelled
  {
    OneStepIsSound(ONE_RETRY);
    var init := Started(ONE_RETRY);
    var s;
    actions, s := RevivingLate();
    actions, s := Notifying(init, actions, s, TaskEvent(0, TaskCancelled));
    CancellingRevivedStep(s);
    actions, s := Do(init, actions, s, Deliver(TaskUpdate(0, StepCancelled), 0));
  }

  // ---- a success that is lost ----------------------------------------------------------------

  /** A second worker's claim is refused and reported; nothing else changes. */
  lemma SecondClaim(s: State, v: View)
    requires Seen(s, v) && OneRun(v, RunAcquired) && PendingInstance(RUN) in s.msgs
    ensures Seen(Next(s, Receive(RUN, "v")), v) && EngineFailed(RUN) in Next(s, Receive(RUN, "v")).msgs
  {
  }

  lemma Succeeding(s: State, v: View)
    requires Seen(s, v) && OneRun(v, RunProcessing) && v.jobs == map[RUN := Job("w", Invoked)]
    ensures var run := v.tasks[0].runs[0].(state := RunProcessed, terminal := Some(RunProcessed));
            Seen(Next(s, Finish(RUN, Success)), WithRun(v, run).(jobs := map[]))
  {
    JobActions(s, RUN, false, false, Success);
    FinishedShape(s, RUN, Success);
    OneRunWritten(v, v.tasks[0].runs[0].(state := RunProcessed, terminal := Some(RunProcessed)));
    assert Without(s.jobs, RUN) == map[];
  }

  /** The report of the refused claim is handled before the success. */
  lemma ReportedFirst(s: State, v: View)
    requires Seen(s, v) && OneRun(v, RunProcessed) && EngineFailed(RUN) in s.msgs
    requires v.tasks[0].runs[0].terminal == Some(RunProcessed)
    ensures Lost(Next(s, Deliver(EngineFailed(RUN), 0)).rows, RUN)
  {
  }

  function SucceededView(): View {
    var run := FirstRun(FirstTask(ONE_RETRY)).(state := RunProcessed, worker := Some("w"), terminal := Some(RunProcessed));
    WithRun(Executing(ONE_RETRY, RunAcquired, map[]), run)
  }

  /** The request has been delivered to two workers, and the processor of the first has succeeded. */
  lemma SucceedingTwiceAsked() returns (actions: seq<Action>, s: State)
    ensures s == After(Started(ONE_RETRY), actions) && Seen(s, SucceededView())
    ensures EngineFailed(RUN) in s.msgs && RUN in s.calls
  {
    var init, v := Started(ONE_RETRY), Executing(ONE_RETRY, RunAcquired, map[RUN := Job("w", Submitted)]);
    actions, s := ClaimingFirst(ONE_RETRY);
    SecondClaim(s, v);
    actions, s := Do(init, actions, s, Receive(RUN, "v"));
    Beginning(s, v);
    actions, s := Do(init, actions, s, Begin(RUN, true, false));
    v := Executing(ONE_RETRY, RunProcessing, map[RUN := Job("w", Invoked)]);
    Succeeding(s, v);
    actions, s := Do(init, actions, s, Finish(RUN, Success));
  }

  /** A FAILED task does not mean a failed run: here the request of the only task is delivered to two
      workers, the processor is called once and succeeds, and the task ends FAILED all the same. */
  lemma SuccessReportedAsFailure() returns (actions: seq<Action>)
    ensures SpecValidation.Sound(OneStep(ONE_RETRY))
    ensures var s := Reached(OneStep(ONE_RETRY), 0, actions); Lost(s.rows, RUN) && RUN in s.calls
  {
    OneStepIsSound(ONE_RETRY);
    var s;
    actions, s := SucceedingTwiceAsked();
    ReportedFirst(s, SucceededView());
    actions, s := Do(Started(ONE_RETRY), actions, s, Deliver(EngineFailed(RUN), 0));
  }
}
