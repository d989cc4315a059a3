/** The database rows of one workflow and of the task engine, the audit log, and the messages that
    travel on the scheduler and worker queues. A step is identified by its name (unique within its
    workflow), a task by its position in creation order, a run by its task and its position among the
    task's runs. */
module Rows {
  import opened Prelude
  import opened Tables
  import opened Backoff
  import opened StepGraph
  import SpecValidation

  type Time = int
  type TaskId = nat
  type Worker = string
  type TaskName = string

  /** The name of the tasks that execute workflow steps. */
  const WORKFLOW_TASK: TaskName := "__EXECUTE_WORKFLOW_STEP__"

  datatype RunId = RunId(task: TaskId, index: nat)

  datatype Workflow = Workflow(state: WorkflowState, deadline: Time)

  /** `attempts` are the step's rows in the step-to-task link table, oldest first. */
  datatype Step = Step(
    state: StepState,
    parents: set<Name>,
    deadline: Time,
    restarted: bool,
    retry: RetryParams,
    attempts: seq<TaskId>)

  datatype Timing = Immediate | ScheduledAt(time: Time)

  /** An execution instance. `terminal` keeps the outcome after finalization; `noRetry` is the
      NON_RETRYABLE disposition. */
  datatype Run = Run(
    state: RunState,
    terminal: Option<RunState>,
    worker: Option<Worker>,
    noRetry: bool,
    enqueueAt: Option<Time>,
    deadline: Option<Time>,
    retryOf: Option<nat>)

  datatype Task = Task(
    name: TaskName,
    state: TaskState,
    timing: Timing,
    deadline: Option<Time>,
    retry: RetryParams,
    created: Time,
    runs: seq<Run>)

  /** One batch of audit rows. The rows a group update writes for its steps have no order among
      themselves, so they form one entry. */
  datatype Event =
    | WfEvent(wfState: WorkflowState)
    | StepEvents(names: set<Name>, stepState: StepState)
    | DeadlineEvent
    | TaskEvent(task: TaskId, taskState: TaskState)
    | EngineFailure(task: TaskId)

  datatype Rows = Rows(wf: Workflow, steps: map<Name, Step>, tasks: seq<Task>, log: seq<Event>)

  datatype Msg =
    | ProcessWorkflow
    | ScheduleStep(step: Name)
    | ExecUpdate(step: Name, outcome: StepState)
    | TaskUpdate(task: TaskId, outcome: StepState)
    | CancelWorkflow
    | ReviveWorkflow(newDeadline: Option<Time>)
    | NewTask(task: TaskId)
    | CancelTask(task: TaskId)
    | PendingInstance(run: RunId)
    | ExecSucceeded(run: RunId)
    | ExecFailed(run: RunId)
    | EngineFailed(run: RunId)

  function GraphOf(steps: map<Name, Step>): Parents {
    map n | n in steps :: steps[n].parents
  }

  /** The rows DefineNewWorkflow writes for an accepted specification. */
  function DefinedRows(spec: SpecValidation.WorkflowSpec): Rows
    requires spec.deadline.Some?
  {
    Rows(
      Workflow(WfPending, spec.deadline.value),
      map n | n in spec.steps ::
        Step(StepDefined, spec.steps[n].parents, spec.deadline.value, false, spec.steps[n].retry, []),
      [],
      [])
  }

  function WithState(steps: map<Name, Step>, states: set<StepState>): set<Name> {
    set n | n in steps && steps[n].state in states
  }

  predicate AllIn(steps: map<Name, Step>, states: set<StepState>) {
    forall n :: n in steps ==> steps[n].state in states
  }

  predicate Due(time: Option<Time>, now: Time) {
    time.Some? && time.value <= now
  }

  // ---- guarded writes ------------------------------------------------------------------------

  /** A workflow state write with its audit event. */
  function MoveWf(rows: Rows, state: WorkflowState): Rows {
    rows.(wf := rows.wf.(state := state), log := rows.log + [WfEvent(state)])
  }

  function Moved(step: Step, state: StepState): Step {
    step.(state := state, restarted := step.restarted || state == StepDefined)
  }

  /** A group write of step states with its audit events; an empty group leaves no trace. */
  function MoveSteps(rows: Rows, names: set<Name>, state: StepState): Rows {
    if names == {} then rows else
    rows.(
      steps := map n | n in rows.steps :: if n in names then Moved(rows.steps[n], state) else rows.steps[n],
      log := rows.log + [StepEvents(names, state)])
  }

  /** A new deadline for the workflow and for every step not COMPLETE or CANCELLED. */
  function MoveDeadline(rows: Rows, deadline: Time): Rows {
    rows.(
      wf := rows.wf.(deadline := deadline),
      steps := map n | n in rows.steps ::
        if rows.steps[n].state in {StepComplete, StepCancelled} then rows.steps[n]
        else rows.steps[n].(deadline := deadline),
      log := rows.log + [DeadlineEvent])
  }

  /** The state of a linked task; link rows always point at a task. */
  function TaskStateAt(tasks: seq<Task>, t: TaskId): TaskState {
    if t < |tasks| then tasks[t].state else TaskPending
  }

  // ---- transactions --------------------------------------------------------------------------

  /** The result of one transaction and the messages sent around its commit. `ok` is false when an
      error rolled the rows back. */
  datatype Effect = Effect(ok: bool, rows: Rows, sends: set<Msg>)

  function Ignore(rows: Rows): Effect {
    Effect(true, rows, {})
  }

  function Abort(rows: Rows): Effect {
    Effect(false, rows, {})
  }

  // ---- reading the audit log back ------------------------------------------------------------

  /** The workflow state told by the log alone: its last state event, or its birth state. */
  function LoggedWf(log: seq<Event>): WorkflowState {
    if log == [] then WfPending else
    match log[|log| - 1]
    case WfEvent(state) => state
    case _ => LoggedWf(log[..|log| - 1])
  }

  function LoggedStep(log: seq<Event>, n: Name): StepState {
    if log == [] then StepDefined else
    match log[|log| - 1]
    case StepEvents(names, state) => if n in names then state else LoggedStep(log[..|log| - 1], n)
    case _ => LoggedStep(log[..|log| - 1], n)
  }

  function LoggedTask(log: seq<Event>, t: TaskId): TaskState {
    if log == [] then TaskPending else
    match log[|log| - 1]
    case TaskEvent(task, state) => if task == t then state else LoggedTask(log[..|log| - 1], t)
    case _ => LoggedTask(log[..|log| - 1], t)
  }

  /** How often the user has revived a step. */
  function Revivals(log: seq<Event>, n: Name): nat {
    if log == [] then 0 else
    var earlier := Revivals(log[..|log| - 1], n);
    match log[|log| - 1]
    case StepEvents(names, StepDefined) => if n in names then earlier + 1 else earlier
    case _ => earlier
  }
}
