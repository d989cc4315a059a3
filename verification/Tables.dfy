/** The state enumerations of workflows, workflow steps, tasks and execution instances ("runs"),
    and the transition tables that guard every state write. */
module Tables {

  datatype WorkflowState =
    | WfPending | WfRunning | WfComplete | WfFailed | WfTimedOut | WfCancelling | WfCancelled

  datatype StepState =
    | StepDefined | StepPending | StepRunning | StepComplete
    | StepFailed | StepTimedOut | StepCancelling | StepCancelled

  datatype TaskState =
    | TaskPending | TaskActive | TaskComplete | TaskFailed
    | TaskCancelling | TaskCancelled | TaskTimedOut

  datatype RunState =
    | RunDefined | RunScheduled | RunEnqueued | RunAcquired | RunProcessing
    | RunProcessed | RunFailed | RunFinalized | RunCancelled

  function NextWorkflowStates(s: WorkflowState): set<WorkflowState> {
    match s
    case WfPending => {WfRunning, WfCancelling}
    case WfRunning => {WfComplete, WfFailed, WfTimedOut, WfCancelling}
    case WfFailed => {WfRunning, WfCancelling}
    case WfTimedOut => {WfRunning, WfCancelling}
    case WfCancelling => {WfCancelled}
    case WfComplete => {}
    case WfCancelled => {}
  }

  function NextStepStates(s: StepState): set<StepState> {
    match s
    case StepDefined => {StepPending, StepTimedOut, StepCancelled}
    case StepPending => {StepRunning, StepTimedOut, StepCancelled}
    case StepRunning => {StepComplete, StepFailed, StepTimedOut, StepCancelling}
    case StepFailed => {StepDefined, StepCancelled}
    case StepTimedOut => {StepDefined, StepCancelled}
    case StepCancelling => {StepCancelled}
    case StepComplete => {}
    case StepCancelled => {}
  }

  function NextTaskStates(s: TaskState): set<TaskState> {
    match s
    case TaskPending => {TaskPending, TaskActive, TaskCancelling}
    case TaskActive => {TaskActive, TaskComplete, TaskFailed, TaskCancelling, TaskTimedOut}
    case TaskCancelling => {TaskCancelling, TaskCancelled}
    case TaskComplete => {}
    case TaskFailed => {}
    case TaskCancelled => {}
    case TaskTimedOut => {}
  }

  function NextRunStates(s: RunState): set<RunState> {
    match s
    case RunDefined => {RunScheduled, RunEnqueued, RunCancelled}
    case RunScheduled => {RunEnqueued, RunCancelled}
    case RunEnqueued => {RunAcquired, RunFailed, RunCancelled}
    case RunAcquired => {RunProcessing, RunProcessed, RunFailed, RunCancelled}
    case RunProcessing => {RunProcessed, RunFailed, RunCancelled}
    case RunProcessed => {RunFinalized}
    case RunFailed => {RunFinalized}
    case RunFinalized => {}
    case RunCancelled => {}
  }

  /** Nothing in flight and no automatic transition left; a user may still revive FAILED and TIMED_OUT. */
  predicate SettledStep(s: StepState) {
    s in {StepComplete, StepFailed, StepTimedOut, StepCancelled}
  }

  /** The workflow states in which nothing new is started. */
  predicate HardStop(s: WorkflowState) {
    s in {WfTimedOut, WfCancelling, WfCancelled, WfComplete}
  }

  predicate LiveTask(s: TaskState) {
    s in {TaskPending, TaskActive}
  }

  predicate TerminalTask(s: TaskState) {
    s in {TaskComplete, TaskFailed, TaskCancelled, TaskTimedOut}
  }

  /** The step outcome a terminal task drives. */
  function OutcomeOf(s: TaskState): StepState
    requires TerminalTask(s)
  {
    match s
    case TaskComplete => StepComplete
    case TaskFailed => StepFailed
    case TaskTimedOut => StepTimedOut
    case TaskCancelled => StepCancelled
  }
}
