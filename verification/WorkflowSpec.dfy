/** What each workflow scheduler handler does to the rows in its one transaction, and which messages
    it sends after the commit. `ok` is false when the transaction fails and rolls back. */
module WorkflowSpec {
  import opened Prelude
  import opened Tables
  import opened StepGraph
  import opened Rows

  /** DEFINED with every parent COMPLETE. */
  predicate Startable(steps: map<Name, Step>, n: Name) {
    && n in steps && steps[n].state == StepDefined
    && forall p :: p in steps[n].parents && p in steps ==> steps[p].state == StepComplete
  }

  function Ready(steps: map<Name, Step>): set<Name> {
    set n | n in steps && Startable(steps, n)
  }

  function LiveAttempts(rows: Rows, n: Name): set<TaskId>
    requires n in rows.steps
  {
    set t | t in rows.steps[n].attempts && LiveTask(TaskStateAt(rows.tasks, t))
  }

  /** Cancel requests for the live tasks of the RUNNING steps. */
  function CancelRunning(rows: Rows): set<Msg> {
    set n, t | n in rows.steps && rows.steps[n].state == StepRunning && t in LiveAttempts(rows, n) :: CancelTask(t)
  }

  // ---- process, schedule ---------------------------------------------------------------------

  function Started(rows: Rows): Rows {
    if rows.wf.state == WfPending then MoveWf(rows, WfRunning) else rows
  }

  function Process(rows: Rows): Effect {
    if HardStop(rows.wf.state) then Ignore(rows) else
    var ready := Ready(rows.steps);
    Effect(true, MoveSteps(Started(rows), ready, StepPending), set n | n in ready :: ScheduleStep(n))
  }

  function StepTask(step: Step, now: Time): Task {
    Task(WORKFLOW_TASK, TaskPending, Immediate, Some(step.deadline), step.retry, now, [])
  }

  /** Defines the step's task, links it and marks the step RUNNING. */
  function Dispatch(rows: Rows, n: Name, now: Time): Rows
    requires n in rows.steps
  {
    var linked := rows.steps[n].(attempts := rows.steps[n].attempts + [|rows.tasks|]);
    MoveSteps(rows.(tasks := rows.tasks + [StepTask(rows.steps[n], now)], steps := rows.steps[n := linked]),
              {n}, StepRunning)
  }

  function Schedule(rows: Rows, n: Name, now: Time): Effect {
    if n !in rows.steps then Abort(rows)
    else if HardStop(rows.wf.state) || rows.steps[n].state != StepPending || LiveAttempts(rows, n) != {} then
      Ignore(rows)
    else if now > rows.wf.deadline then TimeOut(rows)
    else Effect(true, Dispatch(rows, n, now), {NewTask(|rows.tasks|)})
  }

  // ---- timeout, settlement -------------------------------------------------------------------

  /** Times out the whole workflow. The transition table admits this from RUNNING only; a workflow
      already TIMED_OUT is left as it is; from any other state the transaction fails. */
  function TimeOut(rows: Rows): Effect {
    var open := WithState(rows.steps, {StepDefined, StepPending, StepRunning});
    var moved := MoveSteps(rows, open, StepTimedOut);
    match rows.wf.state
    case WfRunning => Effect(true, MoveWf(moved, WfTimedOut), CancelRunning(rows))
    case WfTimedOut => Effect(true, moved, CancelRunning(rows))
    case _ => Abort(rows)
  }

  predicate AllComplete(steps: map<Name, Step>) {
    AllIn(steps, {StepComplete})
  }

  predicate AllSettled(steps: map<Name, Step>) {
    forall n :: n in steps ==> SettledStep(steps[n].state)
  }

  predicate Settles(rows: Rows) {
    || (rows.wf.state == WfRunning && AllComplete(rows.steps))
    || (rows.wf.state == WfCancelling && AllSettled(rows.steps))
  }

  /** Advances a RUNNING workflow to COMPLETE, or a CANCELLING one to CANCELLED, once its steps allow it. */
  function Settle(rows: Rows): Rows {
    if !Settles(rows) then rows
    else MoveWf(rows, if rows.wf.state == WfRunning then WfComplete else WfCancelled)
  }

  // ---- outcome reducer -----------------------------------------------------------------------

  /** Applies the outcome of step `n`. Cancellation of the workflow wins over any outcome; a settled
      step ignores every outcome. */
  function ApplyOutcome(rows: Rows, n: Name, outcome: StepState): Effect {
    if !SettledStep(outcome) || n !in rows.steps then Abort(rows) else
    var state := rows.steps[n].state;
    if rows.wf.state in {WfCancelling, WfCancelled} then
      if SettledStep(state) then Effect(true, Settle(rows), {})
      else if StepCancelled !in NextStepStates(state) then Abort(rows)
      else Effect(true, Settle(MoveSteps(rows, {n}, StepCancelled)), {})
    else if SettledStep(state) then Ignore(rows)
    else if outcome == StepTimedOut then TimeOut(rows)
    else if outcome !in NextStepStates(state) then Abort(rows)
    else
      var moved := MoveSteps(rows, {n}, outcome);
      match outcome
      case StepComplete => Effect(true, Settle(moved), if Settles(moved) then {} else {ProcessWorkflow})
      case StepFailed => Effect(true, if rows.wf.state == WfRunning then MoveWf(moved, WfFailed) else moved, {})
      case _ => Effect(true, Settle(moved), {})
  }

  /** The step a task is linked to, if any. */
  ghost function StepOfTask(steps: map<Name, Step>, t: TaskId): Option<Name> {
    if exists n :: n in steps && t in steps[n].attempts then
      var n :| n in steps && t in steps[n].attempts;
      Some(n)
    else None
  }

  /** The notification fast path: resolves the step, then applies the outcome; an unlinked task is dropped. */
  ghost function ApplyTaskOutcome(rows: Rows, t: TaskId, outcome: StepState): Effect {
    match StepOfTask(rows.steps, t)
    case None => Ignore(rows)
    case Some(n) => ApplyOutcome(rows, n, outcome)
  }

  // ---- cancel, revive ------------------------------------------------------------------------

  const DROPPED: set<StepState> := {StepDefined, StepPending, StepFailed, StepTimedOut}

  function Drained(rows: Rows): Rows {
    MoveSteps(MoveWf(rows, WfCancelling), WithState(rows.steps, {StepRunning}), StepCancelling)
  }

  function Cancel(rows: Rows): Effect {
    if rows.wf.state in {WfCancelling, WfCancelled, WfComplete} then Ignore(rows) else
    var moved := MoveSteps(Drained(rows), WithState(rows.steps, DROPPED), StepCancelled);
    Effect(true, Settle(moved), CancelRunning(rows))
  }

  /** Revival needs a FAILED or TIMED_OUT workflow; a new deadline must lie in the future and is
      mandatory after a timeout. */
  predicate Revivable(rows: Rows, newDeadline: Option<Time>, now: Time) {
    && rows.wf.state in {WfFailed, WfTimedOut}
    && (rows.wf.state == WfTimedOut ==> newDeadline.Some?)
    && (newDeadline.Some? ==> newDeadline.value > now)
  }

  function Revived(rows: Rows): Rows {
    MoveSteps(MoveWf(rows, WfRunning), WithState(rows.steps, {StepFailed, StepTimedOut}), StepDefined)
  }

  function Revive(rows: Rows, newDeadline: Option<Time>, now: Time): Effect {
    if !Revivable(rows, newDeadline, now) then Ignore(rows) else
    var moved := Revived(rows);
    Effect(true, if newDeadline.Some? then MoveDeadline(moved, newDeadline.value) else moved, {ProcessWorkflow})
  }

  // ---- reconciliation ------------------------------------------------------------------------

  predicate AllTerminal(rows: Rows, attempts: seq<TaskId>) {
    forall t :: t in attempts ==> TerminalTask(TaskStateAt(rows.tasks, t))
  }

  /** The outcome the sweep synthesizes for a RUNNING step: nothing while a task is not terminal, else
      the outcome of the latest task, or FAILED when there is no task at all. */
  function LostOutcome(rows: Rows, n: Name): Option<StepState>
    requires n in rows.steps
  {
    var attempts := rows.steps[n].attempts;
    if !AllTerminal(rows, attempts) then None
    else if attempts == [] then Some(StepFailed)
    else
      assert attempts[|attempts| - 1] in attempts;
      Some(OutcomeOf(TaskStateAt(rows.tasks, attempts[|attempts| - 1])))
  }

  function SweptOutcomes(rows: Rows): set<Msg> {
    (set n | n in rows.steps && rows.steps[n].state == StepRunning && LostOutcome(rows, n).Some? ::
       ExecUpdate(n, LostOutcome(rows, n).value)) +
    (set n | n in rows.steps && rows.steps[n].state == StepCancelling && AllTerminal(rows, rows.steps[n].attempts) ::
       ExecUpdate(n, StepCancelled))
  }

  function SweptSchedules(rows: Rows): set<Msg> {
    set n | n in rows.steps && rows.steps[n].state == StepPending :: ScheduleStep(n)
  }

  function SweptProcess(rows: Rows): set<Msg> {
    if rows.wf.state == WfPending || WithState(rows.steps, {StepDefined}) != {} then {ProcessWorkflow} else {}
  }

  function SweptCancels(rows: Rows): set<Msg> {
    set n, t | n in rows.steps && rows.steps[n].state == StepCancelling && t in rows.steps[n].attempts
                 && !TerminalTask(TaskStateAt(rows.tasks, t)) :: CancelTask(t)
  }

  /** One workflow of the maintenance sweep. It is listed as neither COMPLETE nor CANCELLED, but may have
      become so since. */
  function Reconcile(rows: Rows, now: Time): Effect {
    if rows.wf.deadline <= now then TimeOut(rows)
    else Effect(true, Settle(rows),
                SweptOutcomes(rows) + SweptSchedules(rows) + SweptProcess(rows) + SweptCancels(rows))
  }

  // ---- dispatch on the message ---------------------------------------------------------------

  predicate ForWorkflow(m: Msg) {
    m.ProcessWorkflow? || m.ScheduleStep? || m.ExecUpdate? || m.TaskUpdate? || m.CancelWorkflow? || m.ReviveWorkflow?
  }

  /** The workflow scheduler's answer to one message. */
  ghost function Handle(rows: Rows, m: Msg, now: Time): Effect
    requires ForWorkflow(m)
  {
    match m
    case ProcessWorkflow => Process(rows)
    case ScheduleStep(n) => Schedule(rows, n, now)
    case ExecUpdate(n, outcome) => ApplyOutcome(rows, n, outcome)
    case TaskUpdate(t, outcome) => ApplyTaskOutcome(rows, t, outcome)
    case CancelWorkflow => Cancel(rows)
    case ReviveWorkflow(newDeadline) => Revive(rows, newDeadline, now)
  }
}
