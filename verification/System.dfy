/** The two engines together: database rows, messages in flight and the workers' jobs, moved by one
    action at a time. Every transaction is one atomic action. Messages are never used up, so any of
    them may be delivered late, out of order, repeatedly or not at all. An action that is not enabled
    changes nothing. */
module System {
  import opened Prelude
  import opened Tables
  import opened Backoff
  import opened StepGraph
  import opened Rows
  import opened WorkflowSpec
  import opened TaskSpec
  import opened Errors
  import SpecValidation

  /** Where a worker stands with a run it has claimed. */
  datatype Stage =
    | Submitted  // waiting for a worker thread
    | Invoked    // the processor has been called
    | Unserved   // PROCESSING, but no processor for the task name

  datatype Job = Job(worker: Worker, stage: Stage)

  datatype Claimed = Claimed(run: RunId, worker: Worker)

  /** `senders` are the task names whose execution requests can be enqueued. `claims` and `calls` remember
      every successful claim and every call of a processor. */
  datatype State = State(
    now: Time,
    senders: set<TaskName>,
    rows: Rows,
    msgs: set<Msg>,
    jobs: map<RunId, Job>,
    claims: seq<Claimed>,
    calls: seq<RunId>)

  /** What becomes of the call of a processor. A fault is the failure of the transaction that was to
      record the result. */
  datatype Ending = Success | Failure(error: Error) | Fault

  datatype Action =
    | Tick(time: Time)
    | Queues(senders: set<TaskName>)
    // users
    | AskProcess
    | AskCancel
    | AskRevive(newDeadline: Option<Time>)
    | AskCancelTask(task: TaskId)
    | SubmitTask(name: TaskName, timing: Timing, deadline: Option<Time>, retry: RetryParams)
    // both schedulers' queues, the notifications, and requests that outlive a rolled-back transaction
    | Deliver(msg: Msg, at: Time)
    | Notify(event: nat)
    | Leak(run: RunId)
    // the periodic sweeps
    | SweepWorkflow
    | SweepPending(task: TaskId)
    | SweepCancelling(task: TaskId)
    | SweepLateTask(task: TaskId)
    | SweepProcessed(run: RunId)
    | SweepFailed(run: RunId, at: Time)
    | SweepDue(run: RunId)
    | SweepLateRun(run: RunId)
    // workers
    | Receive(run: RunId, worker: Worker)
    | Refuse(run: RunId)
    | Begin(run: RunId, served: bool, fault: bool)
    | Finish(run: RunId, ending: Ending)
    | Crash(worker: Worker)
    | Restart(worker: Worker)

  function Init(spec: SpecValidation.WorkflowSpec, now: Time): State
    requires spec.deadline.Some?
  {
    State(now, {}, DefinedRows(spec), {}, map[], [], [])
  }

  function Commit(s: State, e: Effect): State {
    s.(rows := e.rows, msgs := s.msgs + e.sends)
  }

  function Send(s: State, m: Msg): State {
    s.(msgs := s.msgs + {m})
  }

  function Without(jobs: map<RunId, Job>, r: RunId): map<RunId, Job> {
    map q | q in jobs && q != r :: jobs[q]
  }

  function WithoutWorker(jobs: map<RunId, Job>, w: Worker): map<RunId, Job> {
    map q | q in jobs && jobs[q].worker != w :: jobs[q]
  }

  /** The schedulers' answer to a message on their queues. */
  ghost function React(rows: Rows, m: Msg, now: Time, at: Time, senders: set<TaskName>): Effect {
    match m
    case NewTask(t) => Activate(rows, t, senders)
    case CancelTask(t) => StopTask(rows, t)
    case ExecSucceeded(r) => CompleteRun(rows, r)
    case ExecFailed(r) => FailRun(rows, r, at)
    case EngineFailed(r) => EngineFailRun(rows, r)
    case PendingInstance(r) => Ignore(rows)
    case _ => Handle(rows, m, now)
  }

  /** The message a terminal audit event of a task is turned into. */
  function Notice(e: Event): Option<Msg> {
    match e
    case TaskEvent(t, state) => if TerminalTask(state) then Some(TaskUpdate(t, OutcomeOf(state))) else None
    case EngineFailure(t) => Some(TaskUpdate(t, StepFailed))
    case _ => None
  }

  /** A receiver takes up a PENDING_INSTANCE request: it claims the run or reports an engine failure. */
  function Received(s: State, r: RunId, w: Worker): State {
    var e := Claim(s.rows, r, w);
    if PendingInstance(r) !in s.msgs then s
    else if !e.ok then Send(s, EngineFailed(r))
    else s.(rows := e.rows, jobs := s.jobs[r := Job(w, Submitted)], claims := s.claims + [Claimed(r, w)])
  }

  /** The executor would not take the claimed run. */
  function Refused(s: State, r: RunId): State {
    if r !in s.jobs || s.jobs[r].stage != Submitted then s
    else Send(s, EngineFailed(r)).(rows := MarkFailed(s.rows, r, false).rows, jobs := Without(s.jobs, r))
  }

  function BegunJob(s: State, r: RunId, served: bool, fault: bool): State {
    if r !in s.jobs || s.jobs[r].stage != Submitted then s else
    var e := BeginRun(s.rows, r);
    if fault || !e.ok then Send(s, ExecFailed(r)).(jobs := Without(s.jobs, r))
    else if served then
      s.(rows := e.rows, jobs := s.jobs[r := s.jobs[r].(stage := Invoked)], calls := s.calls + [r])
    else s.(rows := e.rows, jobs := s.jobs[r := s.jobs[r].(stage := Unserved)])
  }

  /** What went wrong in a job: no processor for the task's name, or the processor's own error, wrapped. */
  function JobError(stage: Stage, ending: Ending): Option<Error> {
    if stage == Unserved then Some(Error.Error(TaskExecutor, None))
    else if ending.Failure? then Some(Error.Error(TaskExecution, Some(ending.error)))
    else None
  }

  /** Whether the processor ruled out a retry. */
  predicate Disposition(error: Option<Error>) {
    error.Some? && As(error.value, NonRecoverable)
  }

  const UNRECORDED: Error := Error.Error(TaskPostprocess, None)

  function Reported(r: RunId, report: Report): Msg {
    match report
    case Completed => ExecSucceeded(r)
    case ExecutionFailed => ExecFailed(r)
    case ExecutorFailed => EngineFailed(r)
  }

  /** The transaction that records the result of a job. */
  function Recorded(rows: Rows, r: RunId, error: Option<Error>, ending: Ending): Effect {
    if ending.Fault? then Abort(rows)
    else if error == None then MarkProcessed(rows, r)
    else MarkFailed(rows, r, Disposition(error))
  }

  /** The end of a job: its result is recorded, then reported. A result that could not be recorded is
      reported as a failed execution. */
  function Finished(s: State, r: RunId, ending: Ending): State {
    if r !in s.jobs || s.jobs[r].stage == Submitted then s else
    var error := JobError(s.jobs[r].stage, ending);
    var e := Recorded(s.rows, r, error, ending);
    Send(s, Reported(r, Classify(if e.ok then error else Some(UNRECORDED)))).(rows := e.rows, jobs := Without(s.jobs, r))
  }

  /** The actions of the task engine's sweep. */
  predicate TaskSweep(a: Action) {
    a.SweepPending? || a.SweepCancelling? || a.SweepLateTask? || a.SweepProcessed? || a.SweepFailed? || a.SweepDue? ||
    a.SweepLateRun?
  }

  /** What the task engine's sweep does about one row it has listed. */
  function SweepEffect(s: State, a: Action): Effect {
    match a
    case SweepPending(t) => Activate(s.rows, t, s.senders)
    case SweepCancelling(t) => StopTask(s.rows, t)
    case SweepLateTask(t) =>
      if t < |s.rows.tasks| && Due(s.rows.tasks[t].deadline, s.now) then TimeOutTask(s.rows, t) else Ignore(s.rows)
    case SweepProcessed(r) =>
      if HasRun(s.rows, r) && RunAt(s.rows, r).terminal == Some(RunProcessed) then CompleteRun(s.rows, r) else Ignore(s.rows)
    case SweepFailed(r, at) =>
      if HasRun(s.rows, r) && RunAt(s.rows, r).terminal == Some(RunFailed) then FailRun(s.rows, r, at) else Ignore(s.rows)
    case SweepDue(r) =>
      if HasRun(s.rows, r) && Due(RunAt(s.rows, r).enqueueAt, s.now) then StartRun(s.rows, r, s.senders) else Ignore(s.rows)
    case SweepLateRun(r) =>
      if HasRun(s.rows, r) && Due(RunAt(s.rows, r).deadline, s.now) then TimeOutRun(s.rows, r) else Ignore(s.rows)
    case _ => Ignore(s.rows)
  }

  ghost function Next(s: State, a: Action): State {
    match a
    case Tick(time) => if s.now <= time then s.(now := time) else s
    case Queues(senders) => s.(senders := senders)
    case AskProcess => Send(s, ProcessWorkflow)
    case AskCancel => Send(s, CancelWorkflow)
    case AskRevive(newDeadline) => Send(s, ReviveWorkflow(newDeadline))
    case AskCancelTask(t) => Send(s, CancelTask(t))
    case SubmitTask(name, timing, deadline, retry) =>
      if !ValidRetry(retry) then s
      else Send(s, NewTask(|s.rows.tasks|)).(rows := Submit(s.rows, Task(name, TaskPending, timing, deadline, retry, s.now, [])))
    case Deliver(m, at) => if m in s.msgs then Commit(s, React(s.rows, m, s.now, at, s.senders)) else s
    case Notify(i) =>
      if i < |s.rows.log| && Notice(s.rows.log[i]).Some? then Send(s, Notice(s.rows.log[i]).value) else s
    case Leak(r) => Send(s, PendingInstance(r))
    case SweepWorkflow => Commit(s, Reconcile(s.rows, s.now))
    case Receive(r, w) => Received(s, r, w)
    case Refuse(r) => Refused(s, r)
    case Begin(r, served, fault) => BegunJob(s, r, served, fault)
    case Finish(r, ending) => Finished(s, r, ending)
    case Crash(w) => s.(jobs := WithoutWorker(s.jobs, w))
    case Restart(w) => Commit(s.(jobs := WithoutWorker(s.jobs, w)), Recover(s.rows, w))
    case _ => Commit(s, SweepEffect(s, a))
  }

  // What single kinds of actions do.

  lemma ClaimActions(s: State, r: RunId, w: Worker)
    ensures Next(s, Receive(r, w)) == Received(s, r, w)
    ensures Next(s, Refuse(r)) == Refused(s, r)
  {
  }

  lemma JobActions(s: State, r: RunId, served: bool, fault: bool, ending: Ending)
    ensures Next(s, Begin(r, served, fault)) == BegunJob(s, r, served, fault)
    ensures Next(s, Finish(r, ending)) == Finished(s, r, ending)
  {
  }

  lemma CrashActions(s: State, w: Worker)
    ensures Next(s, Crash(w)) == s.(jobs := WithoutWorker(s.jobs, w))
    ensures Next(s, Restart(w)) == Commit(s.(jobs := WithoutWorker(s.jobs, w)), Recover(s.rows, w))
  {
  }

  lemma SweepActions(s: State, a: Action)
    ensures TaskSweep(a) ==> Next(s, a) == Commit(s, SweepEffect(s, a))
    ensures a.SweepWorkflow? ==> Next(s, a) == Commit(s, Reconcile(s.rows, s.now))
  {
  }

  lemma DeliverAction(s: State, m: Msg, at: Time)
    ensures Next(s, Deliver(m, at)) == if m in s.msgs then Commit(s, React(s.rows, m, s.now, at, s.senders)) else s
  {
  }

  /** A new task of a user; nothing links it to a step. */
  function Submit(rows: Rows, task: Task): Rows {
    rows.(tasks := rows.tasks + [task])
  }

  /** The state after a list of actions, first to last. */
  ghost function After(s: State, actions: seq<Action>): State {
    if actions == [] then s else Next(After(s, actions[..|actions| - 1]), actions[|actions| - 1])
  }

  lemma {:induction false} AfterConcat(s: State, first: seq<Action>, second: seq<Action>)
    ensures After(s, first + second) == After(After(s, first), second)
  {
    if second == [] {
      assert first + second == first;
    } else {
      var front := second[..|second| - 1];
      AfterConcat(s, first, front);
      assert (first + second)[..|first + second| - 1] == first + front;
    }
  }
}
