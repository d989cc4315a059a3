/** The database: rows updated in place behind guarded writes, the audit log they append to, and the
    queries of the two schedulers. */
module Store {
  import opened Prelude
  import opened Tables
  import opened StepGraph
  import opened Rows
  import opened WorkflowSpec
  import opened WorkflowInvariants
  import opened TaskSpec
  import StepOrder
  import SpecValidation

  /** The stored parents form a graph without cycles, as they do for every accepted specification. */
  ghost predicate Listable(rows: Rows) {
    KnownParents(GraphOf(rows.steps)) && !Cyclic(GraphOf(rows.steps))
  }

  /** The handler did what `e` says: the same verdict, the same rows, and exactly its messages sent. */
  predicate Did(e: Effect, ok: bool, rows: Rows, before: seq<Msg>, after: seq<Msg>) {
    && ok == e.ok && rows == e.rows
    && before <= after && Elems(after[|before|..]) == e.sends
  }

  lemma SentLast(before: seq<Msg>, mid: seq<Msg>, m: Msg)
    requires before <= mid
    ensures before <= mid + [m] && Elems((mid + [m])[|before|..]) == Elems(mid[|before|..]) + {m}
  {
    assert (mid + [m])[|before|..] == mid[|before|..] + [m];
    Snoc(mid[|before|..], m);
  }

  lemma NothingSent(sent: seq<Msg>)
    ensures sent <= sent && Elems(sent[|sent|..]) == {}
  {
  }

  /** The rows of the LEFT JOIN of a step with its parents that the ready-query counts. */
  function OpenParents(steps: map<Name, Step>, n: Name): set<Name>
    requires n in steps
  {
    set p | p in steps[n].parents && p in steps && steps[p].state != StepComplete
  }

  /** The query's condition, a zero count on a DEFINED step, says that the step is startable. */
  lemma CountDecidesReady(steps: map<Name, Step>, n: Name)
    requires n in steps
    ensures n in Ready(steps) <==> steps[n].state == StepDefined && |OpenParents(steps, n)| == 0
  {
    if |OpenParents(steps, n)| == 0 {
      assert OpenParents(steps, n) == {};
      assert forall p :: p in steps[n].parents && p in steps ==> p !in OpenParents(steps, n);
    }
  }

  lemma CountOne(open: set<Name>, seen: set<Name>, p: Name)
    requires p !in seen
    ensures |open * (seen + {p})| == |open * seen| + if p in open then 1 else 0
  {
    assert open * (seen + {p}) == if p in open then open * seen + {p} else open * seen;
  }

  predicate TaskListed(task: Task, states: set<TaskState>, deadlineBy: Option<Time>) {
    task.state in states && (deadlineBy.Some? ==> Due(task.deadline, deadlineBy.value))
  }

  predicate RunListed(run: Run, states: set<RunState>, deadlineBy: Option<Time>, startBy: Option<Time>) {
    && run.state in states
    && (deadlineBy.Some? ==> Due(run.deadline, deadlineBy.value))
    && (startBy.Some? ==> Due(run.enqueueAt, startBy.value))
  }

  /** The attempts of a step from the latest to the first; all of them or the live ones only. */
  function LatestFirst(attempts: seq<TaskId>, tasks: seq<Task>, liveOnly: bool): seq<TaskId> {
    if attempts == [] then [] else
    var t, rest := attempts[|attempts| - 1], LatestFirst(attempts[..|attempts| - 1], tasks, liveOnly);
    if !liveOnly || LiveTask(TaskStateAt(tasks, t)) then [t] + rest else rest
  }

  lemma LatestStep(attempts: seq<TaskId>, i: nat, tasks: seq<Task>, liveOnly: bool)
    requires i < |attempts|
    ensures LatestFirst(attempts[..i + 1], tasks, liveOnly)
         == if !liveOnly || LiveTask(TaskStateAt(tasks, attempts[i]))
            then [attempts[i]] + LatestFirst(attempts[..i], tasks, liveOnly) else LatestFirst(attempts[..i], tasks, liveOnly)
  {
    assert attempts[..i + 1][..i] == attempts[..i];
  }

  lemma LatestElems(attempts: seq<TaskId>, tasks: seq<Task>, liveOnly: bool)
    requires attempts != []
    ensures var front, t := attempts[..|attempts| - 1], attempts[|attempts| - 1];
            && Elems(attempts) == Elems(front) + {t}
            && Elems(LatestFirst(attempts, tasks, liveOnly))
               == Elems(LatestFirst(front, tasks, liveOnly)) + if !liveOnly || LiveTask(TaskStateAt(tasks, t)) then {t} else {}
  {
    var front, t := attempts[..|attempts| - 1], attempts[|attempts| - 1];
    assert attempts == front + [t];
    Snoc(front, t);
    ElemsConcat([t], LatestFirst(front, tasks, liveOnly));
  }

  /** The whole list is the links backwards. */
  lemma {:induction false} AllLatestFirst(attempts: seq<TaskId>, tasks: seq<Task>)
    ensures var found := LatestFirst(attempts, tasks, false);
            && |found| == |attempts|
            && (forall i :: 0 <= i < |found| ==> found[i] == attempts[|attempts| - 1 - i])
            && Elems(found) == Elems(attempts)
  {
    if attempts == [] {
    } else {
      var front := attempts[..|attempts| - 1];
      AllLatestFirst(front, tasks);
      LatestElems(attempts, tasks, false);
    }
  }

  /** The live list has exactly the live attempts. */
  lemma {:induction false} LiveLatestFirst(attempts: seq<TaskId>, tasks: seq<Task>)
    ensures Elems(LatestFirst(attempts, tasks, true)) == set t | t in attempts && LiveTask(TaskStateAt(tasks, t))
  {
    if attempts == [] {
    } else {
      var front := attempts[..|attempts| - 1];
      LiveLatestFirst(front, tasks);
      LatestElems(attempts, tasks, true);
    }
  }

  /** A link makes a new task resolve to its step and leaves the resolution of every other task alone. */
  lemma LinkedResolves(steps: map<Name, Step>, n: Name, t: TaskId, q: TaskId)
    requires n in steps && StepOfTask(steps, t) == None
    requires forall a, b :: a in steps && b in steps && q in steps[a].attempts && q in steps[b].attempts ==> a == b
    ensures var linked := steps[n := steps[n].(attempts := steps[n].attempts + [t])];
            StepOfTask(linked, q) == if q == t then Some(n) else StepOfTask(steps, q)
  {
    var linked := steps[n := steps[n].(attempts := steps[n].attempts + [t])];
    assert t in linked[n].attempts;
    if q != t && StepOfTask(steps, q).Some? { assert q in linked[StepOfTask(steps, q).value].attempts; }
  }

  class Database {
    var wf: Workflow
    var steps: map<Name, Step>
    var tasks: seq<Task>
    var log: seq<Event>

    function Contents(): Rows
      reads this
    {
      Rows(wf, steps, tasks, log)
    }

    constructor (wf: Workflow, steps: map<Name, Step>)
      ensures Contents() == Rows(wf, steps, [], [])
    {
      this.wf, this.steps, tasks, log := wf, steps, [], [];
    }

    /** Takes the rows back to what they were when the transaction began. */
    method Restore(rows: Rows)
      modifies this
      ensures Contents() == rows
    {
      wf, steps, tasks, log := rows.wf, rows.steps, rows.tasks, rows.log;
    }

    /** The end of a transaction: an error anywhere in it takes everything back. */
    method EndTransaction(ok: bool, before: Rows)
      modifies this
      ensures Contents() == if ok then old(Contents()) else before
    {
      if !ok {
        Restore(before);
      }
    }

    // ---- workflow ----------------------------------------------------------------------------

    method UpdateWorkflowState(state: WorkflowState) returns (ok: bool)
      modifies this
      ensures ok <==> state in NextWorkflowStates(old(wf.state))
      ensures Contents() == if ok then MoveWf(old(Contents()), state) else old(Contents())
    {
      if state !in NextWorkflowStates(wf.state) {
        return false;
      }
      wf := wf.(state := state);
      log := log + [WfEvent(state)];
      return true;
    }

    method UpdateWorkflowDeadline(deadline: Time)
      modifies this
      ensures Contents() == MoveDeadline(old(Contents()), deadline)
    {
      wf := wf.(deadline := deadline);
      var rest := steps.Keys;
      while rest != {}
        invariant rest <= steps.Keys == old(steps).Keys
        invariant wf == old(wf).(deadline := deadline) && tasks == old(tasks) && log == old(log)
        invariant forall n :: n in steps ==>
                    steps[n] == if n in rest then old(steps)[n] else MoveDeadline(old(Contents()), deadline).steps[n]
      {
        var n :| n in rest;
        if steps[n].state !in {StepComplete, StepCancelled} {
          steps := steps[n := steps[n].(deadline := deadline)];
        }
        rest := rest - {n};
      }
      log := log + [DeadlineEvent];
      assert steps == MoveDeadline(old(Contents()), deadline).steps;
    }

    // ---- steps -------------------------------------------------------------------------------

    /** A group write: every named step must exist and be allowed the transition, or nothing changes. */
    method UpdateWorkflowStepState(names: seq<Name>, state: StepState) returns (ok: bool)
      modifies this
      ensures ok <==> forall n :: n in names ==> n in old(steps) && state in NextStepStates(old(steps)[n].state)
      ensures Contents() == if ok then MoveSteps(old(Contents()), Elems(names), state) else old(Contents())
    {
      var wanted := DeDupped(names);
      ok := AllMayMove(wanted, state);
      assert forall n :: n in names <==> n in wanted;
      if ok && wanted != {} {
        ApplyUpdate(wanted, state);
        log := log + [StepEvents(wanted, state)];
      }
    }

    static method DeDupped(names: seq<Name>) returns (wanted: set<Name>)
      ensures wanted == Elems(names)
    {
      wanted := {};
      for i := 0 to |names|
        invariant wanted == Elems(names[..i])
      {
        wanted := wanted + {names[i]};
        TakeNext(names, i);
      }
      assert names[..|names|] == names;
    }

    method AllMayMove(wanted: set<Name>, state: StepState) returns (ok: bool)
      ensures ok <==> forall n :: n in wanted ==> n in steps && state in NextStepStates(steps[n].state)
    {
      var entries := set n | n in wanted && n in steps;
      if |entries| != |wanted| {
        assert entries != wanted;
        return false;
      }
      SubsetSize(entries, wanted);
      var rest := entries;
      while rest != {}
        invariant rest <= entries
        invariant forall n :: n in entries - rest ==> state in NextStepStates(steps[n].state)
      {
        var n :| n in rest;
        if state !in NextStepStates(steps[n].state) {
          return false;
        }
        rest := rest - {n};
      }
      return true;
    }

    method ApplyUpdate(wanted: set<Name>, state: StepState)
      requires wanted <= steps.Keys && wanted != {}
      modifies this`steps
      ensures steps == MoveSteps(old(Contents()), wanted, state).steps
    {
      var rest := wanted;
      while rest != {}
        invariant rest <= wanted <= steps.Keys == old(steps).Keys
        invariant forall n :: n in steps ==>
                    steps[n] == if n in wanted - rest then Moved(old(steps)[n], state) else old(steps)[n]
      {
        var n :| n in rest;
        steps := steps[n := Moved(steps[n], state)];
        rest := rest - {n};
      }
      assert steps == MoveSteps(old(Contents()), wanted, state).steps;
    }

    /** The steps in dependency order; fails on rows that form no DAG. */
    method ListWorkflowSteps() returns (listing: Option<seq<Name>>)
      ensures listing.Some? <==> Listable(Contents())
      ensures listing.Some? ==> Elems(listing.value) == steps.Keys && Distinct(listing.value)
      ensures listing.Some? ==> ParentsFirst(GraphOf(steps), listing.value)
    {
      ghost var depth;
      listing, depth := StepOrder.ListWorkflowSteps(GraphOf(steps));
    }

    /** The ready-query: joins each DEFINED step with its parents and keeps it when no joined parent row
        is anything but COMPLETE. */
    method ListWorkflowStepsReadyToRun() returns (ready: seq<Name>)
      ensures Elems(ready) == Ready(steps) && Distinct(ready)
    {
      ready := [];
      var rest := steps.Keys;
      while rest != {}
        invariant rest <= steps.Keys
        invariant Distinct(ready) && Elems(ready) == Ready(steps) - rest
      {
        var n :| n in rest;
        if steps[n].state == StepDefined {
          var count := CountOpenParents(n);
          CountDecidesReady(steps, n);
          if count == 0 {
            Snoc(ready, n);
            ready := ready + [n];
          }
        }
        rest := rest - {n};
      }
    }

    method CountOpenParents(n: Name) returns (count: nat)
      requires n in steps
      ensures count == |OpenParents(steps, n)|
    {
      count := 0;
      var rest := steps[n].parents;
      ghost var seen: set<Name> := {};
      while rest != {}
        invariant rest !! seen && rest + seen == steps[n].parents
        invariant count == |OpenParents(steps, n) * seen|
      {
        var p :| p in rest;
        CountOne(OpenParents(steps, n), seen, p);
        if p in steps && steps[p].state != StepComplete {
          count := count + 1;
        }
        rest, seen := rest - {p}, seen + {p};
      }
      assert OpenParents(steps, n) * seen == OpenParents(steps, n);
    }

    // ---- step-to-task links ------------------------------------------------------------------

    method DefineTask(task: Task) returns (t: TaskId)
      modifies this`tasks
      ensures t == |old(tasks)| && tasks == old(tasks) + [task]
    {
      t := |tasks|;
      tasks := tasks + [task];
    }

    /** Links a task to a step; the task is then the step's latest. */
    method LinkWorkflowStepWithExecutorTask(n: Name, t: TaskId)
      requires n in steps
      modifies this`steps
      ensures steps == old(steps)[n := old(steps)[n].(attempts := old(steps)[n].attempts + [t])]
      ensures LatestFirst(steps[n].attempts, tasks, false) == [t] + LatestFirst(old(steps)[n].attempts, tasks, false)
    {
      steps := steps[n := steps[n].(attempts := steps[n].attempts + [t])];
      assert steps[n].attempts[..|old(steps)[n].attempts|] == old(steps)[n].attempts;
    }

    /** The tasks of a step, the latest first; all of them or the live ones only. Fails on an unknown step. */
    method TasksOfStep(n: Name, liveOnly: bool) returns (found: Option<seq<TaskId>>)
      ensures found == if n in steps then Some(LatestFirst(steps[n].attempts, tasks, liveOnly)) else None
    {
      if n !in steps {
        return None;
      }
      var attempts, kept := steps[n].attempts, [];
      assert attempts[..|attempts|] == attempts;
      for i := |attempts| downto 0
        invariant kept + LatestFirst(attempts[..i], tasks, liveOnly) == LatestFirst(attempts, tasks, liveOnly)
      {
        LatestStep(attempts, i, tasks, liveOnly);
        Concat3(kept, [attempts[i]], LatestFirst(attempts[..i], tasks, liveOnly));
        if !liveOnly || LiveTask(TaskStateAt(tasks, attempts[i])) {
          kept := kept + [attempts[i]];
        }
      }
      assert attempts[..0] == [] && kept + [] == kept;
      return Some(kept);
    }

    /** The step a task was dispatched for, if any. */
    method StepProcessedByTask(t: TaskId) returns (found: Option<Name>)
      ensures found.Some? ==> found.value in steps && t in steps[found.value].attempts
      ensures found == None ==> forall n :: n in steps ==> t !in steps[n].attempts
    {
      var rest := steps.Keys;
      while rest != {}
        invariant rest <= steps.Keys
        invariant forall n :: n in steps && n !in rest ==> t !in steps[n].attempts
      {
        var n :| n in rest;
        if t in steps[n].attempts {
          return Some(n);
        }
        rest := rest - {n};
      }
      return None;
    }

    // ---- tasks and runs ----------------------------------------------------------------------

    /** The tasks in certain states, or only those whose deadline has passed, in the order of their creation. */
    method ListTasks(states: set<TaskState>, deadlineBy: Option<Time>) returns (found: seq<TaskId>)
      ensures forall t: TaskId :: t in found <==> t < |tasks| && TaskListed(tasks[t], states, deadlineBy)
      ensures forall i, j :: 0 <= i < j < |found| ==> found[i] < found[j]
    {
      found := [];
      for t := 0 to |tasks|
        invariant forall q: TaskId :: q in found <==> q < t && TaskListed(tasks[q], states, deadlineBy)
        invariant forall i, j :: 0 <= i < j < |found| ==> found[i] < found[j]
        invariant forall i :: 0 <= i < |found| ==> found[i] < t
      {
        if TaskListed(tasks[t], states, deadlineBy) {
          found := found + [t];
        }
      }
    }

    /** The runs in certain states, or only those whose deadline or start time has passed. */
    method ListAllExecutions(states: set<RunState>, deadlineBy: Option<Time>, startBy: Option<Time>)
      returns (found: seq<RunId>)
      ensures forall r :: r in found <==> HasRun(Contents(), r) && RunListed(RunAt(Contents(), r), states, deadlineBy, startBy)
    {
      found := [];
      for t := 0 to |tasks|
        invariant forall r :: r in found <==>
                    (r.task < t && HasRun(Contents(), r) && RunListed(RunAt(Contents(), r), states, deadlineBy, startBy))
      {
        for i := 0 to |tasks[t].runs|
          invariant forall r :: r in found <==>
                      (&& (r.task < t || (r.task == t && r.index < i))
                       && HasRun(Contents(), r) && RunListed(RunAt(Contents(), r), states, deadlineBy, startBy))
        {
          if RunListed(tasks[t].runs[i], states, deadlineBy, startBy) {
            found := found + [RunId(t, i)];
          }
        }
      }
    }

    /** A guarded task state write; CANCELLING leaves no audit event. */
    method UpdateTaskState(t: TaskId, state: TaskState) returns (ok: bool)
      modifies this
      ensures ok <==> t < |old(tasks)| && state in NextTaskStates(old(tasks)[t].state)
      ensures Contents() == if !ok then old(Contents()) else
                PutTask(old(Contents()), t, old(tasks)[t].(state := state),
                        if state in {TaskPending, TaskCancelling} then [] else [TaskEvent(t, state)])
    {
      if t >= |tasks| || state !in NextTaskStates(tasks[t].state) {
        return false;
      }
      tasks := tasks[t := tasks[t].(state := state)];
      if state !in {TaskPending, TaskCancelling} {
        log := log + [TaskEvent(t, state)];
      }
      return true;
    }

    /** A guarded run write. The worker is recorded on acquisition, the outcome when the run ends, and
        the disposition on failure. */
    method UpdateTaskExecutionState(r: RunId, state: RunState, worker: Option<Worker>, noRetry: bool) returns (ok: bool)
      modifies this
      ensures ok <==> && HasRun(old(Contents()), r)
                      && state in NextRunStates(RunAt(old(Contents()), r).state)
                      && (state == RunAcquired ==> worker.Some?)
      ensures Contents() == if !ok then old(Contents()) else
                WriteRun(old(Contents()), r, Written(RunAt(old(Contents()), r), state, worker, noRetry)).rows
    {
      if r.task >= |tasks| || r.index >= |tasks[r.task].runs| {
        return false;
      }
      var run := tasks[r.task].runs[r.index];
      if state !in NextRunStates(run.state) || (state == RunAcquired && worker == None) {
        return false;
      }
      match state {
        case RunAcquired => run := run.(worker := worker);
        case RunProcessed => run := run.(terminal := Some(state));
        case RunFailed => run := run.(terminal := Some(state), noRetry := noRetry);
        case RunCancelled => run := run.(terminal := Some(state));
        case _ =>
      }
      tasks := tasks[r.task := PutRun(tasks[r.task], r.index, run.(state := state))];
      return true;
    }

    method RecordTaskEngineFailure(t: TaskId)
      modifies this`log
      ensures log == old(log) + [EngineFailure(t)]
    {
      log := log + [EngineFailure(t)];
    }

    method DefineRun(t: TaskId, run: Run) returns (r: RunId)
      requires t < |tasks|
      modifies this`tasks
      ensures r == RunId(t, |old(tasks)[t].runs|)
      ensures tasks == old(tasks)[t := old(tasks)[t].(runs := old(tasks)[t].runs + [run])]
    {
      r := RunId(t, |tasks[t].runs|);
      tasks := tasks[t := tasks[t].(runs := tasks[t].runs + [run])];
    }
  }

  function Written(run: Run, state: RunState, worker: Option<Worker>, noRetry: bool): Run {
    match state
    case RunAcquired => run.(state := state, worker := worker)
    case RunProcessed => run.(state := state, terminal := Some(state))
    case RunFailed => FailedWith(run, noRetry)
    case RunCancelled => run.(state := state, terminal := Some(state))
    case _ => run.(state := state)
  }

  /** Defines a workflow: an accepted specification becomes rows; a refused one becomes nothing. */
  method DefineNewWorkflow(spec: SpecValidation.WorkflowSpec) returns (verdict: SpecValidation.Verdict, db: Option<Database>)
    ensures verdict.Accepted? <==> SpecValidation.Sound(spec)
    ensures db.Some? <==> verdict.Accepted?
    ensures db.Some? ==> fresh(db.value) && db.value.Contents() == DefinedRows(spec)
    ensures db.Some? ==>
              && db.value.wf == Workflow(WfPending, spec.deadline.value) && db.value.tasks == [] && db.value.log == []
              && db.value.steps.Keys == spec.steps.Keys
              && forall n :: n in spec.steps ==>
                   db.value.steps[n] == Step(StepDefined, spec.steps[n].parents, spec.deadline.value, false, spec.steps[n].retry, [])
    ensures db.Some? ==> Listable(db.value.Contents()) && FlowInv(db.value.Contents())
  {
    verdict := SpecValidation.IsValid(spec);
    if !verdict.Accepted? {
      return verdict, None;
    }
    var steps: map<Name, Step> := map[];
    var rest := spec.steps.Keys;
    while rest != {}
      invariant rest <= spec.steps.Keys && steps.Keys == spec.steps.Keys - rest
      invariant forall n :: n in steps ==> steps[n] == DefinedRows(spec).steps[n]
    {
      var n :| n in rest;
      var step := spec.steps[n];
      steps := steps[n := Step(StepDefined, step.parents, spec.deadline.value, false, step.retry, [])];
      rest := rest - {n};
    }
    assert steps == DefinedRows(spec).steps;
    DefinedKeeps(spec);
    var defined := new Database(Workflow(WfPending, spec.deadline.value), steps);
    return verdict, Some(defined);
  }
}
