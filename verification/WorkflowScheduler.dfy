/** The workflow scheduler: each handler is one transaction on the database followed by the messages
    it sends after the commit. Each is proved to do what WorkflowSpec says of it. */
module WorkflowScheduler {
  import opened Prelude
  import opened Tables
  import opened StepGraph
  import opened Rows
  import opened WorkflowSpec
  import opened Store
  import opened LinkInvariants

  /** Cancel requests for the live tasks of the RUNNING steps among some. */
  function CancelAmong(rows: Rows, names: set<Name>): set<Msg> {
    set n, t | n in names && n in rows.steps && rows.steps[n].state == StepRunning && t in LiveAttempts(rows, n) :: CancelTask(t)
  }

  /** When a message of the sweep is sent. */
  function Turn(m: Msg): nat {
    match m
    case ExecUpdate(_, _) => 0
    case ScheduleStep(_) => 1
    case ProcessWorkflow => 2
    case _ => 3
  }

  predicate InSweepOrder(pokes: seq<Msg>) {
    forall i, j :: 0 <= i < j < |pokes| ==> Turn(pokes[i]) <= Turn(pokes[j])
  }

  // What the pass over the steps has collected from some of them.

  function OutcomesAmong(rows: Rows, names: set<Name>): set<Msg> {
    (set n | n in names && n in rows.steps && rows.steps[n].state == StepRunning && LostOutcome(rows, n).Some? ::
       ExecUpdate(n, LostOutcome(rows, n).value)) +
    (set n | n in names && n in rows.steps && rows.steps[n].state == StepCancelling && AllTerminal(rows, rows.steps[n].attempts) ::
       ExecUpdate(n, StepCancelled))
  }

  function StepOutcome(rows: Rows, n: Name): set<Msg>
    requires n in rows.steps
  {
    if rows.steps[n].state == StepRunning && LostOutcome(rows, n).Some? then {ExecUpdate(n, LostOutcome(rows, n).value)}
    else if rows.steps[n].state == StepCancelling && AllTerminal(rows, rows.steps[n].attempts) then {ExecUpdate(n, StepCancelled)}
    else {}
  }

  function SchedulesAmong(rows: Rows, names: set<Name>): set<Msg> {
    set n | n in names && n in rows.steps && rows.steps[n].state == StepPending :: ScheduleStep(n)
  }

  function StepCancels(rows: Rows, n: Name): set<Msg>
    requires n in rows.steps
  {
    set t | t in rows.steps[n].attempts && !TerminalTask(TaskStateAt(rows.tasks, t)) :: CancelTask(t)
  }

  function CancelsAmong(rows: Rows, names: set<Name>): set<Msg> {
    set n, t | n in names && n in rows.steps && rows.steps[n].state == StepCancelling && t in rows.steps[n].attempts
                 && !TerminalTask(TaskStateAt(rows.tasks, t)) :: CancelTask(t)
  }

  lemma Classified(rows: Rows, names: set<Name>, n: Name)
    requires n in rows.steps
    ensures OutcomesAmong(rows, names + {n}) == OutcomesAmong(rows, names) + StepOutcome(rows, n)
    ensures SchedulesAmong(rows, names + {n}) == SchedulesAmong(rows, names) +
              if rows.steps[n].state == StepPending then {ScheduleStep(n)} else {}
    ensures CancelsAmong(rows, names + {n}) == CancelsAmong(rows, names) +
              if rows.steps[n].state == StepCancelling then StepCancels(rows, n) else {}
  {
  }

  lemma AllClassified(rows: Rows)
    ensures OutcomesAmong(rows, rows.steps.Keys) == SweptOutcomes(rows)
    ensures SchedulesAmong(rows, rows.steps.Keys) == SweptSchedules(rows)
    ensures CancelsAmong(rows, rows.steps.Keys) == SweptCancels(rows)
  {
  }

  lemma Appended<T>(a: seq<T>, b: seq<T>)
    ensures Elems(a + b) == Elems(a) + Elems(b)
  {
  }

  lemma SameRequests(a: Rows, b: Rows)
    requires a.steps == b.steps && a.tasks == b.tasks
    ensures CancelRunning(a) == CancelRunning(b)
  {
  }

  predicate AllAtTurn(pokes: seq<Msg>, turn: nat) {
    forall i :: 0 <= i < |pokes| ==> Turn(pokes[i]) == turn
  }

  lemma MembersAtTurn(pokes: seq<Msg>, turn: nat)
    requires forall m :: m in Elems(pokes) ==> Turn(m) == turn
    ensures AllAtTurn(pokes, turn)
  {
    forall i | 0 <= i < |pokes| ensures Turn(pokes[i]) == turn { assert pokes[i] in Elems(pokes); }
  }

  lemma ConcatInOrder(updates: seq<Msg>, schedules: seq<Msg>, process: seq<Msg>, cancels: seq<Msg>, rows: Rows)
    requires Elems(updates) == SweptOutcomes(rows) && Elems(schedules) == SweptSchedules(rows)
    requires Elems(process) == SweptProcess(rows) && Elems(cancels) == SweptCancels(rows)
    ensures InSweepOrder(updates + schedules + process + cancels)
  {
    MembersAtTurn(updates, 0);
    MembersAtTurn(schedules, 1);
    MembersAtTurn(process, 2);
    MembersAtTurn(cancels, 3);
    TurnsInOrder(updates, schedules, process, cancels);
  }

  lemma TurnsInOrder(a: seq<Msg>, b: seq<Msg>, c: seq<Msg>, d: seq<Msg>)
    requires AllAtTurn(a, 0) && AllAtTurn(b, 1) && AllAtTurn(c, 2) && AllAtTurn(d, 3)
    ensures InSweepOrder(a + b + c + d)
  {
  }

  lemma CancelsInOrder(rows: Rows, pokes: seq<Msg>)
    requires Elems(pokes) == TimeOut(rows).sends
    ensures InSweepOrder(pokes)
  {
    forall m | m in Elems(pokes) ensures Turn(m) == 3 { }
    MembersAtTurn(pokes, 3);
  }

  class Scheduler {
    const db: Database
    var sent: seq<Msg>

    constructor (db: Database)
      ensures this.db == db && sent == []
    {
      this.db, sent := db, [];
    }

    method Emit(pokes: seq<Msg>)
      modifies this
      ensures sent == old(sent) + pokes
    {
      for i := 0 to |pokes|
        invariant sent == old(sent) + pokes[..i]
      {
        sent := sent + [pokes[i]];
      }
      assert pokes[..|pokes|] == pokes;
    }

    // ---- helpers of several handlers ---------------------------------------------------------

    /** Whether every step is in one of the given states. */
    method AllStepsIn(names: seq<Name>, states: set<StepState>) returns (all: bool)
      requires Elems(names) == db.steps.Keys
      ensures all <==> AllIn(db.steps, states)
    {
      for i := 0 to |names|
        invariant forall k :: 0 <= k < i ==> names[k] in db.steps && db.steps[names[k]].state in states
      {
        assert names[i] in Elems(names);
        if db.steps[names[i]].state !in states {
          return false;
        }
      }
      assert forall n :: n in db.steps ==> n in Elems(names);
      return true;
    }

    /** Advances a RUNNING workflow to COMPLETE, or a CANCELLING one to CANCELLED, if its steps allow it. */
    method SettleWorkflowIfDone() returns (ok: bool, settled: bool)
      modifies db
      ensures Listable(old(db.Contents())) ==>
                ok && settled == Settles(old(db.Contents())) && db.Contents() == Settle(old(db.Contents()))
    {
      if db.wf.state !in {WfRunning, WfCancelling} {
        return true, false;
      }
      var listing := db.ListWorkflowSteps();
      if listing == None {
        return false, false;
      }
      var done;
      if db.wf.state == WfRunning {
        done := AllStepsIn(listing.value, {StepComplete});
      } else {
        done := AllStepsIn(listing.value, {StepComplete, StepFailed, StepTimedOut, StepCancelled});
      }
      assert done <==> Settles(db.Contents());
      if !done {
        return true, false;
      }
      ok := db.UpdateWorkflowState(if db.wf.state == WfRunning then WfComplete else WfCancelled);
      settled := true;
    }

    /** Cancel requests for the live tasks of one step, appended to a list. */
    method CancelLiveTasks(n: Name, cancels: seq<Msg>) returns (more: seq<Msg>)
      requires n in db.steps
      ensures Elems(more) == Elems(cancels) + set t | t in LiveAttempts(db.Contents(), n) :: CancelTask(t)
    {
      var found := db.TasksOfStep(n, true);
      LiveLatestFirst(db.steps[n].attempts, db.tasks);
      var live := found.value;
      more := cancels;
      for i := 0 to |live|
        invariant Elems(more) == Elems(cancels) + set t | t in live[..i] :: CancelTask(t)
      {
        TakeNext(live, i);
        Snoc(more, CancelTask(live[i]));
        more := more + [CancelTask(live[i])];
      }
      assert live[..|live|] == live;
      assert forall t :: t in live <==> t in LiveAttempts(db.Contents(), n);
    }

    /** One pass over the steps: those in `first`, those in `second`, and cancel requests for the live
        tasks of the RUNNING ones. */
    method Partition(names: seq<Name>, first: set<StepState>, second: set<StepState>)
      returns (ones: seq<Name>, others: seq<Name>, cancels: seq<Msg>)
      requires Elems(names) == db.steps.Keys && first !! second
      ensures Elems(ones) == WithState(db.steps, first) && Elems(others) == WithState(db.steps, second)
      ensures Elems(cancels) == CancelRunning(db.Contents())
    {
      ones, others, cancels := [], [], [];
      ghost var rows := db.Contents();
      for i := 0 to |names|
        invariant Elems(ones) == set n | n in names[..i] && n in db.steps && db.steps[n].state in first
        invariant Elems(others) == set n | n in names[..i] && n in db.steps && db.steps[n].state in second
        invariant Elems(cancels) == CancelAmong(rows, Elems(names[..i]))
      {
        var n := names[i];
        assert n in Elems(names);
        TakeNext(names, i);
        if db.steps[n].state in first {
          Snoc(ones, n);
          ones := ones + [n];
        } else if db.steps[n].state in second {
          Snoc(others, n);
          others := others + [n];
        }
        if db.steps[n].state == StepRunning {
          cancels := CancelLiveTasks(n, cancels);
        }
        OneMoreStep(rows, Elems(names[..i]), n);
      }
      assert names[..|names|] == names;
      assert forall n :: n in names <==> n in db.steps;
    }

    /** Times out the workflow and its open steps, inside the caller's transaction. */
    method TimeOutWorkflowSteps() returns (ok: bool, cancels: seq<Msg>)
      modifies db
      ensures Listable(old(db.Contents())) ==> ok == TimeOut(old(db.Contents())).ok
      ensures Listable(old(db.Contents())) && ok ==>
                db.Contents() == TimeOut(old(db.Contents())).rows && Elems(cancels) == TimeOut(old(db.Contents())).sends
    {
      cancels := [];
      var listing := db.ListWorkflowSteps();
      if listing == None {
        return false, cancels;
      }
      ok, cancels := TimeOutOpenSteps(listing.value);
      if db.wf.state != WfTimedOut {
        var flipped := db.UpdateWorkflowState(WfTimedOut);
        ok := ok && flipped;
      }
    }

    /** Times out the DEFINED, PENDING and RUNNING steps and lists the live tasks of the RUNNING ones. */
    method TimeOutOpenSteps(names: seq<Name>) returns (ok: bool, cancels: seq<Msg>)
      requires Elems(names) == db.steps.Keys
      modifies db
      ensures ok && Elems(cancels) == CancelRunning(old(db.Contents()))
      ensures db.Contents() == MoveSteps(old(db.Contents()), WithState(old(db.steps), {StepDefined, StepPending, StepRunning}),
                                         StepTimedOut)
    {
      var late, none;
      late, none, cancels := Partition(names, {StepDefined, StepPending, StepRunning}, {});
      assert forall n :: n in late <==> n in WithState(db.steps, {StepDefined, StepPending, StepRunning});
      ok := db.UpdateWorkflowStepState(late, StepTimedOut);
    }

    static method SchedulePokes(names: seq<Name>) returns (pokes: seq<Msg>)
      ensures Elems(pokes) == set n | n in names :: ScheduleStep(n)
    {
      pokes := [];
      for i := 0 to |names|
        invariant Elems(pokes) == set n | n in names[..i] :: ScheduleStep(n)
      {
        TakeNext(names, i);
        Snoc(pokes, ScheduleStep(names[i]));
        pokes := pokes + [ScheduleStep(names[i])];
      }
      assert names[..|names|] == names;
    }

    // ---- handlers ----------------------------------------------------------------------------

    method ProcessWorkflow() returns (ok: bool)
      modifies this, db
      ensures Did(Process(old(db.Contents())), ok, db.Contents(), old(sent), sent)
    {
      NothingSent(sent);
      ok := true;
      if HardStop(db.wf.state) {
        return;
      }
      var before := db.Contents();
      if db.wf.state == WfPending {
        ok := db.UpdateWorkflowState(WfRunning);
      }
      var ready := db.ListWorkflowStepsReadyToRun();
      var marked := db.UpdateWorkflowStepState(ready, StepPending);
      assert forall n :: n in ready <==> n in Ready(before.steps);
      ok := ok && marked;
      db.EndTransaction(ok, before);
      var pokes := SchedulePokes(ready);
      Emit(pokes);
      assert sent[|old(sent)|..] == pokes;
    }

    method ScheduleWorkflowStep(n: Name, now: Time) returns (ok: bool)
      modifies this, db
      ensures Listable(old(db.Contents())) ==>
                Did(WorkflowSpec.Schedule(old(db.Contents()), n, now), ok, db.Contents(), old(sent), sent)
    {
      NothingSent(sent);
      var found := db.TasksOfStep(n, true);
      if found == None {
        return false;
      }
      LiveLatestFirst(db.steps[n].attempts, db.tasks);
      NoElems(found.value);
      if HardStop(db.wf.state) || db.steps[n].state != StepPending || |found.value| > 0 {
        return true;
      }
      var before := db.Contents();
      var pokes;
      if now > db.wf.deadline {
        ok, pokes := TimeOutWorkflowSteps();
      } else {
        ok, pokes := DispatchStep(n, now);
      }
      db.EndTransaction(ok, before);
      if ok {
        Emit(pokes);
        assert sent[|old(sent)|..] == pokes;
      }
    }

    /** Defines the task of a PENDING step, links it, and marks the step RUNNING. */
    method DispatchStep(n: Name, now: Time) returns (ok: bool, pokes: seq<Msg>)
      requires n in db.steps && db.steps[n].state == StepPending
      modifies db
      ensures ok && db.Contents() == Dispatch(old(db.Contents()), n, now)
      ensures pokes == [NewTask(|old(db.tasks)|)]
    {
      var step := db.steps[n];
      var t := db.DefineTask(StepTask(step, now));
      db.LinkWorkflowStepWithExecutorTask(n, t);
      ok := db.UpdateWorkflowStepState([n], StepRunning);
      assert Elems([n]) == {n};
      pokes := [NewTask(t)];
    }

    /** The COMPLETE and CANCELLED branches of the reducer. */
    method ReduceAndSettle(n: Name, outcome: StepState) returns (ok: bool, pokes: seq<Msg>)
      requires n in db.steps && outcome in {StepComplete, StepCancelled}
      modifies db
      ensures Listable(old(db.Contents())) ==> ok == (outcome in NextStepStates(old(db.steps)[n].state))
      ensures Listable(old(db.Contents())) && ok ==>
                var moved := MoveSteps(old(db.Contents()), {n}, outcome);
                && db.Contents() == Settle(moved)
                && Elems(pokes) == if outcome == StepComplete && !Settles(moved) then {Msg.ProcessWorkflow} else {}
    {
      pokes := [];
      assert Elems([n]) == {n};
      SameGraphAfterMove(db.Contents(), {n}, outcome);
      ok := db.UpdateWorkflowStepState([n], outcome);
      if ok {
        var settled;
        ok, settled := SettleWorkflowIfDone();
        if outcome == StepComplete && !settled {
          pokes := [Msg.ProcessWorkflow];
        }
      }
    }

    /** The transaction of the outcome reducer; `pokes` is what to send after its commit. */
    method ReduceOutcome(n: Name, outcome: StepState) returns (ok: bool, pokes: seq<Msg>)
      requires n in db.steps && SettledStep(outcome)
      modifies db
      ensures Listable(old(db.Contents())) ==> ok == ApplyOutcome(old(db.Contents()), n, outcome).ok
      ensures Listable(old(db.Contents())) && ok ==>
                db.Contents() == ApplyOutcome(old(db.Contents()), n, outcome).rows
                && Elems(pokes) == ApplyOutcome(old(db.Contents()), n, outcome).sends
    {
      ok, pokes := true, [];
      assert Elems([n]) == {n};
      if db.wf.state in {WfCancelling, WfCancelled} {
        if !SettledStep(db.steps[n].state) {
          ok := db.UpdateWorkflowStepState([n], StepCancelled);
        }
        if ok {
          SameGraphAfterMove(old(db.Contents()), {n}, StepCancelled);
          var settled;
          ok, settled := SettleWorkflowIfDone();
        }
        return;
      }
      if SettledStep(db.steps[n].state) {
        return;
      }
      match outcome {
        case StepTimedOut => ok, pokes := TimeOutWorkflowSteps();
        case StepFailed =>
          ok := db.UpdateWorkflowStepState([n], StepFailed);
          if ok && db.wf.state == WfRunning {
            ok := db.UpdateWorkflowState(WfFailed);
          }
        case StepComplete => ok, pokes := ReduceAndSettle(n, outcome);
        case StepCancelled => ok, pokes := ReduceAndSettle(n, outcome);
      }
    }

    method ApplyStepExecutionUpdate(n: Name, outcome: StepState) returns (ok: bool)
      modifies this, db
      ensures Listable(old(db.Contents())) ==>
                Did(ApplyOutcome(old(db.Contents()), n, outcome), ok, db.Contents(), old(sent), sent)
    {
      NothingSent(sent);
      if !SettledStep(outcome) || n !in db.steps {
        return false;
      }
      var before := db.Contents();
      var pokes;
      ok, pokes := ReduceOutcome(n, outcome);
      db.EndTransaction(ok, before);
      if ok {
        Emit(pokes);
        assert sent[|old(sent)|..] == pokes;
      }
    }

    method ApplyStepTaskUpdate(t: TaskId, outcome: StepState) returns (ok: bool)
      requires OneStepPerTask(db.steps)
      modifies this, db
      ensures Listable(old(db.Contents())) ==>
                Did(ApplyTaskOutcome(old(db.Contents()), t, outcome), ok, db.Contents(), old(sent), sent)
    {
      NothingSent(sent);
      var step := db.StepProcessedByTask(t);
      if step == None {
        return true;
      }
      assert StepOfTask(db.steps, t) == step;
      ok := ApplyStepExecutionUpdate(step.value, outcome);
    }

    method CancelWorkflow() returns (ok: bool)
      modifies this, db
      ensures Listable(old(db.Contents())) ==> Did(Cancel(old(db.Contents())), ok, db.Contents(), old(sent), sent)
    {
      NothingSent(sent);
      if db.wf.state in {WfCancelling, WfCancelled, WfComplete} {
        return true;
      }
      var before := db.Contents();
      var pokes;
      ok, pokes := DrainSteps();
      db.EndTransaction(ok, before);
      if ok {
        Emit(pokes);
        assert sent[|old(sent)|..] == pokes;
      }
    }

    /** The transaction of a cancellation. */
    method DrainSteps() returns (ok: bool, cancels: seq<Msg>)
      requires db.wf.state !in {WfCancelling, WfCancelled, WfComplete}
      modifies db
      ensures Listable(old(db.Contents())) ==>
                ok && db.Contents() == Cancel(old(db.Contents())).rows && Elems(cancels) == CancelRunning(old(db.Contents()))
    {
      ghost var before := db.Contents();
      var marked := db.UpdateWorkflowState(WfCancelling);
      ok, cancels := DropAndDrain(before);
      if ok {
        var settled;
        ok, settled := SettleWorkflowIfDone();
      }
      ok := ok && marked;
    }

    /** Partitions the steps of a workflow just marked CANCELLING and moves each group. */
    method DropAndDrain(ghost before: Rows) returns (ok: bool, cancels: seq<Msg>)
      requires db.Contents() == MoveWf(before, WfCancelling)
      modifies db
      ensures Listable(before) ==>
                ok && db.Contents() == MoveSteps(Drained(before), WithState(before.steps, DROPPED), StepCancelled)
                && Elems(cancels) == CancelRunning(before)
      ensures Listable(before) ==> Listable(db.Contents())
    {
      var listing := db.ListWorkflowSteps();
      if listing == None {
        return false, [];
      }
      var draining, dropped;
      draining, dropped, cancels := Partition(listing.value, {StepRunning}, DROPPED);
      SameRequests(db.Contents(), before);
      ok := MarkDrained(draining, dropped, before);
    }

    method MarkDrained(draining: seq<Name>, dropped: seq<Name>, ghost before: Rows) returns (ok: bool)
      requires db.Contents() == MoveWf(before, WfCancelling)
      requires Elems(draining) == WithState(before.steps, {StepRunning})
      requires Elems(dropped) == WithState(before.steps, DROPPED)
      modifies db
      ensures ok && db.Contents() == MoveSteps(Drained(before), WithState(before.steps, DROPPED), StepCancelled)
      ensures GraphOf(db.steps) == GraphOf(before.steps)
    {
      assert forall n :: n in draining <==> n in WithState(before.steps, {StepRunning});
      assert forall n :: n in dropped <==> n in WithState(before.steps, DROPPED);
      SameGraphAfterMove(db.Contents(), Elems(draining), StepCancelling);
      var marked := db.UpdateWorkflowStepState(draining, StepCancelling);
      SameGraphAfterMove(db.Contents(), Elems(dropped), StepCancelled);
      var cleared := db.UpdateWorkflowStepState(dropped, StepCancelled);
      ok := marked && cleared;
    }

    /** `revived` tells whether the preconditions held; when they do not, nothing is written. */
    method ReviveWorkflow(newDeadline: Option<Time>, now: Time) returns (ok: bool, revived: bool)
      modifies this, db
      ensures Listable(old(db.Contents())) ==>
                Did(Revive(old(db.Contents()), newDeadline, now), ok, db.Contents(), old(sent), sent)
      ensures Listable(old(db.Contents())) ==> revived == Revivable(old(db.Contents()), newDeadline, now)
    {
      NothingSent(sent);
      if db.wf.state !in {WfFailed, WfTimedOut} {
        return true, false;
      }
      if db.wf.state == WfTimedOut && (newDeadline == None || newDeadline.value <= now) {
        return true, false;
      }
      if newDeadline.Some? && newDeadline.value <= now {
        return true, false;
      }
      var before := db.Contents();
      ok := RevertSteps();
      if ok && newDeadline.Some? {
        db.UpdateWorkflowDeadline(newDeadline.value);
      }
      db.EndTransaction(ok, before);
      revived := ok;
      if ok {
        Emit([Msg.ProcessWorkflow]);
        assert sent[|old(sent)|..] == [Msg.ProcessWorkflow];
      }
    }

    method RevertSteps() returns (ok: bool)
      requires db.wf.state in {WfFailed, WfTimedOut}
      modifies db
      ensures Listable(old(db.Contents())) ==> ok && db.Contents() == Revived(old(db.Contents()))
    {
      ghost var before := db.Contents();
      ok := db.UpdateWorkflowState(WfRunning);
      var listing := db.ListWorkflowSteps();
      if listing == None {
        return false;
      }
      var reverted, none, cancels := Partition(listing.value, {StepFailed, StepTimedOut}, {});
      assert forall n :: n in reverted <==> n in WithState(before.steps, {StepFailed, StepTimedOut});
      var marked := db.UpdateWorkflowStepState(reverted, StepDefined);
      ok := ok && marked;
    }

    // ---- the maintenance sweep ---------------------------------------------------------------

    /** A RUNNING step: nothing while a task is live, else the outcome of its latest task, or FAILED when
        it has none. */
    method ClassifyRunningStep(n: Name) returns (poke: Option<StepState>)
      requires n in db.steps
      ensures poke == LostOutcome(db.Contents(), n)
    {
      var found := db.TasksOfStep(n, false);
      var tasks := found.value;
      ghost var attempts := db.steps[n].attempts;
      AllLatestFirst(attempts, db.tasks);
      for i := 0 to |tasks|
        invariant forall k :: 0 <= k < i ==> TerminalTask(TaskStateAt(db.tasks, tasks[k]))
      {
        if !TerminalTask(TaskStateAt(db.tasks, tasks[i])) {
          assert attempts[|tasks| - 1 - i] == tasks[i];
          return None;
        }
      }
      forall t | t in attempts ensures TerminalTask(TaskStateAt(db.tasks, t)) {
        var k :| 0 <= k < |attempts| && attempts[k] == t;
        assert tasks[|tasks| - 1 - k] == t;
      }
      if |tasks| == 0 {
        return Some(StepFailed);
      }
      return Some(OutcomeOf(TaskStateAt(db.tasks, tasks[0])));
    }

    /** A CANCELLING step: cancel requests for its live tasks, or, when there is none left, the verdict
        that the cancellation has landed. */
    method ClassifyCancellingStep(n: Name) returns (landed: bool, cancels: seq<Msg>)
      requires n in db.steps
      ensures landed == AllTerminal(db.Contents(), db.steps[n].attempts)
      ensures Elems(cancels) == StepCancels(db.Contents(), n)
    {
      var found := db.TasksOfStep(n, false);
      var tasks := found.value;
      ghost var attempts := db.steps[n].attempts;
      AllLatestFirst(attempts, db.tasks);
      cancels := [];
      for i := 0 to |tasks|
        invariant Elems(cancels) == set t | t in tasks[..i] && !TerminalTask(TaskStateAt(db.tasks, t)) :: CancelTask(t)
      {
        TakeNext(tasks, i);
        if !TerminalTask(TaskStateAt(db.tasks, tasks[i])) {
          Snoc(cancels, CancelTask(tasks[i]));
          cancels := cancels + [CancelTask(tasks[i])];
        }
      }
      assert tasks[..|tasks|] == tasks;
      assert forall t :: t in tasks <==> t in Elems(tasks);
      landed := |cancels| == 0;
      assert landed <==> Elems(cancels) == {} by { assert cancels != [] ==> cancels[0] in Elems(cancels); }
      if landed {
        forall t | t in attempts ensures TerminalTask(TaskStateAt(db.tasks, t)) {
          assert TerminalTask(TaskStateAt(db.tasks, t)) || CancelTask(t) in Elems(cancels);
        }
      } else {
        var m := cancels[0];
        assert m in Elems(cancels);
      }
    }

    /** What the sweep has to send for one step. */
    method ClassifyStep(n: Name) returns (updates: seq<Msg>, schedules: seq<Msg>, cancels: seq<Msg>)
      requires n in db.steps
      ensures Elems(updates) == StepOutcome(db.Contents(), n)
      ensures Elems(schedules) == if db.steps[n].state == StepPending then {ScheduleStep(n)} else {}
      ensures Elems(cancels) == if db.steps[n].state == StepCancelling then StepCancels(db.Contents(), n) else {}
    {
      updates, schedules, cancels := [], [], [];
      match db.steps[n].state {
        case StepPending => schedules := [ScheduleStep(n)];
        case StepRunning =>
          var poke := ClassifyRunningStep(n);
          if poke.Some? {
            updates := [ExecUpdate(n, poke.value)];
          }
        case StepCancelling =>
          var landed;
          landed, cancels := ClassifyCancellingStep(n);
          if landed {
            updates := [ExecUpdate(n, StepCancelled)];
          }
        case _ =>
      }
    }

    /** One pass over the steps, collecting what to send for each. */
    method ClassifySteps(names: seq<Name>)
      returns (updates: seq<Msg>, schedules: seq<Msg>, anyDefined: bool, cancels: seq<Msg>)
      requires Elems(names) == db.steps.Keys
      ensures Elems(updates) == SweptOutcomes(db.Contents())
      ensures Elems(schedules) == SweptSchedules(db.Contents())
      ensures anyDefined <==> WithState(db.steps, {StepDefined}) != {}
      ensures Elems(cancels) == SweptCancels(db.Contents())
    {
      updates, schedules, anyDefined, cancels := [], [], false, [];
      ghost var rows := db.Contents();
      for i := 0 to |names|
        invariant Elems(updates) == OutcomesAmong(rows, Elems(names[..i]))
        invariant Elems(schedules) == SchedulesAmong(rows, Elems(names[..i]))
        invariant anyDefined <==> exists n :: n in Elems(names[..i]) && n in rows.steps && rows.steps[n].state == StepDefined
        invariant Elems(cancels) == CancelsAmong(rows, Elems(names[..i]))
      {
        var n := names[i];
        assert n in Elems(names);
        TakeNext(names, i);
        Classified(rows, Elems(names[..i]), n);
        anyDefined := anyDefined || db.steps[n].state == StepDefined;
        var more, waiting, live := ClassifyStep(n);
        Appended(updates, more);
        Appended(schedules, waiting);
        Appended(cancels, live);
        updates, schedules, cancels := updates + more, schedules + waiting, cancels + live;
      }
      assert names[..|names|] == names;
      AllClassified(rows);
      assert forall n :: n in WithState(rows.steps, {StepDefined}) <==> n in rows.steps && rows.steps[n].state == StepDefined;
    }

    /** The transaction of the sweep before the deadline, and its pokes in their order: outcomes, then
        schedules, then one process poke, then cancel requests. */
    method CollectPokes() returns (ok: bool, pokes: seq<Msg>)
      modifies db
      ensures InSweepOrder(pokes)
      ensures Listable(old(db.Contents())) ==>
                var a := old(db.Contents());
                && ok && db.Contents() == Settle(a)
                && Elems(pokes) == SweptOutcomes(a) + SweptSchedules(a) + SweptProcess(a) + SweptCancels(a)
    {
      var listing := db.ListWorkflowSteps();
      if listing == None {
        return false, [];
      }
      var updates, schedules, anyDefined, cancels := ClassifySteps(listing.value);
      var process := if db.wf.state == WfPending || anyDefined then [Msg.ProcessWorkflow] else [];
      pokes := updates + schedules + process + cancels;
      Appended(updates, schedules);
      Appended(updates + schedules, process);
      Appended(updates + schedules + process, cancels);
      assert Elems(process) == SweptProcess(db.Contents());
      ConcatInOrder(updates, schedules, process, cancels, db.Contents());
      var settled;
      ok, settled := SettleWorkflowIfDone();
    }

    method ReconcileWorkflow(now: Time) returns (ok: bool)
      modifies this, db
      ensures Listable(old(db.Contents())) ==>
                Did(Reconcile(old(db.Contents()), now), ok, db.Contents(), old(sent), sent)
      ensures Listable(old(db.Contents())) ==> InSweepOrder(sent[|old(sent)|..])
    {
      var before := db.Contents();
      var pokes;
      if db.wf.deadline <= now {
        ok, pokes := TimeOutWorkflowSteps();
      } else {
        ok, pokes := CollectPokes();
      }
      db.EndTransaction(ok, before);
      NothingSent(sent);
      if ok {
        Emit(pokes);
        assert sent[|old(sent)|..] == pokes;
        if Listable(before) && before.wf.deadline <= now { CancelsInOrder(before, pokes); }
      }
    }
  }

  lemma SameGraphAfterMove(rows: Rows, names: set<Name>, state: StepState)
    ensures GraphOf(MoveSteps(rows, names, state).steps) == GraphOf(rows.steps)
  {
  }

  lemma OneMoreStep(rows: Rows, names: set<Name>, n: Name)
    requires n in rows.steps
    ensures CancelAmong(rows, names + {n}) == CancelAmong(rows, names) +
              if rows.steps[n].state == StepRunning then set t | t in LiveAttempts(rows, n) :: CancelTask(t) else {}
  {
  }
}
