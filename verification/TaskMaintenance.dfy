/** One pass of the task scheduler's periodic maintenance: a run of the system's own sweep actions. */
module TaskMaintenance {
  import opened Prelude
  import opened Tables
  import opened Rows
  import opened TaskSpec
  import opened TaskInvariants
  import opened System
  import opened SystemInvariants
  import opened Guarantees
  import opened Store
  import TaskScheduler

  /** From `s`, sweep actions lead to the rows and the messages at hand. */
  ghost predicate Traced(s: State, actions: seq<Action>, rows: Rows, before: seq<Msg>, sent: seq<Msg>) {
    && (forall i :: 0 <= i < |actions| ==> TaskSweep(actions[i]))
    && rows == After(s, actions).rows && After(s, actions).now == s.now && After(s, actions).senders == s.senders
    && before <= sent && After(s, actions).msgs == s.msgs + Elems(sent[|before|..])
  }

  /** A PENDING task no pass can activate: its request would have to be enqueued at once, and cannot. */
  predicate Stuck(task: Task, senders: set<TaskName>) {
    task.state == TaskPending && task.timing.Immediate? && task.name !in senders
  }

  /** What a list of rows read earlier may rely on while the sweep works through it. */
  predicate ListsHold(a: Rows, b: Rows, senders: set<TaskName>) {
    && |b.tasks| == |a.tasks|
    && forall t :: 0 <= t < |a.tasks| ==> TaskListsHold(a.tasks[t], b.tasks[t], senders)
  }

  predicate TaskListsHold(a: Task, b: Task, senders: set<TaskName>) {
    && b.deadline == a.deadline && b.name == a.name && b.timing == a.timing
    && (a.state != TaskPending ==> b.state != TaskPending)
    && (Stuck(a, senders) ==> Stuck(b, senders))
    && (b.state == TaskActive ==> a.state == TaskActive || (a.state == TaskPending && !Stuck(a, senders)))
    && |a.runs| <= |b.runs|
    && (forall i :: 0 <= i < |b.runs| && b.runs[i].state in {RunAcquired, RunProcessing, RunProcessed, RunFailed} ==>
          i < |a.runs| && a.runs[i].state == b.runs[i].state)
    && forall i :: 0 <= i < |a.runs| ==>
         && b.runs[i].deadline == a.runs[i].deadline && b.runs[i].enqueueAt == a.runs[i].enqueueAt
         && (!LiveRun(a.runs[i].state) ==> !LiveRun(b.runs[i].state) && b.runs[i].terminal == a.runs[i].terminal)
  }

  lemma ListsHoldAtFirst(rows: Rows, senders: set<TaskName>)
    ensures ListsHold(rows, rows, senders) && NoneStarted(rows, rows)
  {
  }

  lemma ListsHoldFurther(a: Rows, b: Rows, c: Rows, senders: set<TaskName>)
    requires ListsHold(a, b, senders) && ListsHold(b, c, senders)
    ensures ListsHold(a, c, senders)
  {
    forall t | 0 <= t < |a.tasks| ensures TaskListsHold(a.tasks[t], c.tasks[t], senders) {
      assert TaskListsHold(a.tasks[t], b.tasks[t], senders) && TaskListsHold(b.tasks[t], c.tasks[t], senders);
    }
  }

  /** One more sweep action, done by a handler that did what the action says. */
  lemma TraceMore(s: State, actions: seq<Action>, a: Action, before: seq<Msg>, mid: seq<Msg>, e: Effect,
                  ok: bool, next: Rows, sent: seq<Msg>)
    requires Traced(s, actions, After(s, actions).rows, before, mid) && TaskSweep(a)
    requires Did(e, ok, next, mid, sent) && Next(After(s, actions), a) == Commit(After(s, actions), e)
    ensures Traced(s, actions + [a], next, before, sent)
  {
    assert (actions + [a])[..|actions|] == actions;
    assert sent[|before|..] == mid[|before|..] + sent[|mid|..];
  }

  lemma ActivateHoldsLists(rows: Rows, t: TaskId, senders: set<TaskName>)
    ensures ListsHold(rows, Activate(rows, t, senders).rows, senders)
    ensures var b := Activate(rows, t, senders).rows;
            t < |rows.tasks| ==> (b.tasks[t].state == TaskPending <==> Stuck(rows.tasks[t], senders))
  {
  }

  /** A cancellation of a task that is not PENDING. */
  lemma StopHoldsLists(rows: Rows, t: TaskId, senders: set<TaskName>)
    requires t < |rows.tasks| ==> rows.tasks[t].state != TaskPending
    ensures ListsHold(rows, StopTask(rows, t).rows, senders)
  {
  }

  lemma LateTaskHoldsLists(rows: Rows, t: TaskId, senders: set<TaskName>)
    ensures ListsHold(rows, TimeOutTask(rows, t).rows, senders)
  {
  }

  lemma StartHoldsLists(rows: Rows, r: RunId, senders: set<TaskName>)
    ensures ListsHold(rows, StartRun(rows, r, senders).rows, senders)
  {
  }

  lemma CompleteHoldsLists(rows: Rows, r: RunId, senders: set<TaskName>)
    ensures ListsHold(rows, CompleteRun(rows, r).rows, senders)
  {
  }

  lemma LateRunHoldsLists(rows: Rows, r: RunId, senders: set<TaskName>)
    ensures ListsHold(rows, TimeOutRun(rows, r).rows, senders)
  {
    if HasRun(rows, r) && TimeOutRun(rows, r).rows != rows {
      var task := rows.tasks[r.task];
      var late := PutRun(task, r.index, Finalized(FailedWith(RunAt(rows, r), false))).(state := TaskTimedOut);
      assert TaskListsHold(task, late, senders) && TaskListsHold(late, CancelOngoing(late), senders);
    }
  }

  lemma FailHoldsLists(rows: Rows, r: RunId, at: Time, senders: set<TaskName>)
    ensures ListsHold(rows, FailRun(rows, r, at).rows, senders)
  {
    if FailRun(rows, r, at).rows != rows { FailHoldsTask(rows, r, at, senders); }
  }

  lemma FailHoldsTask(rows: Rows, r: RunId, at: Time, senders: set<TaskName>)
    requires HasRun(rows, r) && FailRun(rows, r, at).rows != rows
    ensures var b := FailRun(rows, r, at).rows;
            && |b.tasks| == |rows.tasks| && TaskListsHold(rows.tasks[r.task], b.tasks[r.task], senders)
            && b.tasks == rows.tasks[r.task := b.tasks[r.task]]
  {
  }

  // ---- what the passes leave -----------------------------------------------------------------

  /** Every PENDING task is stuck. */
  predicate NoneWaiting(rows: Rows, senders: set<TaskName>) {
    forall t :: 0 <= t < |rows.tasks| && rows.tasks[t].state == TaskPending ==> Stuck(rows.tasks[t], senders)
  }

  /** No ACTIVE task is past its deadline. */
  predicate NoLateTask(rows: Rows, now: Time) {
    forall t :: 0 <= t < |rows.tasks| && rows.tasks[t].state == TaskActive ==> !Due(rows.tasks[t].deadline, now)
  }

  /** No outcome waits to be handled: no run is FAILED, and a PROCESSED one is of a task that is over. */
  predicate NoOutcomeWaiting(rows: Rows) {
    forall t, i :: 0 <= t < |rows.tasks| && 0 <= i < |rows.tasks[t].runs| ==> Handled(rows.tasks[t], i)
  }

  predicate Handled(task: Task, i: nat)
    requires i < |task.runs|
  {
    task.runs[i].state != RunFailed && (task.runs[i].state == RunProcessed ==> task.state != TaskActive)
  }

  /** No SCHEDULED run is due, unless its request cannot be enqueued. */
  predicate NoneDue(rows: Rows, now: Time, senders: set<TaskName>) {
    forall t, i :: 0 <= t < |rows.tasks| && 0 <= i < |rows.tasks[t].runs| ==> NotDue(rows.tasks[t], i, now, senders)
  }

  predicate NotDue(task: Task, i: nat, now: Time, senders: set<TaskName>)
    requires i < |task.runs|
  {
    task.runs[i].state == RunScheduled && Due(task.runs[i].enqueueAt, now) ==> task.name !in senders
  }

  /** No run that was requested and is not over is past its deadline. */
  predicate NoLateRun(rows: Rows, now: Time) {
    forall t, i :: 0 <= t < |rows.tasks| && 0 <= i < |rows.tasks[t].runs| ==> InTime(rows.tasks[t].runs[i], now)
  }

  predicate InTime(run: Run, now: Time) {
    run.state in {RunEnqueued, RunAcquired, RunProcessing} ==> !Due(run.deadline, now)
  }

  /** All that a pass is for. */
  predicate NothingOverdue(rows: Rows, now: Time, senders: set<TaskName>) {
    NoneWaiting(rows, senders) && NoLateTask(rows, now) && NoOutcomeWaiting(rows) && NoneDue(rows, now, senders)
    && NoLateRun(rows, now)
  }

  /** No run was added, and none became SCHEDULED. */
  predicate NoneAdded(a: Rows, b: Rows) {
    && |b.tasks| == |a.tasks|
    && (forall t :: 0 <= t < |a.tasks| ==> |b.tasks[t].runs| == |a.tasks[t].runs|)
    && forall t, i :: 0 <= t < |a.tasks| && 0 <= i < |b.tasks[t].runs| && b.tasks[t].runs[i].state == RunScheduled ==>
                        i < |a.tasks[t].runs| && a.tasks[t].runs[i].state == RunScheduled
  }

  /** Nor did any become ENQUEUED. */
  predicate NoneStarted(a: Rows, b: Rows) {
    && NoneAdded(a, b)
    && forall t, i :: 0 <= t < |a.tasks| && 0 <= i < |b.tasks[t].runs| && b.tasks[t].runs[i].state == RunEnqueued ==>
                        i < |a.tasks[t].runs| && a.tasks[t].runs[i].state == RunEnqueued
  }

  lemma WaitingStays(a: Rows, b: Rows, senders: set<TaskName>)
    requires ListsHold(a, b, senders) && NoneWaiting(a, senders)
    ensures NoneWaiting(b, senders)
    ensures forall t :: 0 <= t < |a.tasks| && b.tasks[t].state == TaskActive ==> a.tasks[t].state == TaskActive
  {
    forall t | 0 <= t < |a.tasks|
      ensures b.tasks[t].state == TaskPending ==> Stuck(b.tasks[t], senders)
      ensures b.tasks[t].state == TaskActive ==> a.tasks[t].state == TaskActive
    {
      assert TaskListsHold(a.tasks[t], b.tasks[t], senders);
    }
  }

  lemma LateTasksStay(a: Rows, b: Rows, now: Time, senders: set<TaskName>)
    requires ListsHold(a, b, senders) && NoneWaiting(a, senders) && NoLateTask(a, now)
    ensures NoLateTask(b, now)
  {
    WaitingStays(a, b, senders);
    forall t | 0 <= t < |b.tasks| && b.tasks[t].state == TaskActive ensures !Due(b.tasks[t].deadline, now) {
      assert TaskListsHold(a.tasks[t], b.tasks[t], senders);
    }
  }

  lemma OutcomesStay(a: Rows, b: Rows, senders: set<TaskName>)
    requires ListsHold(a, b, senders) && NoneWaiting(a, senders) && NoOutcomeWaiting(a)
    ensures NoOutcomeWaiting(b)
  {
    WaitingStays(a, b, senders);
    forall t, i | 0 <= t < |b.tasks| && 0 <= i < |b.tasks[t].runs| ensures Handled(b.tasks[t], i) {
      assert TaskListsHold(a.tasks[t], b.tasks[t], senders);
      if b.tasks[t].runs[i].state in {RunProcessed, RunFailed} { assert Handled(a.tasks[t], i); }
    }
  }

  lemma DueStays(a: Rows, b: Rows, now: Time, senders: set<TaskName>)
    requires ListsHold(a, b, senders) && NoneAdded(a, b) && NoneDue(a, now, senders)
    ensures NoneDue(b, now, senders)
  {
    forall t, i | 0 <= t < |b.tasks| && 0 <= i < |b.tasks[t].runs| ensures NotDue(b.tasks[t], i, now, senders) {
      assert TaskListsHold(a.tasks[t], b.tasks[t], senders);
      assert NotDue(a.tasks[t], i, now, senders);
    }
  }

  // What has been worked off of a list, read when the rows were `a`, stays worked off.

  predicate LateTasksDone(a: Rows, b: Rows, found: seq<TaskId>, i: nat, now: Time, senders: set<TaskName>) {
    && i <= |found| && ListsHold(a, b, senders) && NoneWaiting(b, senders)
    && (forall k :: 0 <= k < |found| ==> found[k] < |a.tasks| && Due(a.tasks[found[k]].deadline, now))
    && forall k :: 0 <= k < i ==> found[k] < |b.tasks| && b.tasks[found[k]].state != TaskActive
  }

  lemma LateTaskTurn(a: Rows, b: Rows, found: seq<TaskId>, i: nat, now: Time, senders: set<TaskName>)
    requires LateTasksDone(a, b, found, i, now, senders) && i < |found|
    ensures found[i] < |b.tasks| && Due(b.tasks[found[i]].deadline, now)
  {
    assert TaskListsHold(a.tasks[found[i]], b.tasks[found[i]], senders);
  }

  lemma LateTaskDone(a: Rows, b: Rows, c: Rows, found: seq<TaskId>, i: nat, now: Time, senders: set<TaskName>)
    requires LateTasksDone(a, b, found, i, now, senders) && i < |found| && ListsHold(b, c, senders)
    requires found[i] < |c.tasks| && c.tasks[found[i]].state != TaskActive
    ensures LateTasksDone(a, c, found, i + 1, now, senders)
  {
    ListsHoldFurther(a, b, c, senders);
    WaitingStays(b, c, senders);
  }

  predicate OutcomesDone(a: Rows, b: Rows, found: seq<RunId>, i: nat, senders: set<TaskName>) {
    && i <= |found| && ListsHold(a, b, senders) && NoneWaiting(b, senders) && OutcomesTold(a.tasks)
    && (forall k :: 0 <= k < |found| ==> HasRun(a, found[k]) && RunAt(a, found[k]).state in {RunProcessed, RunFailed})
    && forall k :: 0 <= k < i ==> HasRun(b, found[k]) && Handled(b.tasks[found[k].task], found[k].index)
  }

  lemma OutcomeTurn(a: Rows, b: Rows, found: seq<RunId>, i: nat, senders: set<TaskName>)
    requires OutcomesDone(a, b, found, i, senders) && i < |found|
    ensures HasRun(a, found[i]) && HasRun(b, found[i])
    ensures RunAt(a, found[i]).state in {RunProcessed, RunFailed} && RunAt(b, found[i]).terminal == Some(RunAt(a, found[i]).state)
    ensures RunAt(b, found[i]).state in {RunProcessed, RunFailed} ==> RunAt(b, found[i]).state == RunAt(a, found[i]).state
  {
    assert TaskListsHold(a.tasks[found[i].task], b.tasks[found[i].task], senders);
  }

  lemma OutcomeDone(a: Rows, b: Rows, c: Rows, found: seq<RunId>, i: nat, senders: set<TaskName>)
    requires OutcomesDone(a, b, found, i, senders) && i < |found| && ListsHold(b, c, senders)
    requires HasRun(c, found[i]) && Handled(c.tasks[found[i].task], found[i].index)
    ensures OutcomesDone(a, c, found, i + 1, senders)
  {
    ListsHoldFurther(a, b, c, senders);
    WaitingStays(b, c, senders);
    forall k | 0 <= k < i ensures HasRun(c, found[k]) && Handled(c.tasks[found[k].task], found[k].index) {
      assert TaskListsHold(b.tasks[found[k].task], c.tasks[found[k].task], senders);
    }
  }

  predicate DuesDone(a: Rows, b: Rows, found: seq<RunId>, i: nat, now: Time, senders: set<TaskName>) {
    && i <= |found| && ListsHold(a, b, senders) && NoneAdded(a, b)
    && (forall k :: 0 <= k < |found| ==> HasRun(a, found[k]) && Due(RunAt(a, found[k]).enqueueAt, now))
    && forall k :: 0 <= k < i ==> HasRun(b, found[k]) && NotDue(b.tasks[found[k].task], found[k].index, now, senders)
  }

  lemma DueTurn(a: Rows, b: Rows, found: seq<RunId>, i: nat, now: Time, senders: set<TaskName>)
    requires DuesDone(a, b, found, i, now, senders) && i < |found|
    ensures HasRun(b, found[i]) && Due(RunAt(b, found[i]).enqueueAt, now)
  {
    assert TaskListsHold(a.tasks[found[i].task], b.tasks[found[i].task], senders);
  }

  lemma DueDone(a: Rows, b: Rows, c: Rows, found: seq<RunId>, i: nat, now: Time, senders: set<TaskName>)
    requires DuesDone(a, b, found, i, now, senders) && i < |found| && ListsHold(b, c, senders) && NoneAdded(b, c)
    requires HasRun(c, found[i]) && NotDue(c.tasks[found[i].task], found[i].index, now, senders)
    ensures DuesDone(a, c, found, i + 1, now, senders)
  {
    ListsHoldFurther(a, b, c, senders);
    forall k | 0 <= k < i ensures HasRun(c, found[k]) && NotDue(c.tasks[found[k].task], found[k].index, now, senders) {
      assert TaskListsHold(b.tasks[found[k].task], c.tasks[found[k].task], senders);
    }
  }

  predicate LateRunsDone(a: Rows, b: Rows, found: seq<RunId>, i: nat, now: Time, senders: set<TaskName>) {
    && i <= |found| && ListsHold(a, b, senders) && NoneStarted(a, b)
    && (forall k :: 0 <= k < |found| ==> HasRun(a, found[k]) && Due(RunAt(a, found[k]).deadline, now))
    && forall k :: 0 <= k < i ==> HasRun(b, found[k]) && InTime(RunAt(b, found[k]), now)
  }

  lemma LateRunTurn(a: Rows, b: Rows, found: seq<RunId>, i: nat, now: Time, senders: set<TaskName>)
    requires LateRunsDone(a, b, found, i, now, senders) && i < |found|
    ensures HasRun(b, found[i]) && Due(RunAt(b, found[i]).deadline, now)
  {
    assert TaskListsHold(a.tasks[found[i].task], b.tasks[found[i].task], senders);
  }

  lemma LateRunDone(a: Rows, b: Rows, c: Rows, found: seq<RunId>, i: nat, now: Time, senders: set<TaskName>)
    requires LateRunsDone(a, b, found, i, now, senders) && i < |found| && ListsHold(b, c, senders) && NoneStarted(b, c)
    requires HasRun(c, found[i]) && InTime(RunAt(c, found[i]), now)
    ensures LateRunsDone(a, c, found, i + 1, now, senders)
  {
    ListsHoldFurther(a, b, c, senders);
    forall k | 0 <= k < i ensures HasRun(c, found[k]) && InTime(RunAt(c, found[k]), now) {
      assert TaskListsHold(b.tasks[found[k].task], c.tasks[found[k].task], senders);
    }
  }

  lemma NoLateTaskLeft(a: Rows, b: Rows, found: seq<TaskId>, now: Time, senders: set<TaskName>)
    requires NoneWaiting(a, senders) && LateTasksDone(a, b, found, |found|, now, senders)
    requires forall t: TaskId :: t in found <==> t < |a.tasks| && TaskListed(a.tasks[t], {TaskActive}, Some(now))
    ensures NoLateTask(b, now)
  {
    WaitingStays(a, b, senders);
    forall t: TaskId | t < |b.tasks| && b.tasks[t].state == TaskActive ensures !Due(b.tasks[t].deadline, now) {
      assert TaskListsHold(a.tasks[t], b.tasks[t], senders);
    }
  }

  lemma NoOutcomeLeft(a: Rows, b: Rows, found: seq<RunId>, senders: set<TaskName>)
    requires OutcomesDone(a, b, found, |found|, senders)
    requires forall r :: r in found <==> HasRun(a, r) && RunListed(RunAt(a, r), {RunProcessed, RunFailed}, None, None)
    ensures NoOutcomeWaiting(b)
  {
    forall t, i | 0 <= t < |b.tasks| && 0 <= i < |b.tasks[t].runs| ensures Handled(b.tasks[t], i) {
      assert TaskListsHold(a.tasks[t], b.tasks[t], senders);
      if b.tasks[t].runs[i].state in {RunProcessed, RunFailed} {
        assert RunAt(a, RunId(t, i)).state in {RunProcessed, RunFailed};
        assert RunId(t, i) in found;
        var k :| 0 <= k < |found| && found[k] == RunId(t, i);
      }
    }
  }

  lemma NoneDueLeft(a: Rows, b: Rows, found: seq<RunId>, now: Time, senders: set<TaskName>)
    requires DuesDone(a, b, found, |found|, now, senders)
    requires forall r :: r in found <==> HasRun(a, r) && RunListed(RunAt(a, r), {RunScheduled}, None, Some(now))
    ensures NoneDue(b, now, senders)
  {
    forall t, i | 0 <= t < |b.tasks| && 0 <= i < |b.tasks[t].runs| ensures NotDue(b.tasks[t], i, now, senders) {
      assert TaskListsHold(a.tasks[t], b.tasks[t], senders);
      if b.tasks[t].runs[i].state == RunScheduled && Due(b.tasks[t].runs[i].enqueueAt, now) {
        assert RunListed(RunAt(a, RunId(t, i)), {RunScheduled}, None, Some(now));
        assert RunId(t, i) in found;
        var k :| 0 <= k < |found| && found[k] == RunId(t, i);
      }
    }
  }

  lemma NoLateRunLeft(a: Rows, b: Rows, found: seq<RunId>, now: Time, senders: set<TaskName>)
    requires LateRunsDone(a, b, found, |found|, now, senders)
    requires forall r :: r in found <==>
               HasRun(a, r) && RunListed(RunAt(a, r), {RunDefined, RunScheduled, RunEnqueued, RunAcquired, RunProcessing}, Some(now), None)
    ensures NoLateRun(b, now)
  {
    forall t, i | 0 <= t < |b.tasks| && 0 <= i < |b.tasks[t].runs| ensures InTime(b.tasks[t].runs[i], now) {
      assert TaskListsHold(a.tasks[t], b.tasks[t], senders);
      var r := RunId(t, i);
      assert r in found ==> InTime(RunAt(b, r), now);
    }
  }

  lemma StartAddsNone(rows: Rows, r: RunId, now: Time, senders: set<TaskName>)
    ensures var b := StartRun(rows, r, senders).rows;
            NoneAdded(rows, b) && (HasRun(b, r) ==> NotDue(b.tasks[r.task], r.index, now, senders))
  {
  }

  lemma LateRunStartsNone(rows: Rows, r: RunId, now: Time)
    requires HasRun(rows, r) && (LiveRun(RunAt(rows, r).state) ==> rows.tasks[r.task].state == TaskActive)
    ensures var b := TimeOutRun(rows, r).rows; NoneStarted(rows, b) && HasRun(b, r) && InTime(RunAt(b, r), now)
  {
  }

  lemma FailureHandled(rows: Rows, r: RunId, at: Time)
    requires HasRun(rows, r) && RunAt(rows, r).terminal == Some(RunFailed) && RunAt(rows, r).state != RunProcessed
    ensures var b := FailRun(rows, r, at).rows; HasRun(b, r) && Handled(b.tasks[r.task], r.index)
  {
  }

  lemma SuccessHandled(rows: Rows, r: RunId)
    requires HasRun(rows, r) && RunAt(rows, r).state != RunFailed
    ensures var b := CompleteRun(rows, r).rows; HasRun(b, r) && Handled(b.tasks[r.task], r.index)
  {
  }

  /** Of the tasks worked off, exactly the stuck ones are left PENDING. */
  predicate WorkedOff(a: Rows, b: Rows, found: seq<TaskId>, senders: set<TaskName>) {
    forall k :: 0 <= k < |found| ==>
      && found[k] < |a.tasks| && found[k] < |b.tasks|
      && (b.tasks[found[k]].state == TaskPending <==> Stuck(a.tasks[found[k]], senders))
  }

  /** Exactly the stuck tasks are left PENDING. */
  predicate OnlyStuckPending(a: Rows, b: Rows, senders: set<TaskName>) {
    |b.tasks| == |a.tasks| && forall t :: 0 <= t < |a.tasks| ==> (b.tasks[t].state == TaskPending <==> Stuck(a.tasks[t], senders))
  }

  lemma AllWorkedOff(a: Rows, b: Rows, found: seq<TaskId>, senders: set<TaskName>)
    requires ListsHold(a, b, senders) && WorkedOff(a, b, found, senders)
    requires forall t: TaskId :: t in found <==> t < |a.tasks| && TaskListed(a.tasks[t], {TaskPending, TaskCancelling}, None)
    ensures OnlyStuckPending(a, b, senders)
  {
    forall t: TaskId | t < |a.tasks| ensures b.tasks[t].state == TaskPending <==> Stuck(a.tasks[t], senders) {
      assert TaskListsHold(a.tasks[t], b.tasks[t], senders);
      if t in found { var k :| 0 <= k < |found| && found[k] == t; }
    }
  }

  lemma WorkedOffFurther(a: Rows, b: Rows, c: Rows, found: seq<TaskId>, senders: set<TaskName>)
    requires WorkedOff(a, b, found, senders) && ListsHold(b, c, senders) && |a.tasks| == |b.tasks|
    requires ListsHold(a, b, senders)
    ensures WorkedOff(a, c, found, senders)
  {
    forall k | 0 <= k < |found| ensures c.tasks[found[k]].state == TaskPending <==> Stuck(a.tasks[found[k]], senders) {
      assert TaskListsHold(a.tasks[found[k]], b.tasks[found[k]], senders);
      assert TaskListsHold(b.tasks[found[k]], c.tasks[found[k]], senders);
    }
  }

  /** A task was not stuck at first only if it is not stuck when its turn comes, or no longer PENDING. */
  lemma OneMoreWorkedOff(a: Rows, b: Rows, c: Rows, found: seq<TaskId>, i: nat, senders: set<TaskName>)
    requires i < |found| && found[i] < |a.tasks| && ListsHold(a, b, senders) && ListsHold(a, c, senders)
    requires WorkedOff(a, c, found[..i], senders) && |b.tasks| == |c.tasks|
    requires c.tasks[found[i]].state == TaskPending <==> Stuck(b.tasks[found[i]], senders)
    ensures WorkedOff(a, c, found[..i + 1], senders)
  {
    assert TaskListsHold(a.tasks[found[i]], b.tasks[found[i]], senders);
    assert found[..i + 1] == found[..i] + [found[i]];
  }

  /** A pass of the periodic maintenance, with the actions it amounts to. */
  class Pass {
    const scheduler: TaskScheduler.Scheduler
    const db: Database
    const now: Time
    ghost const start: State
    ghost const before: seq<Msg>
    ghost var actions: seq<Action>

    ghost predicate Valid()
      reads this, scheduler, db
    {
      && scheduler.db == db && start.now == now && start.senders == scheduler.senders
      && Traced(start, actions, db.Contents(), before, scheduler.sent)
    }

    constructor (scheduler: TaskScheduler.Scheduler, now: Time, ghost start: State)
      requires start.rows == scheduler.db.Contents() && start.now == now && start.senders == scheduler.senders
      ensures Valid() && this.scheduler == scheduler && this.now == now && this.start == start && actions == []
      ensures before == scheduler.sent
    {
      this.scheduler, this.db, this.now := scheduler, scheduler.db, now;
      this.start, this.before, actions := start, scheduler.sent, [];
      new;
      assert scheduler.sent[|before|..] == [];
    }

    /** Notes down a handler's call as the sweep action it is. */
    ghost method Record(a: Action, e: Effect, ok: bool, rows: Rows, mid: seq<Msg>)
      requires scheduler.db == db && start.now == now && start.senders == scheduler.senders && Traced(start, actions, rows, before, mid) && TaskSweep(a)
      requires Did(e, ok, db.Contents(), mid, scheduler.sent)
      requires Next(After(start, actions), a) == Commit(After(start, actions), e)
      modifies this
      ensures Valid()
    {
      TraceMore(start, actions, a, before, mid, e, ok, db.Contents(), scheduler.sent);
      actions := actions + [a];
    }

    method HandlePending(t: TaskId)
      requires Valid()
      modifies this, scheduler, db
      ensures Valid() && ListsHold(old(db.Contents()), db.Contents(), scheduler.senders)
      ensures t < |db.tasks| ==> (db.tasks[t].state == TaskPending <==> Stuck(old(db.tasks)[t], scheduler.senders))
    {
      ghost var rows, mid := db.Contents(), scheduler.sent;
      ActivateHoldsLists(rows, t, scheduler.senders);
      var ok := scheduler.ProcessNewPendingTask(t);
      Record(SweepPending(t), Activate(rows, t, scheduler.senders), ok, rows, mid);
    }

    method HandleCancelling(t: TaskId)
      requires Valid() && (t < |db.tasks| ==> db.tasks[t].state != TaskPending)
      modifies this, scheduler, db
      ensures Valid() && ListsHold(old(db.Contents()), db.Contents(), scheduler.senders)
    {
      ghost var rows, mid := db.Contents(), scheduler.sent;
      StopHoldsLists(rows, t, scheduler.senders);
      var ok := scheduler.ProcessCancelTask(t);
      Record(SweepCancelling(t), StopTask(rows, t), ok, rows, mid);
    }

    method HandleLateTask(t: TaskId)
      requires Valid() && t < |db.tasks| && Due(db.tasks[t].deadline, now)
      modifies this, scheduler, db
      ensures Valid() && ListsHold(old(db.Contents()), db.Contents(), scheduler.senders)
      ensures t < |db.tasks| && db.tasks[t].state != TaskActive
    {
      ghost var rows, mid := db.Contents(), scheduler.sent;
      LateTaskHoldsLists(rows, t, scheduler.senders);
      var ok := scheduler.ProcessTaskTimeout(t);
      Record(SweepLateTask(t), TimeOutTask(rows, t), ok, rows, mid);
    }

    method HandleProcessed(r: RunId)
      requires Valid() && HasRun(db.Contents(), r) && RunAt(db.Contents(), r).terminal == Some(RunProcessed)
      requires RunAt(db.Contents(), r).state != RunFailed
      modifies this, scheduler, db
      ensures Valid() && ListsHold(old(db.Contents()), db.Contents(), scheduler.senders)
      ensures HasRun(db.Contents(), r) && Handled(db.tasks[r.task], r.index)
    {
      ghost var rows, mid := db.Contents(), scheduler.sent;
      SuccessHandled(rows, r);
      CompleteHoldsLists(rows, r, scheduler.senders);
      var ok := scheduler.ProcessTaskExecutionComplete(r);
      Record(SweepProcessed(r), CompleteRun(rows, r), ok, rows, mid);
    }

    method HandleFailed(r: RunId, at: Time)
      requires Valid() && HasRun(db.Contents(), r) && RunAt(db.Contents(), r).terminal == Some(RunFailed)
      requires RunAt(db.Contents(), r).state != RunProcessed
      modifies this, scheduler, db
      ensures Valid() && ListsHold(old(db.Contents()), db.Contents(), scheduler.senders)
      ensures HasRun(db.Contents(), r) && Handled(db.tasks[r.task], r.index)
    {
      ghost var rows, mid := db.Contents(), scheduler.sent;
      FailureHandled(rows, r, at);
      FailHoldsLists(rows, r, at, scheduler.senders);
      var ok := scheduler.ProcessTaskExecutionFailed(r, at);
      Record(SweepFailed(r, at), FailRun(rows, r, at), ok, rows, mid);
    }

    method HandleDue(r: RunId)
      requires Valid() && HasRun(db.Contents(), r) && Due(RunAt(db.Contents(), r).enqueueAt, now)
      modifies this, scheduler, db
      ensures Valid() && ListsHold(old(db.Contents()), db.Contents(), scheduler.senders)
      ensures NoneAdded(old(db.Contents()), db.Contents())
      ensures HasRun(db.Contents(), r) && NotDue(db.tasks[r.task], r.index, now, scheduler.senders)
    {
      ghost var rows, mid := db.Contents(), scheduler.sent;
      StartAddsNone(rows, r, now, scheduler.senders);
      StartHoldsLists(rows, r, scheduler.senders);
      var ok := scheduler.ProcessTaskExecutionStarting(r);
      Record(SweepDue(r), StartRun(rows, r, scheduler.senders), ok, rows, mid);
    }

    method HandleLateRun(r: RunId)
      requires Valid() && HasRun(db.Contents(), r) && Due(RunAt(db.Contents(), r).deadline, now)
      requires LiveRun(RunAt(db.Contents(), r).state) ==> db.tasks[r.task].state == TaskActive
      modifies this, scheduler, db
      ensures Valid() && ListsHold(old(db.Contents()), db.Contents(), scheduler.senders)
      ensures NoneStarted(old(db.Contents()), db.Contents())
      ensures HasRun(db.Contents(), r) && InTime(RunAt(db.Contents(), r), now)
    {
      ghost var rows, mid := db.Contents(), scheduler.sent;
      LateRunStartsNone(rows, r, now);
      LateRunHoldsLists(rows, r, scheduler.senders);
      var ok := scheduler.ProcessTaskExecutionTimedOut(r);
      Record(SweepLateRun(r), TimeOutRun(rows, r), ok, rows, mid);
    }

    // ---- the passes --------------------------------------------------------------------------

    method HandleListed(t: TaskId, listed: TaskState)
      requires Valid() && listed in {TaskPending, TaskCancelling} && t < |db.tasks|
      requires listed == TaskCancelling ==> db.tasks[t].state != TaskPending
      modifies this, scheduler, db
      ensures Valid() && ListsHold(old(db.Contents()), db.Contents(), scheduler.senders)
      ensures t < |db.tasks| && (db.tasks[t].state == TaskPending <==> Stuck(old(db.tasks)[t], scheduler.senders))
    {
      if listed == TaskPending {
        HandlePending(t);
      } else {
        HandleCancelling(t);
        assert TaskListsHold(old(db.tasks)[t], db.tasks[t], scheduler.senders);
      }
    }

    /** Tasks waiting to be scheduled or cancelled. */
    method TaskPass()
      requires Valid()
      modifies this, scheduler, db
      ensures Valid() && ListsHold(old(db.Contents()), db.Contents(), scheduler.senders)
      ensures OnlyStuckPending(old(db.Contents()), db.Contents(), scheduler.senders)
    {
      var tasks := db.tasks;
      ghost var rows := db.Contents();
      var found := db.ListTasks({TaskPending, TaskCancelling}, None);
      assert forall k :: 0 <= k < |found| ==> found[k] in found;
      for i := 0 to |found|
        invariant Valid() && ListsHold(rows, db.Contents(), scheduler.senders)
        invariant forall k :: 0 <= k < |found| ==> found[k] < |tasks| && tasks[found[k]].state in {TaskPending, TaskCancelling}
        invariant WorkedOff(rows, db.Contents(), found[..i], scheduler.senders)
      {
        ghost var mid := db.Contents();
        assert TaskListsHold(rows.tasks[found[i]], db.tasks[found[i]], scheduler.senders);
        HandleListed(found[i], tasks[found[i]].state);
        ListsHoldFurther(rows, mid, db.Contents(), scheduler.senders);
        WorkedOffFurther(rows, mid, db.Contents(), found[..i], scheduler.senders);
        OneMoreWorkedOff(rows, mid, db.Contents(), found, i, scheduler.senders);
      }
      assert found[..|found|] == found;
      AllWorkedOff(rows, db.Contents(), found, scheduler.senders);
    }

    /** ACTIVE tasks past their deadline. */
    method LateTaskPass()
      requires Valid() && NoneWaiting(db.Contents(), scheduler.senders)
      modifies this, scheduler, db
      ensures Valid() && ListsHold(old(db.Contents()), db.Contents(), scheduler.senders)
      ensures NoLateTask(db.Contents(), now)
    {
      ghost var rows := db.Contents();
      var found := db.ListTasks({TaskActive}, Some(now));
      ListsHoldAtFirst(rows, scheduler.senders);
      assert forall k :: 0 <= k < |found| ==> found[k] in found;
      for i := 0 to |found|
        invariant Valid() && LateTasksDone(rows, db.Contents(), found, i, now, scheduler.senders)
      {
        ghost var mid := db.Contents();
        LateTaskTurn(rows, mid, found, i, now, scheduler.senders);
        HandleLateTask(found[i]);
        LateTaskDone(rows, mid, db.Contents(), found, i, now, scheduler.senders);
      }
      NoLateTaskLeft(rows, db.Contents(), found, now, scheduler.senders);
    }

    /** Runs with an outcome, each failure handled as of the time its row was last updated. */
    method EndedRunPass(updated: RunId -> Time)
      requires Valid() && OutcomesTold(db.tasks) && NoneWaiting(db.Contents(), scheduler.senders)
      modifies this, scheduler, db
      ensures Valid() && ListsHold(old(db.Contents()), db.Contents(), scheduler.senders)
      ensures NoOutcomeWaiting(db.Contents())
    {
      var tasks := db.tasks;
      ghost var rows := db.Contents();
      var found := db.ListAllExecutions({RunProcessed, RunFailed}, None, None);
      ListsHoldAtFirst(rows, scheduler.senders);
      assert forall k :: 0 <= k < |found| ==> found[k] in found;
      for i := 0 to |found|
        invariant Valid() && OutcomesDone(rows, db.Contents(), found, i, scheduler.senders)
      {
        ghost var mid := db.Contents();
        OutcomeTurn(rows, mid, found, i, scheduler.senders);
        if tasks[found[i].task].runs[found[i].index].state == RunProcessed {
          HandleProcessed(found[i]);
        } else {
          HandleFailed(found[i], updated(found[i]));
        }
        OutcomeDone(rows, mid, db.Contents(), found, i, scheduler.senders);
      }
      NoOutcomeLeft(rows, db.Contents(), found, scheduler.senders);
    }

    /** Scheduled runs that are due. */
    method DuePass()
      requires Valid()
      modifies this, scheduler, db
      ensures Valid() && ListsHold(old(db.Contents()), db.Contents(), scheduler.senders)
      ensures NoneDue(db.Contents(), now, scheduler.senders)
    {
      ghost var rows := db.Contents();
      var found := db.ListAllExecutions({RunScheduled}, None, Some(now));
      ListsHoldAtFirst(rows, scheduler.senders);
      assert forall k :: 0 <= k < |found| ==> found[k] in found;
      for i := 0 to |found|
        invariant Valid() && DuesDone(rows, db.Contents(), found, i, now, scheduler.senders)
      {
        ghost var mid := db.Contents();
        DueTurn(rows, mid, found, i, now, scheduler.senders);
        HandleDue(found[i]);
        DueDone(rows, mid, db.Contents(), found, i, now, scheduler.senders);
      }
      NoneDueLeft(rows, db.Contents(), found, now, scheduler.senders);
    }

    /** Ongoing runs past their deadline. */
    method LateRunPass()
      requires Valid() && SystemInv(start)
      modifies this, scheduler, db
      ensures Valid() && ListsHold(old(db.Contents()), db.Contents(), scheduler.senders)
      ensures NoneStarted(old(db.Contents()), db.Contents()) && NoLateRun(db.Contents(), now)
    {
      ghost var rows := db.Contents();
      var found := db.ListAllExecutions({RunDefined, RunScheduled, RunEnqueued, RunAcquired, RunProcessing}, Some(now), None);
      ListsHoldAtFirst(rows, scheduler.senders);
      assert forall k :: 0 <= k < |found| ==> found[k] in found;
      for i := 0 to |found|
        invariant Valid() && LateRunsDone(rows, db.Contents(), found, i, now, scheduler.senders)
      {
        ghost var mid := db.Contents();
        LateRunTurn(rows, mid, found, i, now, scheduler.senders);
        ReachedLive(start, actions, found[i]);
        HandleLateRun(found[i]);
        LateRunDone(rows, mid, db.Contents(), found, i, now, scheduler.senders);
      }
      NoLateRunLeft(rows, db.Contents(), found, now, scheduler.senders);
    }
  }

  /** Every run that has ended tells its outcome. */
  predicate OutcomesTold(tasks: seq<Task>) {
    forall t, i :: 0 <= t < |tasks| && 0 <= i < |tasks[t].runs| && tasks[t].runs[i].state in {RunProcessed, RunFailed} ==>
                     tasks[t].runs[i].terminal == Some(tasks[t].runs[i].state)
  }

  lemma TasksTellOutcomes(tasks: seq<Task>)
    requires TasksInv(tasks)
    ensures OutcomesTold(tasks)
  {
    forall t | 0 <= t < |tasks| ensures forall i :: 0 <= i < |tasks[t].runs| ==> RunInv(tasks[t].runs[i]) {
      assert TaskInv(tasks[t]);
    }
  }

  lemma ReachedOutcomesTold(s: State, actions: seq<Action>)
    requires SystemInv(s)
    ensures OutcomesTold(After(s, actions).rows.tasks)
  {
    AfterInv(s, actions);
    TasksTellOutcomes(After(s, actions).rows.tasks);
  }

  lemma ReachedLive(s: State, actions: seq<Action>, r: RunId)
    requires SystemInv(s)
    ensures var rows := After(s, actions).rows;
            HasRun(rows, r) && LiveRun(RunAt(rows, r).state) ==> rows.tasks[r.task].state == TaskActive
  {
    AfterInv(s, actions);
    LiveIsActive(After(s, actions).rows, r);
  }

  lemma LiveIsActive(rows: Rows, r: RunId)
    requires TasksInv(rows.tasks)
    ensures HasRun(rows, r) && LiveRun(RunAt(rows, r).state) ==> rows.tasks[r.task].state == TaskActive
  {
    if HasRun(rows, r) {
      NotLastIsSuperseded(rows, r);
      assert TaskInv(rows.tasks[r.task]);
    }
  }

  /** performMaintenance: from any state the system can be in, a whole pass is a run of the system's sweep
      actions. A handler that fails is passed over, so a PENDING task is left PENDING, and exactly when it
      is immediate and its request cannot be enqueued. And nothing is left overdue: no late ACTIVE task, no
      outcome to handle, no due run but for lack of a sender, and no late run. */
  method PerformMaintenance(scheduler: TaskScheduler.Scheduler, now: Time, updated: RunId -> Time, ghost s: State)
    returns (ghost actions: seq<Action>)
    requires SystemInv(s) && s.rows == scheduler.db.Contents() && s.now == now && s.senders == scheduler.senders
    modifies scheduler, scheduler.db
    ensures Traced(s, actions, scheduler.db.Contents(), old(scheduler.sent), scheduler.sent)
    ensures OnlyStuckPending(s.rows, scheduler.db.Contents(), scheduler.senders)
    ensures NothingOverdue(scheduler.db.Contents(), now, scheduler.senders)
  {
    var pass := new Pass(scheduler, now, s);
    pass.TaskPass();
    ghost var rows := scheduler.db.Contents();
    OnlyStuckWait(s.rows, rows, scheduler.senders);
    pass.LateTaskPass();
    ghost var mid := scheduler.db.Contents();
    WaitingStays(rows, mid, scheduler.senders);
    ReachedOutcomesTold(s, pass.actions);
    pass.EndedRunPass(updated);
    PassedOn(rows, mid, scheduler.db.Contents(), now, scheduler.senders);
    mid := scheduler.db.Contents();
    pass.DuePass();
    PassedOn(rows, mid, scheduler.db.Contents(), now, scheduler.senders);
    OutcomesStay(mid, scheduler.db.Contents(), scheduler.senders);
    mid := scheduler.db.Contents();
    pass.LateRunPass();
    PassedOn(rows, mid, scheduler.db.Contents(), now, scheduler.senders);
    OutcomesStay(mid, scheduler.db.Contents(), scheduler.senders);
    DueStays(mid, scheduler.db.Contents(), now, scheduler.senders);
    StuckStay(s.rows, rows, scheduler.db.Contents(), scheduler.senders);
    actions := pass.actions;
  }

  lemma OnlyStuckWait(a: Rows, b: Rows, senders: set<TaskName>)
    requires OnlyStuckPending(a, b, senders) && ListsHold(a, b, senders)
    ensures NoneWaiting(b, senders)
  {
    forall t | 0 <= t < |b.tasks| && b.tasks[t].state == TaskPending ensures Stuck(b.tasks[t], senders) {
      assert TaskListsHold(a.tasks[t], b.tasks[t], senders);
    }
  }

  lemma PassedOn(a: Rows, b: Rows, c: Rows, now: Time, senders: set<TaskName>)
    requires ListsHold(a, b, senders) && ListsHold(b, c, senders) && NoneWaiting(b, senders) && NoLateTask(b, now)
    ensures ListsHold(a, c, senders) && NoneWaiting(c, senders) && NoLateTask(c, now)
  {
    ListsHoldFurther(a, b, c, senders);
    WaitingStays(b, c, senders);
    LateTasksStay(b, c, now, senders);
  }

  lemma StuckStay(a: Rows, b: Rows, c: Rows, senders: set<TaskName>)
    requires OnlyStuckPending(a, b, senders) && ListsHold(b, c, senders) && ListsHold(a, b, senders)
    ensures OnlyStuckPending(a, c, senders)
  {
    forall t | 0 <= t < |a.tasks| ensures c.tasks[t].state == TaskPending <==> Stuck(a.tasks[t], senders) {
      assert TaskListsHold(b.tasks[t], c.tasks[t], senders) && TaskListsHold(a.tasks[t], b.tasks[t], senders);
    }
  }
}
