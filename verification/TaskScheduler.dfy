/** The task scheduler: each handler is one transaction on the database. Each is proved to do what
    TaskSpec says of it. */
module TaskScheduler {
  import opened Prelude
  import opened Tables
  import opened Backoff
  import opened Rows
  import opened TaskSpec
  import opened Store
  import Worklist

  /** A run as it is first written, before an immediate one is enqueued. */
  function NewRun(task: Task): Run {
    match task.timing
    case Immediate => FirstRun(task).(state := RunDefined)
    case ScheduledAt(_) => FirstRun(task)
  }

  /** The runs of a task after the first `i` have been looked at by a cancellation. */
  predicate CancelledUpTo(before: Task, after: Task, i: nat) {
    && after == before.(runs := after.runs) && |after.runs| == |before.runs| && i <= |before.runs|
    && (forall k :: 0 <= k < i ==> after.runs[k] == CancelOngoing(before).runs[k])
    && forall k :: i <= k < |before.runs| ==> after.runs[k] == before.runs[k]
  }

  lemma AllCancelled(before: Task, after: Task)
    requires CancelledUpTo(before, after, |before.runs|)
    ensures after == CancelOngoing(before)
  {
    assert after.runs == CancelOngoing(before).runs;
  }

  /** The rows with a run finalized and its task in the state that follows. */
  function Marked(rows: Rows, r: RunId, state: TaskState): Rows
    requires HasRun(rows, r)
  {
    PutTask(rows, r.task, PutRun(rows.tasks[r.task], r.index, Finalized(RunAt(rows, r))).(state := state),
            [TaskEvent(r.task, state)])
  }

  /** The rows with a late run failed and finalized and its task timed out. */
  function LateRun(rows: Rows, r: RunId): Rows
    requires HasRun(rows, r)
  {
    PutTask(rows, r.task,
            PutRun(rows.tasks[r.task], r.index, Finalized(FailedWith(RunAt(rows, r), false))).(state := TaskTimedOut),
            [TaskEvent(r.task, TaskTimedOut)])
  }

  class Scheduler {
    const db: Database
    // the task names with a sender whose queue takes messages
    const senders: set<TaskName>
    var sent: seq<Msg>

    constructor (db: Database, senders: set<TaskName>)
      ensures this.db == db && this.senders == senders && sent == []
    {
      this.db, this.senders, sent := db, senders, [];
    }

    method Emit(m: Msg)
      modifies this
      ensures sent == old(sent) + [m]
    {
      sent := sent + [m];
    }

    method CancelOngoingExecInstancesOfTask(t: TaskId) returns (ok: bool)
      requires t < |db.tasks|
      modifies db
      ensures ok
      ensures db.Contents() == PutTask(old(db.Contents()), t, CancelOngoing(old(db.tasks)[t]), [])
    {
      ok := true;
      ghost var task := db.tasks[t];
      for i := 0 to |db.tasks[t].runs|
        invariant ok && db.wf == old(db.wf) && db.steps == old(db.steps) && db.log == old(db.log)
        invariant |db.tasks| == |old(db.tasks)| && t < |db.tasks| && db.tasks == old(db.tasks)[t := db.tasks[t]]
        invariant CancelledUpTo(task, db.tasks[t], i)
      {
        if LiveRun(db.tasks[t].runs[i].state) {
          var done := db.UpdateTaskExecutionState(RunId(t, i), RunCancelled, None, false);
          ok := ok && done;
        }
      }
      AllCancelled(task, db.tasks[t]);
    }

    // ---- new tasks and starts ----------------------------------------------------------------

    method ProcessNewPendingTask(t: TaskId) returns (ok: bool)
      modifies this, db
      ensures Did(Activate(old(db.Contents()), t, senders), ok, db.Contents(), old(sent), sent)
    {
      NothingSent(sent);
      if t >= |db.tasks| {
        return false;
      }
      if db.tasks[t].state != TaskPending {
        return true;
      }
      var before := db.Contents();
      var task := db.tasks[t];
      ok := db.UpdateTaskState(t, TaskActive);
      var r := db.DefineRun(t, NewRun(task));
      if task.timing.Immediate? {
        var queued := db.UpdateTaskExecutionState(r, RunEnqueued, None, false);
        ok := ok && queued && task.name in senders;
        if ok {
          Emit(PendingInstance(r));
          assert sent[|old(sent)|..] == [PendingInstance(r)];
        }
      }
      db.EndTransaction(ok, before);
      assert ok ==> db.tasks[t].runs == before.tasks[t].runs + [FirstRun(before.tasks[t])];
    }

    method ProcessTaskExecutionStarting(r: RunId) returns (ok: bool)
      modifies this, db
      ensures Did(StartRun(old(db.Contents()), r, senders), ok, db.Contents(), old(sent), sent)
    {
      NothingSent(sent);
      if r.task >= |db.tasks| || r.index >= |db.tasks[r.task].runs| {
        return false;
      }
      var state := db.tasks[r.task].runs[r.index].state;
      var started := Worklist.IsStateAtOrPast(Worklist.RUN_TABLE, state, RunEnqueued);
      Worklist.GuardMeanings(state);
      if started {
        return true;
      }
      var before := db.Contents();
      ok := db.UpdateTaskExecutionState(r, RunEnqueued, None, false);
      ok := ok && db.tasks[r.task].name in senders;
      if ok {
        Emit(PendingInstance(r));
        assert sent[|old(sent)|..] == [PendingInstance(r)];
      }
      db.EndTransaction(ok, before);
    }

    // ---- outcomes ----------------------------------------------------------------------------

    method IsFinalized(state: RunState) returns (handled: bool)
      ensures handled <==> state == RunFinalized
    {
      handled := Worklist.IsStateAtOrPast(Worklist.RUN_TABLE, state, RunFinalized);
      Worklist.GuardMeanings(state);
    }

    /** Finalizes a run and gives its task the state that follows, inside the caller's transaction. */
    method FinalizeAndMark(r: RunId, state: TaskState) returns (ok: bool)
      requires HasRun(db.Contents(), r) && state in {TaskComplete, TaskFailed}
      modifies db
      ensures ok <==> && CanFinalize(RunAt(old(db.Contents()), r).state)
                      && state in NextTaskStates(old(db.tasks)[r.task].state)
      ensures ok ==> db.Contents() == Marked(old(db.Contents()), r, state)
    {
      ok := db.UpdateTaskExecutionState(r, RunFinalized, None, false);
      if ok {
        ok := db.UpdateTaskState(r.task, state);
      }
    }

    method ProcessTaskExecutionComplete(r: RunId) returns (ok: bool)
      modifies this, db
      ensures Did(CompleteRun(old(db.Contents()), r), ok, db.Contents(), old(sent), sent)
    {
      NothingSent(sent);
      if r.task >= |db.tasks| || r.index >= |db.tasks[r.task].runs| {
        return false;
      }
      var handled := IsFinalized(db.tasks[r.task].runs[r.index].state);
      if handled {
        return true;
      }
      var before := db.Contents();
      ok := FinalizeAndMark(r, TaskComplete);
      db.EndTransaction(ok, before);
    }

    /** How many runs of the task ended as failures. */
    method CountFailedRuns(t: TaskId) returns (count: nat)
      requires t < |db.tasks|
      ensures count == CountFailed(db.tasks[t].runs)
    {
      count := 0;
      var runs := db.tasks[t].runs;
      for i := 0 to |runs|
        invariant count == CountFailed(runs[..i])
      {
        assert runs[..i + 1][..i] == runs[..i];
        if runs[i].terminal == Some(RunFailed) {
          count := count + 1;
        }
      }
      assert runs[..|runs|] == runs;
    }

    /** Finalizes a failed run and, while its task is ACTIVE, retries or fails the task, inside the
        caller's transaction. */
    method FinalizeAndRetry(r: RunId, at: Time) returns (ok: bool)
      requires HasRun(db.Contents(), r) && RunAt(db.Contents(), r).state != RunFinalized
      modifies db
      ensures ok == FailRun(old(db.Contents()), r, at).ok
      ensures ok ==> db.Contents() == FailRun(old(db.Contents()), r, at).rows
    {
      var run := db.tasks[r.task].runs[r.index];
      ok := db.UpdateTaskExecutionState(r, RunFinalized, None, false);
      if ok && db.tasks[r.task].state == TaskActive {
        var failures := CountFailedRuns(r.task);
        var task := db.tasks[r.task];
        var delay := RetryDelay(run, task.retry, failures);
        if delay <= 0 {
          ok := db.UpdateTaskState(r.task, TaskFailed);
        } else {
          var retry := db.DefineRun(r.task, RetryRun(task, r.index, at + delay));
        }
      }
    }

    method ProcessTaskExecutionFailed(r: RunId, at: Time) returns (ok: bool)
      modifies this, db
      ensures Did(FailRun(old(db.Contents()), r, at), ok, db.Contents(), old(sent), sent)
    {
      NothingSent(sent);
      if r.task >= |db.tasks| || r.index >= |db.tasks[r.task].runs| {
        return false;
      }
      var handled := IsFinalized(db.tasks[r.task].runs[r.index].state);
      if handled {
        return true;
      }
      var before := db.Contents();
      ok := FinalizeAndRetry(r, at);
      db.EndTransaction(ok, before);
    }

    method ProcessTaskExecutionEngineFailed(r: RunId) returns (ok: bool)
      modifies this, db
      ensures Did(EngineFailRun(old(db.Contents()), r), ok, db.Contents(), old(sent), sent)
    {
      NothingSent(sent);
      if r.task >= |db.tasks| || r.index >= |db.tasks[r.task].runs| {
        return false;
      }
      var handled := IsFinalized(db.tasks[r.task].runs[r.index].state);
      if handled {
        return true;
      }
      var before := db.Contents();
      ok := FinalizeAndMark(r, TaskFailed);
      if ok {
        db.RecordTaskEngineFailure(r.task);
      }
      db.EndTransaction(ok, before);
    }

    method HasEnded(state: RunState) returns (ended: bool)
      ensures ended <==> !LiveRun(state)
    {
      Worklist.GuardMeanings(state);
      var processed := Worklist.IsStateAtOrPast(Worklist.RUN_TABLE, state, RunProcessed);
      var failed := Worklist.IsStateAtOrPast(Worklist.RUN_TABLE, state, RunFailed);
      var cancelled := Worklist.IsStateAtOrPast(Worklist.RUN_TABLE, state, RunCancelled);
      ended := processed || failed || cancelled;
    }

    /** Fails and finalizes a late run and times its task out, inside the caller's transaction. */
    method FailLateRun(r: RunId) returns (ok: bool)
      requires HasRun(db.Contents(), r)
      modifies db
      ensures ok <==> && RunFailed in NextRunStates(RunAt(old(db.Contents()), r).state)
                      && TaskTimedOut in NextTaskStates(old(db.tasks)[r.task].state)
      ensures ok ==> db.Contents() == LateRun(old(db.Contents()), r)
    {
      ok := db.UpdateTaskExecutionState(r, RunFailed, None, false);
      if ok {
        ok := db.UpdateTaskExecutionState(r, RunFinalized, None, false);
      }
      if ok {
        ok := db.UpdateTaskState(r.task, TaskTimedOut);
      }
      assert ok ==> db.tasks[r.task].runs == LateRun(old(db.Contents()), r).tasks[r.task].runs;
    }

    method ProcessTaskExecutionTimedOut(r: RunId) returns (ok: bool)
      modifies this, db
      ensures Did(TimeOutRun(old(db.Contents()), r), ok, db.Contents(), old(sent), sent)
    {
      NothingSent(sent);
      if r.task >= |db.tasks| || r.index >= |db.tasks[r.task].runs| {
        return false;
      }
      var ended := HasEnded(db.tasks[r.task].runs[r.index].state);
      if ended {
        return true;
      }
      var before := db.Contents();
      ok := FailLateRun(r);
      if ok {
        ok := CancelOngoingExecInstancesOfTask(r.task);
      }
      db.EndTransaction(ok, before);
    }

    // ---- cancellation, task timeout ----------------------------------------------------------

    method ProcessCancelTask(t: TaskId) returns (ok: bool)
      modifies this, db
      ensures Did(StopTask(old(db.Contents()), t), ok, db.Contents(), old(sent), sent)
    {
      NothingSent(sent);
      if t >= |db.tasks| {
        return false;
      }
      if db.tasks[t].state !in {TaskPending, TaskActive, TaskCancelling} {
        return true;
      }
      var before := db.Contents();
      ok := true;
      if db.tasks[t].state != TaskCancelling {
        ok := db.UpdateTaskState(t, TaskCancelling);
      }
      if ok {
        ok := db.UpdateTaskState(t, TaskCancelled);
      }
      if ok {
        ok := CancelOngoingExecInstancesOfTask(t);
      }
      db.EndTransaction(ok, before);
    }

    method ProcessTaskTimeout(t: TaskId) returns (ok: bool)
      modifies this, db
      ensures Did(TimeOutTask(old(db.Contents()), t), ok, db.Contents(), old(sent), sent)
    {
      NothingSent(sent);
      if t >= |db.tasks| {
        return false;
      }
      if db.tasks[t].state != TaskActive {
        return true;
      }
      var before := db.Contents();
      ok := db.UpdateTaskState(t, TaskTimedOut);
      if ok {
        ok := CancelOngoingExecInstancesOfTask(t);
      }
      db.EndTransaction(ok, before);
    }
  }
}
