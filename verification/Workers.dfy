/** A worker process: the receiver that claims runs and the executor that processes them. Each method is
    proved to be the action of the system it implements. */
module Workers {
  import opened Prelude
  import opened Tables
  import opened Rows
  import opened TaskSpec
  import opened System
  import opened Errors
  import opened Store

  /** The pre-processing transaction failed. */
  const UNSTARTED: Error := Error.Error(TaskPreprocess, None)

  /** Seen from the whole system, the process took it from `s` to `t`. */
  predicate Follows(s: State, t: State, rows: Rows, jobs: map<RunId, Job>, before: seq<Msg>, after: seq<Msg>) {
    && rows == t.rows && jobs == t.jobs
    && before <= after && t.msgs == s.msgs + Elems(after[|before|..])
  }

  /** The runs of a task after the first `i` have been looked at by a recovery. */
  predicate AbandonedUpTo(before: Task, after: Task, w: Worker, i: nat) {
    && after == before.(runs := after.runs) && |after.runs| == |before.runs| && i <= |before.runs|
    && (forall k :: 0 <= k < i ==> after.runs[k] == AbandonedTask(before, w).runs[k])
    && forall k :: i <= k < |before.runs| ==> after.runs[k] == before.runs[k]
  }

  lemma AbandonedFurther(before: Task, mid: Task, after: Task, w: Worker, i: nat)
    requires AbandonedUpTo(before, mid, w, i) && i < |before.runs|
    requires after == if OwnedBy(before.runs[i], w) then PutRun(mid, i, FailedWith(mid.runs[i], false)) else mid
    ensures AbandonedUpTo(before, after, w, i + 1)
  {
  }

  function FailuresOf(task: Task, t: TaskId, w: Worker, i: nat): set<Msg>
    requires i <= |task.runs|
  {
    set k | 0 <= k < i && OwnedBy(task.runs[k], w) :: ExecFailed(RunId(t, k))
  }

  lemma OneMoreFailure(task: Task, t: TaskId, w: Worker, i: nat)
    requires i < |task.runs|
    ensures FailuresOf(task, t, w, i + 1)
         == FailuresOf(task, t, w, i) + if OwnedBy(task.runs[i], w) then {ExecFailed(RunId(t, i))} else {}
  {
  }

  function FailuresUpTo(rows: Rows, w: Worker, t: nat): set<Msg>
    requires t <= |rows.tasks|
  {
    set q, k | 0 <= q < t && 0 <= k < |rows.tasks[q].runs| && OwnedBy(rows.tasks[q].runs[k], w) :: ExecFailed(RunId(q, k))
  }

  lemma NextTaskFailures(rows: Rows, w: Worker, t: nat)
    requires t < |rows.tasks|
    ensures FailuresUpTo(rows, w, t + 1) == FailuresUpTo(rows, w, t) + FailuresOf(rows.tasks[t], t, w, |rows.tasks[t].runs|)
  {
  }

  class Process {
    const name: Worker
    const db: Database
    var sent: seq<Msg>
    // the worker pool, and the requests kept until their run is over
    var jobs: map<RunId, Job>
    var originals: set<RunId>

    /** A request is kept exactly as long as its job. */
    predicate Valid()
      reads this
    {
      originals == jobs.Keys
    }

    constructor (name: Worker, db: Database)
      ensures Valid() && this.name == name && this.db == db && sent == [] && jobs == map[]
    {
      this.name, this.db, sent, jobs, originals := name, db, [], map[], {};
    }

    method Send(m: Msg)
      modifies this`sent
      ensures sent == old(sent) + [m]
    {
      sent := sent + [m];
    }

    // ---- receiver ----------------------------------------------------------------------------

    /** One PENDING_INSTANCE request: claim the run, then hand it to the executor, which may refuse. */
    method ProcessOneIPCRequest(r: RunId, accepted: bool, ghost s: State)
      requires Valid() && s.rows == db.Contents() && s.jobs == jobs && PendingInstance(r) in s.msgs
      modifies this, db
      ensures Valid()
      ensures var claimed := Received(s, r, name);
              Follows(s, if Claim(s.rows, r, name).ok && !accepted then Refused(claimed, r) else claimed,
                      db.Contents(), jobs, old(sent), sent)
    {
      ghost var before := sent;
      var ok := db.UpdateTaskExecutionState(r, RunAcquired, Some(name), false);
      if !ok {
        Send(EngineFailed(r));
        assert sent[|before|..] == [EngineFailed(r)];
        return;
      }
      originals := originals + {r};
      assert sent[|before|..] == [];
      if accepted {
        jobs := jobs[r := Job(name, Submitted)];
      } else {
        RefusedByExecutor(r, Received(s, r, name));
      }
    }

    /** The executor did not take the claimed run: its request is dropped and the run marked failed. */
    method RefusedByExecutor(r: RunId, ghost s: State)
      requires originals == jobs.Keys + {r} && s.rows == db.Contents() && s.jobs == jobs[r := Job(name, Submitted)]
      modifies this, db
      ensures Valid()
      ensures Follows(s, Refused(s, r), db.Contents(), jobs, old(sent), sent)
    {
      ghost var before := sent;
      originals := originals - {r};
      jobs := Without(jobs, r);
      var marked := db.UpdateTaskExecutionState(r, RunFailed, None, false);
      Send(EngineFailed(r));
      assert sent[|before|..] == [EngineFailed(r)];
    }

    /** The executor's callback: classifies how the job ended, reports it and drops the kept request. */
    method OnTaskComplete(r: RunId, error: Option<Error>)
      modifies this
      ensures sent == old(sent) + [Reported(r, Classify(error))]
      ensures originals == old(originals) - {r} && jobs == Without(old(jobs), r)
    {
      if error == None {
        Send(ExecSucceeded(r));
      } else {
        var executor := HasKind(error.value, TaskExecutor);
        if executor {
          Send(EngineFailed(r));
        } else {
          Send(ExecFailed(r));
        }
      }
      originals := originals - {r};
      jobs := Without(jobs, r);
    }

    /** Walks an error chain for an error of a kind. */
    static method HasKind(error: Error, kind: Kind) returns (found: bool)
      ensures found <==> As(error, kind)
    {
      var current := error;
      while current.kind != kind && current.core.Some?
        invariant As(error, kind) <==> As(current, kind)
        decreases current
      {
        current := current.core.value;
      }
      found := current.kind == kind;
    }

    /** The disposition to record with an error: NON_RETRYABLE if the processor said so anywhere in it. */
    static method FailureDisposition(error: Option<Error>) returns (noRetry: bool)
      ensures noRetry == Disposition(error)
    {
      noRetry := false;
      if error.Some? {
        noRetry := HasKind(error.value, NonRecoverable);
      }
    }

    /** After a restart: every run the previous life of this worker had in hand is failed and reported. */
    method Initialize(ghost s: State)
      requires Valid() && jobs == map[] && s.rows == db.Contents() && s.jobs == jobs
      modifies this, db
      ensures Valid()
      ensures Follows(s, Next(s, Restart(name)), db.Contents(), jobs, old(sent), sent)
    {
      ghost var before, rows := sent, db.Contents();
      for t := 0 to |db.tasks|
        invariant Valid() && jobs == map[]
        invariant db.wf == rows.wf && db.steps == rows.steps && db.log == rows.log && |db.tasks| == |rows.tasks|
        invariant forall q :: 0 <= q < t ==> db.tasks[q] == AbandonedTask(rows.tasks[q], name)
        invariant forall q :: t <= q < |rows.tasks| ==> db.tasks[q] == rows.tasks[q]
        invariant before <= sent && Elems(sent[|before|..]) == FailuresUpTo(rows, name, t)
      {
        FailAbandonedRuns(t, before, FailuresUpTo(rows, name, t));
        NextTaskFailures(rows, name, t);
      }
      assert db.tasks == Recover(rows, name).rows.tasks;
      assert WithoutWorker(s.jobs, name) == map[];
    }

    method FailAbandonedRuns(t: TaskId, ghost before: seq<Msg>, ghost reported: set<Msg>)
      requires Valid() && jobs == map[] && t < |db.tasks|
      requires before <= sent && Elems(sent[|before|..]) == reported
      modifies this`sent, db
      ensures db.wf == old(db.wf) && db.steps == old(db.steps) && db.log == old(db.log)
      ensures db.tasks == old(db.tasks)[t := AbandonedTask(old(db.tasks)[t], name)]
      ensures before <= sent
      ensures Elems(sent[|before|..]) == reported + FailuresOf(old(db.tasks)[t], t, name, |old(db.tasks)[t].runs|)
    {
      ghost var task := db.tasks[t];
      for i := 0 to |db.tasks[t].runs|
        invariant Valid() && jobs == map[]
        invariant db.wf == old(db.wf) && db.steps == old(db.steps) && db.log == old(db.log)
        invariant |db.tasks| == |old(db.tasks)| && t < |db.tasks| && db.tasks == old(db.tasks)[t := db.tasks[t]]
        invariant AbandonedUpTo(task, db.tasks[t], name, i)
        invariant before <= sent && Elems(sent[|before|..]) == reported + FailuresOf(task, t, name, i)
      {
        ghost var mid := db.tasks[t];
        if OwnedBy(db.tasks[t].runs[i], name) {
          var ok := db.UpdateTaskExecutionState(RunId(t, i), RunFailed, None, false);
          SentLast(before, sent, ExecFailed(RunId(t, i)));
          Send(ExecFailed(RunId(t, i)));
        }
        AbandonedFurther(task, mid, db.tasks[t], name, i);
        OneMoreFailure(task, t, name, i);
      }
      assert db.tasks[t].runs == AbandonedTask(task, name).runs;
    }

    // ---- executor ----------------------------------------------------------------------------

    /** A worker thread takes up a submitted job: marks it PROCESSING and calls the processor if there is
        one. */
    method BeginExecutionInstance(r: RunId, served: bool, fault: bool, ghost s: State)
      requires Valid() && s.rows == db.Contents() && s.jobs == jobs && r in jobs && jobs[r].stage == Submitted
      modifies this, db
      ensures Valid()
      ensures Follows(s, BegunJob(s, r, served, fault), db.Contents(), jobs, old(sent), sent)
    {
      ghost var before := sent;
      var ok := false;
      if !fault {
        ok := db.UpdateTaskExecutionState(r, RunProcessing, None, false);
      }
      if !ok {
        OnTaskComplete(r, Some(UNSTARTED));
        assert sent[|before|..] == [ExecFailed(r)];
      } else {
        jobs := jobs[r := jobs[r].(stage := if served then Invoked else Unserved)];
        assert sent[|before|..] == [];
      }
    }

    /** The end of a job: the result is recorded, then reported; a result that could not be recorded is
        reported as a failed execution. */
    method EndExecutionInstance(r: RunId, ending: Ending, ghost s: State)
      requires Valid() && s.rows == db.Contents() && s.jobs == jobs && r in jobs && jobs[r].stage != Submitted
      modifies this, db
      ensures Valid()
      ensures Follows(s, Finished(s, r, ending), db.Contents(), jobs, old(sent), sent)
    {
      ghost var before := sent;
      var error := None;
      if jobs[r].stage == Unserved {
        error := Some(Error.Error(TaskExecutor, None));
      } else if ending.Failure? {
        error := Some(Error.Error(TaskExecution, Some(ending.error)));
      }
      var ok := RecordResult(r, error, ending);
      var told := if ok then error else Some(UNRECORDED);
      OnTaskComplete(r, told);
      assert sent[|before|..] == [Reported(r, Classify(told))];
    }

    /** The transaction that records the result of a job. */
    method RecordResult(r: RunId, error: Option<Error>, ending: Ending) returns (ok: bool)
      modifies db
      ensures ok == Recorded(old(db.Contents()), r, error, ending).ok
      ensures db.Contents() == Recorded(old(db.Contents()), r, error, ending).rows
    {
      if ending.Fault? {
        return false;
      }
      if error == None {
        ok := db.UpdateTaskExecutionState(r, RunProcessed, None, false);
      } else {
        var noRetry := FailureDisposition(error);
        ok := db.UpdateTaskExecutionState(r, RunFailed, None, noRetry);
      }
    }
  }
}
