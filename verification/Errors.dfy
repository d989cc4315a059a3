/** Error values as chains, and what the executor and the receiver read off them. */
module Errors {
  import opened Prelude

  datatype Kind = TaskExecutor | TaskExecution | TaskPreprocess | TaskPostprocess | NonRecoverable | Other

  /** An error and the error it wraps. */
  datatype Error = Error(kind: Kind, core: Option<Error>)

  /** Whether the chain holds an error of a kind. */
  predicate As(e: Error, kind: Kind) {
    e.kind == kind || (e.core.Some? && As(e.core.value, kind))
  }

  /** What is left of an error after unwrapping it so many times. */
  function Unwrapped(e: Error, times: nat): Option<Error> {
    if times == 0 then Some(e) else if e.core == None then None else Unwrapped(e.core.value, times - 1)
  }

  /** An error is of a kind exactly when some number of unwrappings leads to that kind. */
  lemma {:induction false} AsMeans(e: Error, kind: Kind)
    ensures As(e, kind) <==> exists n: nat :: IsAt(e, n, kind)
  {
    if e.kind == kind {
      assert IsAt(e, 0, kind);
    } else if e.core == None {
    } else {
      AsMeans(e.core.value, kind);
      if n: nat :| IsAt(e.core.value, n, kind) { assert IsAt(e, n + 1, kind); }
      if n: nat :| IsAt(e, n, kind) { assert IsAt(e.core.value, n - 1, kind); }
    }
  }

  predicate IsAt(e: Error, times: nat, kind: Kind) {
    Unwrapped(e, times).Some? && Unwrapped(e, times).value.kind == kind
  }

  /** What a worker tells the scheduler at the end of a job. */
  datatype Report = Completed | ExecutionFailed | ExecutorFailed

  /** No error is a success; an executor error anywhere in the chain is an engine failure; any other error
      a failed execution. */
  function Classify(error: Option<Error>): Report {
    match error
    case None => Completed
    case Some(e) => if As(e, TaskExecutor) then ExecutorFailed else ExecutionFailed
  }
}
