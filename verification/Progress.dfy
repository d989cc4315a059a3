/** Liveness without the fast path: with every message lost except the sweep's own pokes, a RUNNING
    workflow whose tasks succeed reaches COMPLETE in a number of rounds linear in its steps. */
module Progress {
  import opened Prelude
  import opened Tables
  import opened StepGraph
  import opened Rows
  import opened WorkflowSpec
  import opened WorkflowInvariants
  import opened TaskSpec
  import opened TaskInvariants
  import opened AuditInvariants
  import opened LinkInvariants
  import opened System
  import opened SystemInvariants
  import opened Recovery
  import opened Guarantees
  import SpecValidation

  /** How far a step is from COMPLETE. */
  function Rank(state: StepState): nat {
    match state
    case StepDefined => 3
    case StepPending => 2
    case StepRunning => 1
    case _ => 0
  }

  function RankAt(rows: Rows, n: Name): nat {
    if n in rows.steps then Rank(rows.steps[n].state) else 0
  }

  /** The distance of the whole workflow, over a list of its steps. */
  function Distance(rows: Rows, listing: seq<Name>): nat {
    if listing == [] then 0
    else Distance(rows, listing[..|listing| - 1]) + RankAt(rows, listing[|listing| - 1])
  }

  /** On its way: no step cancelled or failed, no live task on a step waiting for its start. */
  ghost predicate OnItsWay(rows: Rows) {
    && RowsInv(rows)
    && rows.wf.state in {WfPending, WfRunning, WfComplete}
    && (forall n :: n in rows.steps ==> rows.steps[n].state != StepCancelled)
    && (forall n :: n in rows.steps && rows.steps[n].state in {StepDefined, StepPending} ==>
                     AllTerminal(rows, rows.steps[n].attempts))
  }

  /** Every dispatched task has succeeded. */
  predicate TasksSucceeded(rows: Rows) {
    forall n :: n in rows.steps && rows.steps[n].state == StepRunning ==> CurrentState(rows, n) == TaskComplete
  }

  // ---- something is always left to do --------------------------------------------------------

  /** A workflow on its way and not yet COMPLETE has a startable, a PENDING or a RUNNING step: here the absence of
      cycles is needed. */
  lemma SomethingToDo(rows: Rows) returns (n: Name)
    requires OnItsWay(rows) && rows.wf.state != WfComplete
    ensures n in rows.steps && (Startable(rows.steps, n) || rows.steps[n].state in {StepPending, StepRunning})
  {
    OpenStates(rows);
    if exists m :: m in rows.steps && rows.steps[m].state in {StepPending, StepRunning} {
      n :| n in rows.steps && rows.steps[n].state in {StepPending, StepRunning};
    } else if exists m :: Startable(rows.steps, m) {
      n :| Startable(rows.steps, n);
    } else {
      NothingStartableIsCyclic(rows);
      assert false;
    }
  }

  lemma OpenStates(rows: Rows)
    requires OnItsWay(rows)
    ensures forall n :: n in rows.steps ==> rows.steps[n].state in {StepDefined, StepPending, StepRunning, StepComplete}
  {
    forall n | n in rows.steps ensures rows.steps[n].state in {StepDefined, StepPending, StepRunning, StepComplete} {
      assert rows.steps[n].state != StepCancelled;
      assert Has(rows.steps, rows.steps[n].state);
    }
  }

  lemma NothingStartableIsCyclic(rows: Rows)
    requires FlowInv(rows) && rows.wf.state in {WfPending, WfRunning}
    requires forall n :: n in rows.steps ==> rows.steps[n].state in {StepDefined, StepComplete} && !Startable(rows.steps, n)
    ensures Cyclic(GraphOf(rows.steps))
  {
    var g, stuck := GraphOf(rows.steps), WithState(rows.steps, {StepDefined});
    forall n | n in stuck ensures HasParentIn(g, n, stuck) {
      var p :| p in rows.steps[n].parents && p in rows.steps && rows.steps[p].state != StepComplete;
      assert p in g[n] && p in stuck;
    }
    var n :| n in rows.steps && rows.steps[n].state != StepComplete;
    assert n in stuck;
    StuckIsCyclic(g, stuck);
  }

  // ---- one poke ------------------------------------------------------------------------------

  /** The pokes of a sweep over a workflow on its way. */
  predicate SweepPoke(rows: Rows, p: Msg) {
    p.ProcessWorkflow? || p.ScheduleStep? || (p.ExecUpdate? && p.outcome == StepComplete && Backed(rows, p))
  }

  /** Closer to COMPLETE, or as close as before. */
  ghost predicate Closer(a: Rows, b: Rows) {
    && RowsAdvance(a, b)
    && b.wf.deadline == a.wf.deadline
    && forall n :: RankAt(b, n) <= RankAt(a, n)
  }

  lemma CloserTransitive(a: Rows, b: Rows, c: Rows)
    requires Closer(a, b) && Closer(b, c)
    ensures Closer(a, c)
  {
    forall t | 0 <= t < |a.tasks| ensures TaskEvolves(a.tasks[t], c.tasks[t]) {
      forall i | 0 <= i < |a.tasks[t].runs| ensures RunEvolves(a.tasks[t].runs[i], c.tasks[t].runs[i]) {
        assert RunEvolves(b.tasks[t].runs[i], c.tasks[t].runs[i]);
      }
    }
  }

  /** The states a poke may leave a step in. */
  ghost predicate GentleMove(a: Rows, b: Rows) {
    && b.wf.deadline == a.wf.deadline && b.wf.state in {WfPending, WfRunning, WfComplete}
    && b.steps.Keys == a.steps.Keys
    && forall n :: n in a.steps ==>
         || (b.steps[n].state == a.steps[n].state && b.steps[n].attempts == a.steps[n].attempts)
         || (a.steps[n].state == StepRunning && b.steps[n].state == StepComplete)
         || (a.steps[n].state == StepPending && b.steps[n].state == StepRunning)
         || (a.steps[n].state == StepDefined && b.steps[n].state == StepPending && b.steps[n].attempts == a.steps[n].attempts)
  }

  predicate OpenOnly(rows: Rows) {
    forall n :: n in rows.steps ==> rows.steps[n].state in {StepDefined, StepPending, StepRunning, StepComplete}
  }

  lemma ProcessIsGentle(rows: Rows)
    requires rows.wf.state in {WfPending, WfRunning, WfComplete} && OpenOnly(rows)
    ensures GentleMove(rows, Process(rows).rows) && Process(rows).rows.tasks == rows.tasks
  {
  }

  lemma ScheduleIsGentle(rows: Rows, n: Name, now: Time)
    requires rows.wf.state in {WfPending, WfRunning, WfComplete} && OpenOnly(rows) && now < rows.wf.deadline
    ensures GentleMove(rows, WorkflowSpec.Schedule(rows, n, now).rows)
    ensures rows.tasks <= WorkflowSpec.Schedule(rows, n, now).rows.tasks
  {
  }

  lemma OutcomeIsGentle(rows: Rows, n: Name)
    requires rows.wf.state in {WfRunning, WfComplete} && OpenOnly(rows)
    ensures GentleMove(rows, ApplyOutcome(rows, n, StepComplete).rows)
    ensures ApplyOutcome(rows, n, StepComplete).rows.tasks == rows.tasks
  {
  }

  lemma PokeIsGentle(rows: Rows, p: Msg, now: Time)
    requires rows.wf.state in {WfPending, WfRunning, WfComplete} && now < rows.wf.deadline && OpenOnly(rows)
    requires p.ProcessWorkflow? || p.ScheduleStep? || (p.ExecUpdate? && p.outcome == StepComplete && rows.wf.state != WfPending)
    ensures GentleMove(rows, Handle(rows, p, now).rows)
    ensures rows.tasks <= Handle(rows, p, now).rows.tasks
  {
    match p
    case ProcessWorkflow => ProcessIsGentle(rows);
    case ScheduleStep(n) => ScheduleIsGentle(rows, n, now);
    case ExecUpdate(n, outcome) => OutcomeIsGentle(rows, n);
  }

  /** A step still waiting for its start keeps its attempts, all of them ended. */
  lemma GentleKeepsWaiting(a: Rows, b: Rows, n: Name)
    requires GentleMove(a, b) && n in b.steps && b.steps[n].state in {StepDefined, StepPending}
    requires AllTerminal(a, a.steps[n].attempts) && StepLinks(a, n) && a.tasks <= b.tasks
    ensures AllTerminal(b, b.steps[n].attempts)
  {
  }

  lemma GentleKeeps(a: Rows, b: Rows)
    requires OnItsWay(a) && GentleMove(a, b) && RowsInv(b) && a.tasks <= b.tasks
    ensures OnItsWay(b)
  {
    forall n | n in b.steps ensures b.steps[n].state != StepCancelled { assert a.steps[n].state != StepCancelled; }
    forall n | n in b.steps && b.steps[n].state in {StepDefined, StepPending}
      ensures AllTerminal(b, b.steps[n].attempts)
    {
      assert StepLinks(a, n);
      GentleKeepsWaiting(a, b, n);
    }
  }

  lemma GentleIsCloser(a: Rows, b: Rows)
    requires GentleMove(a, b) && RowsAdvance(a, b)
    ensures Closer(a, b)
  {
  }

  lemma PokeKeeps(rows: Rows, p: Msg, now: Time)
    requires OnItsWay(rows) && SweepPoke(rows, p) && now < rows.wf.deadline
    ensures OnItsWay(Handle(rows, p, now).rows) && Closer(rows, Handle(rows, p, now).rows)
  {
    var b := Handle(rows, p, now).rows;
    OpenStates(rows);
    PokeIsGentle(rows, p, now);
    HandleIsTx(rows, p, now);
    KeepsAdvance(rows, b);
    GentleKeeps(rows, b);
    GentleIsCloser(rows, b);
  }

  /** The outcome poke completes its RUNNING step. */
  lemma OutcomeActs(rows: Rows, n: Name, now: Time)
    requires n in rows.steps && rows.wf.state in {WfRunning, WfComplete} && RankAt(rows, n) <= 1
    requires rows.steps[n].state in {StepDefined, StepPending, StepRunning, StepComplete}
    ensures RankAt(Handle(rows, ExecUpdate(n, StepComplete), now).rows, n) == 0
  {
  }

  /** The schedule poke dispatches its PENDING step. */
  lemma ScheduleActs(rows: Rows, n: Name, now: Time)
    requires n in rows.steps && now < rows.wf.deadline && Agrees(rows) && rows.wf.state in {WfPending, WfRunning, WfComplete}
    requires RankAt(rows, n) <= 2 && (rows.steps[n].state == StepPending ==> AllTerminal(rows, rows.steps[n].attempts))
    ensures RankAt(Handle(rows, ScheduleStep(n), now).rows, n) <= 1
  {
    if rows.steps[n].state == StepPending { assert LiveAttempts(rows, n) == {}; }
  }

  /** The process poke marks a startable step PENDING. */
  lemma ProcessActs(rows: Rows, n: Name, now: Time)
    requires n in rows.steps && Agrees(rows) && rows.wf.state in {WfPending, WfRunning, WfComplete}
    requires forall p :: p in rows.steps[n].parents && p in rows.steps ==> rows.steps[p].state == StepComplete
    ensures RankAt(Handle(rows, ProcessWorkflow, now).rows, n) <= 2
  {
    if rows.steps[n].state == StepDefined { assert n in Ready(rows.steps); }
  }

  // ---- one round -----------------------------------------------------------------------------

  ghost function HandleAll(rows: Rows, pokes: seq<Msg>, now: Time): Rows
    requires forall i :: 0 <= i < |pokes| ==> ForWorkflow(pokes[i])
  {
    if pokes == [] then rows
    else Handle(HandleAll(rows, pokes[..|pokes| - 1], now), pokes[|pokes| - 1], now).rows
  }

  predicate AllSweepPokes(rows: Rows, pokes: seq<Msg>) {
    forall i :: 0 <= i < |pokes| ==> SweepPoke(rows, pokes[i])
  }

  /** From a workflow on its way to one on its way and closer. */
  ghost predicate Closing(a: Rows, b: Rows) {
    !OnItsWay(a) || (OnItsWay(b) && Closer(a, b))
  }

  /** Handling pokes brings the workflow closer and closer. */
  lemma {:induction false} HandleAllKeeps(rows: Rows, pokes: seq<Msg>, now: Time)
    requires AllSweepPokes(rows, pokes) && now < rows.wf.deadline
    ensures Closing(rows, HandleAll(rows, pokes, now))
  {
    if pokes == [] {
      SameRows(rows);
    } else {
      var front, last := pokes[..|pokes| - 1], pokes[|pokes| - 1];
      HandleAllKeeps(rows, front, now);
      PokeStep(rows, HandleAll(rows, front, now), last, now);
    }
  }

  lemma PokeStep(rows: Rows, mid: Rows, p: Msg, now: Time)
    requires Closing(rows, mid) && SweepPoke(rows, p) && now < rows.wf.deadline
    ensures Closing(rows, Handle(mid, p, now).rows)
    ensures OnItsWay(rows) ==> forall n :: RankAt(Handle(mid, p, now).rows, n) <= RankAt(mid, n)
  {
    if OnItsWay(rows) {
      StillBacked(rows, mid, p);
      PokeKeeps(mid, p, now);
      CloserTransitive(rows, mid, Handle(mid, p, now).rows);
    }
  }

  lemma {:induction false} LaterIsCloser(rows: Rows, pokes: seq<Msg>, i: nat, now: Time, n: Name)
    requires AllSweepPokes(rows, pokes) && now < rows.wf.deadline && i <= |pokes|
    ensures OnItsWay(rows) ==> RankAt(HandleAll(rows, pokes, now), n) <= RankAt(HandleAll(rows, pokes[..i], now), n)
    decreases |pokes|
  {
    if i == |pokes| {
      assert pokes[..i] == pokes;
    } else {
      var front := pokes[..|pokes| - 1];
      LaterIsCloser(rows, front, i, now, n);
      assert front[..i] == pokes[..i];
      HandleAllKeeps(rows, front, now);
      PokeStep(rows, HandleAll(rows, front, now), pokes[|pokes| - 1], now);
    }
  }

  /** Whatever was handled before and after it, a poke about step `n` takes the step forward. */
  lemma PokeAmongOthers(rows: Rows, pokes: seq<Msg>, i: nat, now: Time, n: Name)
    requires OnItsWay(rows) && AllSweepPokes(rows, pokes) && now < rows.wf.deadline && n in rows.steps
    requires i < |pokes| && pokes[i] in {ExecUpdate(n, StepComplete), ScheduleStep(n), ProcessWorkflow}
    ensures OnePokeActs(rows, HandleAll(rows, pokes, now), pokes[i], n)
  {
    PokeAfterOthers(rows, pokes[..i], pokes[i], now, n);
    assert pokes[..i + 1][..i] == pokes[..i];
    LaterIsCloser(rows, pokes, i + 1, now, n);
  }

  lemma PokeAfterOthers(rows: Rows, pokes: seq<Msg>, p: Msg, now: Time, n: Name)
    requires OnItsWay(rows) && AllSweepPokes(rows, pokes) && now < rows.wf.deadline && n in rows.steps
    requires SweepPoke(rows, p) && p in {ExecUpdate(n, StepComplete), ScheduleStep(n), ProcessWorkflow}
    ensures OnePokeActs(rows, Handle(HandleAll(rows, pokes, now), p, now).rows, p, n)
  {
    HandleAllKeeps(rows, pokes, now);
    PokeActs(rows, HandleAll(rows, pokes, now), p, now, n);
  }

  /** What a poke about step `n` has achieved by state `b`. */
  predicate OnePokeActs(rows: Rows, b: Rows, p: Msg, n: Name)
    requires n in rows.steps
  {
    && (RankAt(rows, n) == 1 && p.ExecUpdate? ==> RankAt(b, n) == 0)
    && (RankAt(rows, n) == 2 && p.ScheduleStep? ==> RankAt(b, n) <= 1)
    && (Startable(rows.steps, n) && p.ProcessWorkflow? ==> RankAt(b, n) <= 2)
  }

  lemma PokeActs(rows: Rows, mid: Rows, p: Msg, now: Time, n: Name)
    requires OnItsWay(mid) && Closer(rows, mid) && now < rows.wf.deadline && n in rows.steps
    requires p == ExecUpdate(n, StepComplete) || p == ScheduleStep(n) || p == ProcessWorkflow
    ensures OnePokeActs(rows, Handle(mid, p, now).rows, p, n)
  {
    OpenStates(mid);
    assert RankAt(mid, n) <= RankAt(rows, n);
    if p.ExecUpdate? {
      if RankAt(rows, n) == 1 { OutcomeActs(mid, n, now); }
    } else if p.ScheduleStep? {
      if RankAt(rows, n) == 2 { ScheduleActs(mid, n, now); }
    } else if Startable(rows.steps, n) {
      ProcessActs(mid, n, now);
    }
  }

  /** With every dispatched task succeeded, a sweep before the deadline pokes only: no cancel request. */
  lemma SweepPokesOnly(rows: Rows, now: Time)
    requires OnItsWay(rows) && TasksSucceeded(rows) && now < rows.wf.deadline
    ensures forall p :: p in Reconcile(rows, now).sends ==> SweepPoke(rows, p)
  {
    OpenStates(rows);
    NoCancelRequests(rows);
    SweptOutcomesSucceed(rows);
  }

  lemma NoCancelRequests(rows: Rows)
    requires OpenOnly(rows)
    ensures SweptCancels(rows) == {}
  {
  }

  lemma SweptOutcomesSucceed(rows: Rows)
    requires RowsInv(rows) && TasksSucceeded(rows) && OpenOnly(rows)
    ensures forall p :: p in SweptOutcomes(rows) ==> SweepPoke(rows, p)
  {
    SweptOutcomesBacked(rows);
    forall p | p in SweptOutcomes(rows) ensures SweepPoke(rows, p) {
      LostOutcomeIsSuccess(rows, p.step);
    }
  }

  lemma LostOutcomeIsSuccess(rows: Rows, n: Name)
    requires LinkInv(rows) && TasksSucceeded(rows)
    ensures n in rows.steps && rows.steps[n].state == StepRunning && LostOutcome(rows, n).Some? ==>
              LostOutcome(rows, n) == Some(StepComplete)
  {
    if n in rows.steps { assert StepLinks(rows, n); }
  }

  /** The sweep pokes a RUNNING step with its success, a PENDING step to be scheduled, and the workflow
      when a step is startable. */
  lemma SweepPokesAll(rows: Rows, now: Time, n: Name)
    requires OnItsWay(rows) && TasksSucceeded(rows) && now < rows.wf.deadline && n in rows.steps
    ensures rows.steps[n].state == StepRunning ==> ExecUpdate(n, StepComplete) in Reconcile(rows, now).sends
    ensures rows.steps[n].state == StepPending ==> ScheduleStep(n) in Reconcile(rows, now).sends
    ensures rows.steps[n].state == StepDefined ==> ProcessWorkflow in Reconcile(rows, now).sends
  {
    assert StepLinks(rows, n);
    if rows.steps[n].state == StepRunning {
      AllAttemptsEnded(rows, n);
      assert ExecUpdate(n, StepComplete) in SweptOutcomes(rows);
    } else if rows.steps[n].state == StepDefined {
      assert n in WithState(rows.steps, {StepDefined});
    }
  }

  /** The pokes of one sweep, each handled at least once, in some order. */
  ghost predicate PokesOf(rows: Rows, now: Time, pokes: seq<Msg>) {
    Elems(pokes) == Reconcile(rows, now).sends
  }

  /** One sweep and the handling of its own pokes take at least one step further. */
  lemma RoundAdvances(rows: Rows, pokes: seq<Msg>, now: Time) returns (n: Name)
    requires OnItsWay(rows) && TasksSucceeded(rows) && now < rows.wf.deadline && PokesOf(rows, now, pokes)
    requires rows.wf.state != WfComplete
    ensures AllSweepPokes(rows, pokes) && n in rows.steps
    ensures RankAt(HandleAll(rows, pokes, now), n) < RankAt(rows, n)
  {
    RoundPokesOnly(rows, pokes, now);
    n := SomethingToDo(rows);
    SweepPokesAll(rows, now, n);
    var p := if rows.steps[n].state == StepRunning then ExecUpdate(n, StepComplete)
             else if rows.steps[n].state == StepPending then ScheduleStep(n) else ProcessWorkflow;
    assert p in Elems(pokes);
    var i :| 0 <= i < |pokes| && pokes[i] == p;
    PokeAmongOthers(rows, pokes, i, now, n);
  }

  lemma RoundPokesOnly(rows: Rows, pokes: seq<Msg>, now: Time)
    requires OnItsWay(rows) && TasksSucceeded(rows) && now < rows.wf.deadline && PokesOf(rows, now, pokes)
    ensures AllSweepPokes(rows, pokes)
  {
    SweepPokesOnly(rows, now);
    forall i | 0 <= i < |pokes| ensures SweepPoke(rows, pokes[i]) { assert pokes[i] in Elems(pokes); }
  }

  // ---- the distance falls --------------------------------------------------------------------

  lemma {:induction false} DistanceFalls(a: Rows, b: Rows, listing: seq<Name>)
    requires forall n :: RankAt(b, n) <= RankAt(a, n)
    ensures Distance(b, listing) <= Distance(a, listing) <= 3 * |listing|
    ensures (exists n :: n in listing && RankAt(b, n) < RankAt(a, n)) ==> Distance(b, listing) < Distance(a, listing)
  {
    if listing == [] {
    } else {
      DistanceFalls(a, b, listing[..|listing| - 1]);
    }
  }

  lemma {:induction false} NoDistanceLeft(rows: Rows, listing: seq<Name>, n: Name)
    requires Distance(rows, listing) == 0 && n in listing
    ensures RankAt(rows, n) == 0
  {
    if n in listing[..|listing| - 1] { NoDistanceLeft(rows, listing[..|listing| - 1], n); }
  }

  /** Once no distance is left the workflow is COMPLETE, and so it is never left before. */
  lemma ArrivedIsComplete(rows: Rows, listing: seq<Name>)
    requires OnItsWay(rows) && Elems(listing) == rows.steps.Keys && Distance(rows, listing) == 0
    ensures rows.wf.state == WfComplete
  {
    OpenStates(rows);
    forall n | n in rows.steps ensures rows.steps[n].state == StepComplete {
      assert n in Elems(listing);
      NoDistanceLeft(rows, listing, n);
    }
  }

  // ---- repeated rounds -----------------------------------------------------------------------

  /** Between two rounds the task engine runs every dispatched task to its success; workflow and steps
      stay as they are. */
  ghost predicate TasksFinish(a: Rows, b: Rows) {
    && RowsInv(b) && TasksSucceeded(b)
    && b.wf == a.wf && b.steps == a.steps
    && forall t: TaskId :: TerminalTask(TaskStateAt(a.tasks, t)) ==> TaskStateAt(b.tasks, t) == TaskStateAt(a.tasks, t)
  }

  /** One sweep, its pokes in some order, then the tasks. Every other message is lost. */
  ghost predicate Round(a: Rows, b: Rows, now: Time) {
    exists pokes {:trigger PokesOf(a, now, pokes)} ::
      PokesOf(a, now, pokes) && AllSweepPokes(a, pokes) && TasksFinish(HandleAll(a, pokes, now), b)
  }

  lemma TasksFinishKeeps(a: Rows, b: Rows)
    requires OnItsWay(a) && TasksFinish(a, b)
    ensures OnItsWay(b) && forall n :: RankAt(b, n) == RankAt(a, n)
  {
    forall n | n in b.steps && b.steps[n].state in {StepDefined, StepPending}
      ensures AllTerminal(b, b.steps[n].attempts)
    {
      assert AllTerminal(a, a.steps[n].attempts);
    }
  }

  lemma RoundKeeps(a: Rows, b: Rows, now: Time, listing: seq<Name>)
    requires OnItsWay(a) && TasksSucceeded(a) && Round(a, b, now) && now < a.wf.deadline && Elems(listing) == a.steps.Keys
    ensures OnItsWay(b) && TasksSucceeded(b) && b.wf.deadline == a.wf.deadline && b.steps.Keys == a.steps.Keys
    ensures Distance(b, listing) <= Distance(a, listing)
    ensures a.wf.state != WfComplete ==> Distance(b, listing) < Distance(a, listing)
    ensures a.wf.state == WfComplete ==> b.wf.state == WfComplete
  {
    var pokes :| PokesOf(a, now, pokes) && AllSweepPokes(a, pokes) && TasksFinish(HandleAll(a, pokes, now), b);
    var mid := HandleAll(a, pokes, now);
    HandleAllKeeps(a, pokes, now);
    TasksFinishKeeps(mid, b);
    DistanceFalls(a, b, listing);
    if a.wf.state != WfComplete {
      var n := RoundAdvances(a, pokes, now);
      assert n in Elems(listing);
    }
  }

  /** A run of rounds, each before the deadline. */
  ghost predicate Rounds(states: seq<Rows>, times: seq<Time>) {
    && |states| == |times| + 1
    && (times == [] ||
        (&& Round(states[0], states[1], times[0]) && times[0] < states[0].wf.deadline
         && Rounds(states[1..], times[1..])))
  }

  /** Under way: something to start from. */
  ghost predicate Underway(rows: Rows, listing: seq<Name>) {
    OnItsWay(rows) && TasksSucceeded(rows) && Elems(listing) == rows.steps.Keys
  }

  /** From `a`, `k` rounds lead to `b`: COMPLETE, or closer by at least `k`. */
  ghost predicate Descended(a: Rows, b: Rows, listing: seq<Name>, k: nat) {
    || !Underway(a, listing)
    || b.wf.state == WfComplete
    || (a.wf.state != WfComplete && 0 < Distance(b, listing) <= Distance(a, listing) - k)
  }

  lemma {:induction false} RoundsDescend(states: seq<Rows>, times: seq<Time>, listing: seq<Name>, k: nat)
    requires Rounds(states, times) && k <= |times|
    ensures Descended(states[0], states[k], listing, k)
    decreases k
  {
    if k == 0 {
      DescendedStart(states[0], listing);
    } else {
      var rest, later := states[1..], times[1..];
      assert Rounds(rest, later) && rest[0] == states[1] && rest[k - 1] == states[k];
      RoundsDescend(rest, later, listing, k - 1);
      FirstRound(states, times, listing);
      DescendedFurther(states[0], states[1], states[k], listing, k);
    }
  }

  lemma DescendedStart(a: Rows, listing: seq<Name>)
    ensures Descended(a, a, listing, 0)
  {
    if Underway(a, listing) && Distance(a, listing) == 0 { ArrivedIsComplete(a, listing); }
  }

  lemma FirstRound(states: seq<Rows>, times: seq<Time>, listing: seq<Name>)
    requires Rounds(states, times) && times != []
    ensures OneRoundOn(states[0], states[1], listing)
  {
    if Underway(states[0], listing) { RoundKeeps(states[0], states[1], times[0], listing); }
  }

  ghost predicate OneRoundOn(a: Rows, b: Rows, listing: seq<Name>) {
    || !Underway(a, listing)
    || (&& Underway(b, listing)
        && (a.wf.state == WfComplete ==> b.wf.state == WfComplete)
        && (a.wf.state != WfComplete ==> Distance(b, listing) < Distance(a, listing)))
  }

  lemma DescendedFurther(a: Rows, b: Rows, c: Rows, listing: seq<Name>, k: nat)
    requires OneRoundOn(a, b, listing) && k > 0 && Descended(b, c, listing, k - 1)
    ensures Descended(a, c, listing, k)
  {
  }

  /** After three rounds per step the workflow is COMPLETE, and it stays so. */
  lemma CompletesWithinThreeRoundsPerStep(states: seq<Rows>, times: seq<Time>, listing: seq<Name>, k: nat)
    requires Rounds(states, times) && OnItsWay(states[0]) && TasksSucceeded(states[0])
    requires Elems(listing) == states[0].steps.Keys && 3 * |listing| <= k <= |times|
    ensures states[k].wf.state == WfComplete
  {
    RoundsDescend(states, times, listing, k);
    DistanceFalls(states[0], states[0], listing);
  }

  // ---- rounds are runs of the two engines ----------------------------------------------------

  /** A newly defined workflow is on its way. */
  lemma DefinedIsOnItsWay(spec: SpecValidation.WorkflowSpec)
    requires SpecValidation.Sound(spec)
    ensures OnItsWay(DefinedRows(spec)) && TasksSucceeded(DefinedRows(spec))
  {
    InitInv(spec, 0);
  }

  function Deliveries(pokes: seq<Msg>): seq<Action> {
    if pokes == [] then [] else Deliveries(pokes[..|pokes| - 1]) + [Deliver(pokes[|pokes| - 1], 0)]
  }

  lemma DeliveryHandles(s: State, p: Msg)
    requires p in s.msgs && ForWorkflow(p)
    ensures var t := Next(s, Deliver(p, 0)); t.rows == Handle(s.rows, p, s.now).rows && t.now == s.now && t.senders == s.senders && s.msgs <= t.msgs
  {
  }

  lemma {:induction false} DeliveriesHandle(s: State, pokes: seq<Msg>)
    requires forall i :: 0 <= i < |pokes| ==> pokes[i] in s.msgs && ForWorkflow(pokes[i])
    ensures var t := After(s, Deliveries(pokes));
            t.rows == HandleAll(s.rows, pokes, s.now) && t.now == s.now && t.senders == s.senders && s.msgs <= t.msgs
  {
    if pokes == [] {
    } else {
      var front, last := pokes[..|pokes| - 1], pokes[|pokes| - 1];
      DeliveriesHandle(s, front);
      assert Deliveries(pokes)[..|Deliveries(pokes)| - 1] == Deliveries(front);
      assert After(s, Deliveries(pokes)) == Next(After(s, Deliveries(front)), Deliver(last, 0));
      DeliveryHandles(After(s, Deliveries(front)), last);
    }
  }

  /** A sweep before the deadline writes nothing. */
  lemma SweepWritesNothing(s: State)
    requires Agrees(s.rows) && s.now < s.rows.wf.deadline
    ensures Next(s, SweepWorkflow) == s.(msgs := s.msgs + Reconcile(s.rows, s.now).sends)
  {
    NothingToSettle(s.rows);
    assert Reconcile(s.rows, s.now).rows == s.rows;
  }

  lemma SweepLeavesPokes(s: State, pokes: seq<Msg>)
    requires Agrees(s.rows) && s.now < s.rows.wf.deadline && PokesOf(s.rows, s.now, pokes)
    ensures var t := Next(s, SweepWorkflow);
            t.rows == s.rows && t.now == s.now && t.senders == s.senders && forall i :: 0 <= i < |pokes| ==> pokes[i] in t.msgs
  {
    SweepWritesNothing(s);
    forall i | 0 <= i < |pokes| ensures pokes[i] in Reconcile(s.rows, s.now).sends { assert pokes[i] in Elems(pokes); }
  }

  /** One sweep and the delivery of its pokes, as actions of the system, do what a round does. */
  lemma RoundIsARun(s: State, pokes: seq<Msg>)
    requires OnItsWay(s.rows) && TasksSucceeded(s.rows) && s.now < s.rows.wf.deadline && PokesOf(s.rows, s.now, pokes)
    ensures AllSweepPokes(s.rows, pokes)
    ensures After(Next(s, SweepWorkflow), Deliveries(pokes)).rows == HandleAll(s.rows, pokes, s.now)
  {
    RoundPokesOnly(s.rows, pokes, s.now);
    SweepLeavesPokes(s, pokes);
    DeliveriesHandle(Next(s, SweepWorkflow), pokes);
  }
}
