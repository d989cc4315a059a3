/** The forward walk behind the "already at or past this state" guards: it decides reachability in
    any finite transition table. */
module Worklist {
  import opened Prelude
  import opened Tables

  /** Per state, its direct successors; a state without an entry has none. */
  type Table<S> = map<S, set<S>>

  function Successors<S>(table: Table<S>, s: S): set<S> {
    if s in table then table[s] else {}
  }

  ghost predicate IsPath<S(!new)>(table: Table<S>, path: seq<S>) {
    && path != []
    && forall i :: 0 <= i < |path| - 1 ==> path[i + 1] in Successors(table, path[i])
  }

  /** `to` is `from` itself or lies downstream of it. */
  ghost predicate Reaches<S(!new)>(table: Table<S>, from: S, to: S) {
    exists path :: IsPath(table, path) && path[0] == from && path[|path| - 1] == to
  }

  ghost predicate Closed<S(!new)>(table: Table<S>, states: set<S>) {
    forall s :: s in states ==> Successors(table, s) <= states
  }

  lemma ReachesSelf<S(!new)>(table: Table<S>, s: S)
    ensures Reaches(table, s, s)
  {
    assert IsPath(table, [s]) && [s][0] == s;
  }

  /** Reachability survives one more transition. */
  lemma ReachesNext<S(!new)>(table: Table<S>, from: S, mid: S, to: S)
    requires Reaches(table, from, mid) && to in Successors(table, mid)
    ensures Reaches(table, from, to)
  {
    var path :| IsPath(table, path) && path[0] == from && path[|path| - 1] == mid;
    var longer := path + [to];
    forall i | 0 <= i < |longer| - 1 ensures longer[i + 1] in Successors(table, longer[i]) {
      if i < |path| - 1 { assert path[i + 1] in Successors(table, path[i]); }
    }
    assert IsPath(table, longer) && longer[0] == from && longer[|longer| - 1] == to;
  }

  /** Nothing outside a closed set is reachable from inside it. */
  lemma ReachStaysInside<S(!new)>(table: Table<S>, states: set<S>, from: S, to: S)
    requires Closed(table, states) && from in states && Reaches(table, from, to)
    ensures to in states
  {
    var path :| IsPath(table, path) && path[0] == from && path[|path| - 1] == to;
    PathStaysInside(table, states, path, |path| - 1);
  }

  lemma {:induction false} PathStaysInside<S(!new)>(table: Table<S>, states: set<S>, path: seq<S>, i: nat)
    requires Closed(table, states) && IsPath(table, path) && path[0] in states && i < |path|
    ensures path[i] in states
  {
    if i == 0 {
    } else {
      PathStaysInside(table, states, path, i - 1);
      assert path[(i - 1) + 1] in Successors(table, path[i - 1]);
    }
  }

  ghost function Universe<S(!new)>(table: Table<S>, s: S): set<S> {
    {s} + set x, y | x in table && y in table[x] :: y
  }

  /** Everything found so far is downstream of `reference`, and what is not queued is expanded. */
  ghost predicate Frontier<S(!new)>(table: Table<S>, reference: S, visited: set<S>, pending: set<S>) {
    && reference in visited
    && visited <= Universe(table, reference)
    && (forall s :: s in visited ==> Reaches(table, reference, s))
    && (forall s :: s in visited && s !in pending ==> Successors(table, s) <= visited)
  }

  /** Queues the unseen successors of `head`, in whatever order the map yields them, unless one of
      them is `current`. */
  method Expand<S(==,!new)>(table: Table<S>, reference: S, head: S, current: S, seen: set<S>, waiting: seq<S>)
    returns (found: bool, visited: set<S>, queue: seq<S>)
    requires Frontier(table, reference, seen, {head} + Elems(waiting)) && head in seen
    requires current !in seen && Elems(waiting) <= seen
    ensures found ==> Reaches(table, reference, current)
    ensures !found ==> Frontier(table, reference, visited, Elems(queue)) && current !in visited
    ensures !found ==> Elems(queue) <= visited && seen <= visited
    ensures !found && visited == seen ==> queue == waiting
  {
    visited, queue := seen, waiting;
    var rest := Successors(table, head);
    while rest != {}
      invariant rest <= Successors(table, head) <= visited + rest
      invariant seen <= visited && current !in visited && Elems(queue) <= visited
      invariant visited == seen ==> queue == waiting
      invariant Frontier(table, reference, visited, {head} + Elems(queue))
    {
      var next :| next in rest;
      ReachesNext(table, reference, head, next);
      if next == current {
        return true, visited, queue;
      }
      if next !in visited {
        visited := visited + {next};
        assert Elems(queue + [next]) == Elems(queue) + {next};
        queue := queue + [next];
      }
      rest := rest - {next};
    }
    found := false;
  }

  lemma ClosedExcludes<S(!new)>(table: Table<S>, reference: S, visited: set<S>, current: S)
    requires Frontier(table, reference, visited, {}) && current !in visited
    ensures !Reaches(table, reference, current)
  {
    if Reaches(table, reference, current) {
      ReachStaysInside(table, visited, reference, current);
    }
  }

  lemma FrontierStart<S(!new)>(table: Table<S>, reference: S)
    ensures Frontier(table, reference, {reference}, Elems([reference]))
  {
    ReachesSelf(table, reference);
  }

  /** Breadth-first walk forward from `reference`, looking for `current`. */
  method IsStateAtOrPast<S(==,!new)>(table: Table<S>, current: S, reference: S) returns (found: bool)
    ensures found <==> Reaches(table, reference, current)
  {
    if current == reference {
      ReachesSelf(table, reference);
      return true;
    }
    FrontierStart(table, reference);
    var visited, queue := {reference}, [reference];
    while queue != []
      invariant current !in visited && Elems(queue) <= visited
      invariant Frontier(table, reference, visited, Elems(queue))
      decreases Universe(table, reference) - visited, |queue|
    {
      var head, waiting := queue[0], queue[1..];
      assert Elems(queue) == {head} + Elems(waiting);
      var hit, more, rest := Expand(table, reference, head, current, visited, waiting);
      if hit {
        return true;
      }
      visited, queue := more, rest;
    }
    ClosedExcludes(table, reference, visited, current);
    return false;
  }

  const RUN_STATES: set<RunState> :=
    {RunDefined, RunScheduled, RunEnqueued, RunAcquired, RunProcessing,
     RunProcessed, RunFailed, RunFinalized, RunCancelled}

  const RUN_TABLE: Table<RunState> := map s | s in RUN_STATES :: NextRunStates(s)

  ghost predicate AtOrPast(current: RunState, reference: RunState) {
    Reaches(RUN_TABLE, reference, current)
  }

  ghost predicate Ended(current: RunState) {
    AtOrPast(current, RunProcessed) || AtOrPast(current, RunFailed) || AtOrPast(current, RunCancelled)
  }

  lemma RunTable(s: RunState)
    ensures s in RUN_STATES && Successors(RUN_TABLE, s) == NextRunStates(s)
  {
  }

  /** Once a run is at or past a state, every legal write leaves it there: the no-op guards never
      un-fire. */
  lemma {:induction false} AtOrPastPersists(history: seq<RunState>, reference: RunState, i: nat, j: nat)
    requires forall k :: 0 <= k < |history| - 1 ==> history[k + 1] in NextRunStates(history[k])
    requires i <= j < |history| && AtOrPast(history[i], reference)
    ensures AtOrPast(history[j], reference)
    decreases j
  {
    if i == j {
    } else {
      AtOrPastPersists(history, reference, i, j - 1);
      RunTable(history[j - 1]);
      assert history[(j - 1) + 1] in NextRunStates(history[j - 1]);
      ReachesNext(RUN_TABLE, reference, history[j - 1], history[j]);
    }
  }

  lemma Closure(states: set<RunState>)
    requires forall s :: s in states ==> NextRunStates(s) <= states
    ensures Closed(RUN_TABLE, states)
  {
    forall s | s in states ensures Successors(RUN_TABLE, s) <= states { RunTable(s); }
  }

  /** The guards of the handlers, in plain terms. */
  lemma GuardMeanings(s: RunState)
    ensures AtOrPast(s, RunFinalized) <==> s == RunFinalized
    ensures AtOrPast(s, RunEnqueued) <==> s !in {RunDefined, RunScheduled}
    ensures Ended(s) <==> s in {RunProcessed, RunFailed, RunFinalized, RunCancelled}
  {
    Reach(RunFinalized, s, {RunFinalized});
    Reach(RunEnqueued, s, RUN_STATES - {RunDefined, RunScheduled});
    Reach(RunProcessed, s, {RunProcessed, RunFinalized});
    Reach(RunFailed, s, {RunFailed, RunFinalized});
    Reach(RunCancelled, s, {RunCancelled});
    RunTable(s);
    ReachesSelf(RUN_TABLE, s);
    Hop(RunProcessed, RunProcessed, RunFinalized);
    Hop(RunFailed, RunFailed, RunFinalized);
    Hop(RunEnqueued, RunEnqueued, RunAcquired);
    Hop(RunEnqueued, RunEnqueued, RunFailed);
    Hop(RunEnqueued, RunEnqueued, RunCancelled);
    Hop(RunEnqueued, RunAcquired, RunProcessing);
    Hop(RunEnqueued, RunAcquired, RunProcessed);
    Hop(RunEnqueued, RunFailed, RunFinalized);
  }

  lemma Reach(reference: RunState, s: RunState, states: set<RunState>)
    requires reference in states && forall s :: s in states ==> NextRunStates(s) <= states
    ensures AtOrPast(s, reference) ==> s in states
  {
    Closure(states);
    if AtOrPast(s, reference) { ReachStaysInside(RUN_TABLE, states, reference, s); }
  }

  lemma Hop(reference: RunState, mid: RunState, to: RunState)
    requires to in NextRunStates(mid) && (mid == reference || AtOrPast(mid, reference))
    ensures AtOrPast(to, reference)
  {
    ReachesSelf(RUN_TABLE, reference);
    RunTable(mid);
    ReachesNext(RUN_TABLE, reference, mid, to);
  }
}
