/** The dependency graph of a workflow: every step with the set of its parents. Two independent
    readings of "no cycle" (no closed walk; a rank that falls towards the parents) and the shared
    core of the two Kahn-style loops. */
module StepGraph {
  import opened Prelude

  type Name = string
  type Parents = map<Name, set<Name>>

  ghost predicate KnownParents(g: Parents) {
    forall n :: n in g ==> g[n] <= g.Keys
  }

  /** A walk from a step towards its ancestors. */
  ghost predicate IsWalk(g: Parents, walk: seq<Name>) {
    && walk != []
    && (forall i :: 0 <= i < |walk| ==> walk[i] in g)
    && (forall i :: 0 <= i < |walk| - 1 ==> walk[i + 1] in g[walk[i]])
  }

  ghost predicate Cyclic(g: Parents) {
    exists walk :: IsWalk(g, walk) && |walk| >= 2 && walk[0] == walk[|walk| - 1]
  }

  ghost predicate Ranked(g: Parents, rank: map<Name, nat>) {
    && g.Keys <= rank.Keys
    && forall n, p :: n in g && p in g[n] && p in g ==> rank[p] < rank[n]
  }

  lemma {:induction false} RankFallsAlongWalk(g: Parents, rank: map<Name, nat>, walk: seq<Name>, i: nat)
    requires Ranked(g, rank) && IsWalk(g, walk) && i < |walk|
    ensures rank[walk[i]] + i <= rank[walk[0]]
  {
    if i == 0 {
    } else {
      RankFallsAlongWalk(g, rank, walk, i - 1);
      assert walk[(i - 1) + 1] in g[walk[i - 1]];
    }
  }

  lemma RankedIsAcyclic(g: Parents, rank: map<Name, nat>)
    requires Ranked(g, rank)
    ensures !Cyclic(g)
  {
    forall walk | IsWalk(g, walk) && |walk| >= 2 ensures walk[0] != walk[|walk| - 1] {
      RankFallsAlongWalk(g, rank, walk, |walk| - 1);
    }
  }

  ghost predicate HasParentIn(g: Parents, n: Name, names: set<Name>) {
    n in g && exists p :: p in g[n] && p in names
  }

  lemma SubWalk(g: Parents, walk: seq<Name>, i: nat, j: nat)
    requires IsWalk(g, walk) && i < j < |walk|
    ensures IsWalk(g, walk[i..j + 1])
  {
    var part := walk[i..j + 1];
    forall k | 0 <= k < |part| - 1 ensures part[k + 1] in g[part[k]] {
      assert walk[(i + k) + 1] in g[walk[i + k]];
    }
  }

  lemma ExtendWalk(g: Parents, walk: seq<Name>, p: Name)
    requires IsWalk(g, walk) && p in g && p in g[walk[|walk| - 1]]
    ensures IsWalk(g, walk + [p])
  {
    var longer := walk + [p];
    forall i | 0 <= i < |longer| - 1 ensures longer[i + 1] in g[longer[i]] {
      if i < |walk| - 1 { assert walk[i + 1] in g[walk[i]]; }
    }
  }

  /** A non-empty set of steps each of which keeps a parent inside the set contains a cycle. */
  lemma StuckIsCyclic(g: Parents, stuck: set<Name>)
    requires stuck <= g.Keys && stuck != {}
    requires forall n :: n in stuck ==> HasParentIn(g, n, stuck)
    ensures Cyclic(g)
  {
    var walk := LongWalk(g, stuck, |stuck| + 1);
    var i, j := Repeated(walk, stuck);
    SubWalk(g, walk, i, j);
    var loop := walk[i..j + 1];
    assert loop[0] == loop[|loop| - 1];
  }

  lemma {:induction false} LongWalk(g: Parents, stuck: set<Name>, length: nat) returns (walk: seq<Name>)
    requires stuck <= g.Keys && stuck != {} && length >= 1
    requires forall n :: n in stuck ==> HasParentIn(g, n, stuck)
    ensures IsWalk(g, walk) && |walk| == length && Elems(walk) <= stuck
  {
    if length == 1 {
      var n :| n in stuck;
      walk := [n];
    } else {
      var shorter := LongWalk(g, stuck, length - 1);
      var last := shorter[length - 2];
      assert last in Elems(shorter) && HasParentIn(g, last, stuck);
      var p :| p in g[last] && p in stuck;
      ExtendWalk(g, shorter, p);
      walk := shorter + [p];
    }
  }

  /** Pigeonhole: more entries than values means a value occurs twice. */
  lemma Repeated(s: seq<Name>, values: set<Name>) returns (i: nat, j: nat)
    requires Elems(s) <= values && |s| > |values|
    ensures i < j < |s| && s[i] == s[j]
  {
    if Distinct(s) {
      DistinctSize(s);
      SubsetSize(Elems(s), values);
      assert false;
    }
    i, j :| 0 <= i < j < |s| && s[i] == s[j];
  }

  /** The in-degree map of a Kahn loop: per step, how many parents are still to be emitted. */
  ghost predicate Counts(g: Parents, done: set<Name>, inDegree: map<Name, int>) {
    && inDegree.Keys == g.Keys
    && forall n :: n in g ==> inDegree[n] == |g[n] - done|
  }

  /** The child lists built from the steps in `seen`: each once, under each of its parents. */
  ghost predicate ChildLists(g: Parents, seen: set<Name>, children: map<Name, seq<Name>>) {
    && (forall p :: p in children ==> Distinct(children[p]))
    && (forall p, n :: p in children && n in children[p] ==> n in seen && n in g && p in g[n])
    && (forall p, n :: n in seen && n in g && p in g[n] ==> p in children && n in children[p])
  }

  /** The steps not yet emitted all of whose parents are. */
  ghost function Free(g: Parents, done: set<Name>): set<Name> {
    set n | n in g && n !in done && g[n] <= done
  }

  lemma LastParent(parents: set<Name>, done: set<Name>, current: Name)
    requires current in parents && current !in done
    ensures |parents - done| == |parents - (done + {current})| + 1
    ensures |parents - (done + {current})| == 0 <==> parents <= done + {current}
  {
    assert parents - done == (parents - (done + {current})) + {current};
  }

  /** The counts while the children of `current` are being visited. */
  ghost predicate HalfCounts(g: Parents, done: set<Name>, current: Name, seen: set<Name>, inDegree: map<Name, int>) {
    && inDegree.Keys == g.Keys
    && forall n :: n in g ==> inDegree[n] == |g[n] - (if n in seen then done + {current} else done)|
  }

  lemma AllChildrenSeen(g: Parents, done: set<Name>, current: Name, seen: set<Name>, inDegree: map<Name, int>)
    requires HalfCounts(g, done, current, seen, inDegree)
    requires forall n :: n in g && current in g[n] ==> n in seen
    ensures Counts(g, done + {current}, inDegree)
  {
    forall n | n in g ensures inDegree[n] == |g[n] - (done + {current})| {
      if current !in g[n] {
        assert g[n] - (done + {current}) == g[n] - done;
      }
    }
  }

  lemma VisitChild(g: Parents, done: set<Name>, current: Name, seen: set<Name>, inDegree: map<Name, int>, child: Name)
    requires HalfCounts(g, done, current, seen, inDegree) && child !in seen
    requires child in g && current in g[child] && current !in done
    ensures HalfCounts(g, done, current, seen + {child}, inDegree[child := inDegree[child] - 1])
    ensures inDegree[child] - 1 == 0 <==> g[child] <= done + {current}
  {
    LastParent(g[child], done, current);
  }

  /** Emitting `current`: one fewer open parent for each child. Reports, in the order met, the
      children that are left with none. */
  method Relax(g: Parents, ghost done: set<Name>, current: Name, children: map<Name, seq<Name>>, before: map<Name, int>)
    returns (inDegree: map<Name, int>, freed: seq<Name>)
    requires Counts(g, done, before) && ChildLists(g, g.Keys, children) && current !in done
    ensures Counts(g, done + {current}, inDegree)
    ensures Distinct(freed)
    ensures forall n :: n in freed <==> n in g && current in g[n] && g[n] <= done + {current}
  {
    inDegree, freed := before, [];
    var kids := if current in children then children[current] else [];
    assert forall n :: n in kids <==> n in g && current in g[n];
    for i := 0 to |kids|
      invariant HalfCounts(g, done, current, Elems(kids[..i]), inDegree)
      invariant Distinct(freed)
      invariant forall n :: n in freed <==> n in Elems(kids[..i]) && n in g && g[n] <= done + {current}
    {
      var child := kids[i];
      assert child in kids;
      TakeNext(kids, i);
      VisitChild(g, done, current, Elems(kids[..i]), inDegree, child);
      inDegree := inDegree[child := inDegree[child] - 1];
      if inDegree[child] == 0 {
        Snoc(freed, child);
        freed := freed + [child];
      }
    }
    assert kids[..|kids|] == kids;
    AllChildrenSeen(g, done, current, Elems(kids), inDegree);
  }

  /** The emitted sequence lists every step after all of its parents. */
  ghost predicate ParentsFirst(g: Parents, order: seq<Name>) {
    && Distinct(order) && Elems(order) <= g.Keys
    && forall i :: 0 <= i < |order| ==> g[order[i]] <= Elems(order[..i])
  }

  ghost function Position(order: seq<Name>): (rank: map<Name, nat>)
    requires Distinct(order)
    ensures rank.Keys == Elems(order)
    ensures forall i :: 0 <= i < |order| ==> rank[order[i]] == i
  {
    if order == [] then map[] else
    var k := |order| - 1;
    var rank := Position(order[..k]);
    assert forall i :: 0 <= i < k ==> order[i] == order[..k][i];
    rank[order[k] := k]
  }

  lemma FullOrderIsAcyclic(g: Parents, order: seq<Name>)
    requires ParentsFirst(g, order) && Elems(order) == g.Keys
    ensures KnownParents(g) && !Cyclic(g)
    ensures Ranked(g, Position(order))
  {
    var rank := Position(order);
    forall n, p | n in g && p in g[n] ensures p in g && rank[p] < rank[n] {
      assert n in Elems(order);
      var i :| 0 <= i < |order| && order[i] == n;
      assert p in Elems(order[..i]);
      var j :| 0 <= j < i && order[j] == p;
    }
    RankedIsAcyclic(g, rank);
  }

  /** When the queue runs dry early, the steps left over hold a cycle (or an unknown parent). */
  lemma LeftoverIsCyclic(g: Parents, done: set<Name>)
    requires done < g.Keys && Free(g, done) == {} && KnownParents(g)
    ensures Cyclic(g)
  {
    var stuck := g.Keys - done;
    forall n | n in stuck ensures exists p :: p in g[n] && p in stuck {
      assert n !in Free(g, done);
      var p :| p in g[n] && p !in done;
      assert p in g.Keys;
    }
    StuckIsCyclic(g, stuck);
  }

  function AddChild(children: map<Name, seq<Name>>, p: Name, n: Name): map<Name, seq<Name>> {
    children[p := (if p in children then children[p] else []) + [n]]
  }

  /** Files `n` under each of its parents, in whatever order the map yields them. */
  method RecordChild(g: Parents, ghost seen: set<Name>, before: map<Name, seq<Name>>, n: Name)
    returns (children: map<Name, seq<Name>>)
    requires ChildLists(g, seen, before) && n in g && n !in seen
    ensures ChildLists(g, seen + {n}, children)
  {
    children := before;
    var rest := g[n];
    while rest != {}
      invariant rest <= g[n]
      invariant forall p :: p in children ==> Distinct(children[p])
      invariant forall p, m :: p in children && m in children[p] ==>
                  m in g && p in g[m] && (m in seen || (m == n && p !in rest))
      invariant forall p, m :: m in seen && m in g && p in g[m] ==> p in children && m in children[p]
      invariant forall p :: p in g[n] - rest ==> p in children && n in children[p]
    {
      var p :| p in rest;
      if p in children {
        Snoc(children[p], n);
      }
      children := AddChild(children, p, n);
      rest := rest - {p};
    }
  }

  /** The set-up of the sort for the steps visited so far. */
  ghost predicate Indexed(g: Parents, seen: set<Name>, inDegree: map<Name, int>,
                           children: map<Name, seq<Name>>, queue: seq<Name>)
  {
    && inDegree.Keys == seen <= g.Keys
    && (forall n :: n in seen ==> inDegree[n] == |g[n]|)
    && ChildLists(g, seen, children)
    && Distinct(queue)
    && (forall n :: n in queue <==> n in seen && g[n] == {})
  }

  lemma RootsAreFree(g: Parents, queue: seq<Name>)
    requires forall n :: n in queue <==> n in g && g[n] == {}
    ensures Elems(queue) == Free(g, {})
  {
    forall n ensures n in Elems(queue) <==> n in Free(g, {}) {
      if n in g && g[n] <= {} { assert g[n] == {}; }
    }
  }

  lemma NothingEmitted(g: Parents, inDegree: map<Name, int>, queue: seq<Name>)
    requires inDegree.Keys == g.Keys && forall n :: n in g ==> inDegree[n] == |g[n]|
    requires Distinct(queue) && forall n :: n in queue <==> n in g && g[n] == {}
    ensures Sorting(g, [], inDegree, queue)
  {
    RootsAreFree(g, queue);
    var none := Elems<Name>([]);
    forall n | n in g ensures inDegree[n] == |g[n] - none| { assert g[n] - none == g[n]; }
  }

  /** Where the sort stands: the steps popped so far, parents first, and exactly the free steps queued. */
  ghost predicate Sorting(g: Parents, order: seq<Name>, inDegree: map<Name, int>, queue: seq<Name>) {
    && ParentsFirst(g, order)
    && Counts(g, Elems(order), inDegree)
    && Distinct(queue)
    && Elems(queue) == Free(g, Elems(order))
  }

  /** Popping the head and appending the children it freed keeps the queue the set of free steps. */
  lemma PopAndPush(g: Parents, order: seq<Name>, queue: seq<Name>, freed: seq<Name>)
    requires ParentsFirst(g, order) && Distinct(queue) && Distinct(freed)
    requires queue != [] && Elems(queue) == Free(g, Elems(order))
    requires forall n :: n in freed <==> n in g && queue[0] in g[n] && g[n] <= Elems(order) + {queue[0]}
    ensures Distinct(queue[1..] + freed)
    ensures Elems(queue[1..] + freed) == Free(g, Elems(order + [queue[0]]))
  {
    var done, current, waiting := Elems(order), queue[0], queue[1..];
    Uncons(queue);
    Snoc(order, current);
    assert current in Free(g, done);
    assert Elems(waiting) == Free(g, done) - {current};
    assert Elems(waiting) !! Elems(freed);
    Joined(waiting, freed);
    forall n | n in freed ensures n !in done {
      if n in done { DoneIsClosed(g, order, n); }
    }
    assert forall n :: n in Free(g, done + {current}) <==> n in Elems(waiting) + Elems(freed);
  }

  lemma DoneIsClosed(g: Parents, order: seq<Name>, n: Name)
    requires ParentsFirst(g, order) && n in Elems(order)
    ensures n in g && g[n] <= Elems(order)
  {
    var i :| 0 <= i < |order| && order[i] == n;
    assert g[order[i]] <= Elems(order[..i]);
  }

  lemma SortStep(g: Parents, order: seq<Name>, inDegree: map<Name, int>, queue: seq<Name>,
                 fewer: map<Name, int>, freed: seq<Name>)
    requires Sorting(g, order, inDegree, queue) && queue != [] && Distinct(freed)
    requires Counts(g, Elems(order) + {queue[0]}, fewer)
    requires forall n :: n in freed <==> n in g && queue[0] in g[n] && g[n] <= Elems(order) + {queue[0]}
    ensures Sorting(g, order + [queue[0]], fewer, queue[1..] + freed)
    ensures Elems(order) < Elems(order + [queue[0]]) <= g.Keys
  {
    Uncons(queue);
    assert queue[0] in Free(g, Elems(order));
    PopAndPush(g, order, queue, freed);
    EmitNext(g, order, queue[0]);
    Snoc(order, queue[0]);
  }

  lemma EmitNext(g: Parents, order: seq<Name>, current: Name)
    requires ParentsFirst(g, order) && current in Free(g, Elems(order))
    ensures ParentsFirst(g, order + [current])
  {
    Snoc(order, current);
    forall i | 0 <= i < |order + [current]|
      ensures g[(order + [current])[i]] <= Elems((order + [current])[..i])
    {
      assert (order + [current])[..i] == order[..i];
      if i == |order| { assert order[..i] == order; }
    }
  }
}
