/** Validation of a new workflow specification: basic field checks, step names, known parents, and
    the queue loop that accepts the dependency graph iff it has no cycle. */
module SpecValidation {
  import opened Prelude
  import opened Backoff
  import opened StepGraph

  datatype StepSpec = StepSpec(name: Name, stepType: string, retry: RetryParams, parents: set<Name>)

  datatype WorkflowSpec = WorkflowSpec(name: string, deadline: Option<int>, steps: map<Name, StepSpec>)

  datatype Verdict =
    | Accepted
    | NotBasic
    | Misnamed(step: Name)
    | OwnParent(step: Name)
    | UnknownParent(step: Name, parent: Name)
    | NotADag

  /** The `required` and range tags of the specification. */
  predicate BasicallyValid(spec: WorkflowSpec) {
    && spec.name != ""
    && spec.deadline.Some?
    && spec.steps.Keys != {}
    && forall n :: n in spec.steps ==>
                     && spec.steps[n].name != ""
                     && spec.steps[n].stepType != ""
                     && ValidRetry(spec.steps[n].retry)
  }

  predicate NamesAgree(spec: WorkflowSpec) {
    forall n :: n in spec.steps ==> spec.steps[n].name == n
  }

  function GraphOf(spec: WorkflowSpec): Parents {
    map n | n in spec.steps :: spec.steps[n].parents
  }

  /** What a caller may rely on after acceptance. */
  ghost predicate Sound(spec: WorkflowSpec) {
    && BasicallyValid(spec)
    && NamesAgree(spec)
    && KnownParents(GraphOf(spec))
    && !Cyclic(GraphOf(spec))
  }

  /** What a rejection of one step says about the specification. */
  predicate Justified(spec: WorkflowSpec, verdict: Verdict) {
    match verdict
    case Misnamed(n) => n in spec.steps && spec.steps[n].name != n
    case OwnParent(n) => n in spec.steps && n in spec.steps[n].parents
    case UnknownParent(n, p) => n in spec.steps && p in spec.steps[n].parents && p !in spec.steps
    case _ => false
  }

  /** The checks of one step: its key, no dependency on itself, no unknown parent. */
  method CheckStep(spec: WorkflowSpec, n: Name) returns (verdict: Verdict)
    requires n in spec.steps
    ensures verdict.Accepted? || Justified(spec, verdict)
    ensures verdict.Accepted? ==> spec.steps[n].name == n && spec.steps[n].parents <= spec.steps.Keys - {n}
  {
    if spec.steps[n].name != n {
      return Misnamed(n);
    }
    var rest := spec.steps[n].parents;
    while rest != {}
      invariant rest <= spec.steps[n].parents
      invariant spec.steps[n].parents - rest <= spec.steps.Keys - {n}
    {
      var p :| p in rest;
      if p == n {
        return OwnParent(n);
      }
      if p !in spec.steps {
        return UnknownParent(n, p);
      }
      rest := rest - {p};
    }
    return Accepted;
  }

  /** The per-step checks and the set-up of the sort: in-degrees, child lists and the first queue. */
  method Prepare(spec: WorkflowSpec)
    returns (verdict: Verdict, inDegree: map<Name, int>, children: map<Name, seq<Name>>, queue: seq<Name>)
    ensures verdict.Accepted? || Justified(spec, verdict)
    ensures verdict.Accepted? ==> NamesAgree(spec) && KnownParents(GraphOf(spec))
    ensures verdict.Accepted? ==> Indexed(GraphOf(spec), GraphOf(spec).Keys, inDegree, children, queue)
  {
    var g := GraphOf(spec);
    inDegree, children, queue := map[], map[], [];
    var rest := spec.steps.Keys;
    while rest != {}
      invariant rest <= g.Keys
      invariant forall n :: n in g.Keys - rest ==> spec.steps[n].name == n && g[n] <= g.Keys
      invariant Indexed(g, g.Keys - rest, inDegree, children, queue)
    {
      var n :| n in rest;
      verdict := CheckStep(spec, n);
      if !verdict.Accepted? {
        return;
      }
      children := RecordChild(g, g.Keys - rest, children, n);
      if g[n] == {} {
        Snoc(queue, n);
        queue := queue + [n];
      }
      inDegree := inDegree[n := |g[n]|];
      assert g.Keys - (rest - {n}) == (g.Keys - rest) + {n};
      rest := rest - {n};
    }
    assert g.Keys - rest == g.Keys;
    verdict := Accepted;
  }

  /** The topological sort: pops the queue until it is empty, counting the steps popped. */
  method CountSortable(g: Parents, degrees: map<Name, int>, children: map<Name, seq<Name>>, roots: seq<Name>)
    returns (processed: nat)
    requires KnownParents(g) && ChildLists(g, g.Keys, children) && Sorting(g, [], degrees, roots)
    ensures processed <= |g|
    ensures processed == |g| <==> !Cyclic(g)
  {
    var inDegree, queue := degrees, roots;
    processed := 0;
    ghost var order: seq<Name> := [];
    while queue != []
      invariant processed == |order| && Sorting(g, order, inDegree, queue)
      decreases g.Keys - Elems(order)
    {
      var current := queue[0];
      Uncons(queue);
      assert current in Free(g, Elems(order));
      var fewer, freed := Relax(g, Elems(order), current, children, inDegree);
      SortStep(g, order, inDegree, queue, fewer, freed);
      inDegree, queue, order := fewer, queue[1..] + freed, order + [current];
      processed := processed + 1;
    }
    CountDecides(g, order);
  }

  lemma CountDecides(g: Parents, order: seq<Name>)
    requires KnownParents(g) && ParentsFirst(g, order) && Free(g, Elems(order)) == {}
    ensures |order| <= |g|
    ensures |order| == |g| <==> !Cyclic(g)
  {
    DistinctSize(order);
    SubsetSize(Elems(order), g.Keys);
    assert |g| == |g.Keys|;
    if |order| == |g| {
      FullOrderIsAcyclic(g, order);
    } else {
      assert |Elems(order)| != |g.Keys|;
      assert Elems(order) != g.Keys;
      LeftoverIsCyclic(g, Elems(order));
    }
  }

  /** Accepts exactly the specifications that are basically valid, name every step after its key,
      depend on known steps only and contain no dependency cycle; every rejection names its cause. */
  method IsValid(spec: WorkflowSpec) returns (verdict: Verdict)
    ensures verdict.Accepted? <==> Sound(spec)
    ensures verdict.NotBasic? <==> !BasicallyValid(spec)
    ensures verdict.Misnamed? || verdict.OwnParent? || verdict.UnknownParent? ==> Justified(spec, verdict)
    ensures verdict.NotADag? ==> NamesAgree(spec) && KnownParents(GraphOf(spec)) && Cyclic(GraphOf(spec))
  {
    if !BasicallyValid(spec) {
      return NotBasic;
    }
    var inDegree, children, queue;
    verdict, inDegree, children, queue := Prepare(spec);
    if !verdict.Accepted? {
      JustifiedIsUnsound(spec, verdict);
      return;
    }
    NothingEmitted(GraphOf(spec), inDegree, queue);
    var processed := CountSortable(GraphOf(spec), inDegree, children, queue);
    GraphSize(spec);
    if processed < |spec.steps| {
      verdict := NotADag;
    }
  }

  lemma GraphSize(spec: WorkflowSpec)
    ensures |GraphOf(spec)| == |spec.steps|
  {
    assert GraphOf(spec).Keys == spec.steps.Keys;
    assert |GraphOf(spec).Keys| == |spec.steps.Keys|;
  }

  lemma JustifiedIsUnsound(spec: WorkflowSpec, verdict: Verdict)
    requires Justified(spec, verdict)
    ensures !Sound(spec)
  {
    var g := GraphOf(spec);
    assert verdict.step in g && g[verdict.step] == spec.steps[verdict.step].parents;
    if verdict.OwnParent? {
      var loop := [verdict.step, verdict.step];
      assert IsWalk(g, loop) && loop[0] == loop[|loop| - 1];
    }
  }
}
