/** The level-by-level topological listing of a workflow's steps. A step's level is the length of the
    longest dependency chain above it; within a level the steps come in name order. */
module StepOrder {
  import opened Prelude
  import opened StepGraph

  /** Strict lexicographic order on names. */
  predicate Less(a: string, b: string) {
    if b == "" then false
    else if a == "" then true
    else a[0] < b[0] || (a[0] == b[0] && Less(a[1..], b[1..]))
  }

  lemma {:induction false} LessTransitive(a: string, b: string, c: string)
    requires Less(a, b) && Less(b, c)
    ensures Less(a, c)
    decreases a
  {
    if a != "" && a[0] == b[0] == c[0] {
      LessTransitive(a[1..], b[1..], c[1..]);
    }
  }

  lemma {:induction false} LessTotal(a: string, b: string)
    ensures a == b || Less(a, b) || Less(b, a)
    ensures !(Less(a, b) && Less(b, a))
    ensures !Less(a, a)
    decreases a
  {
    if a != "" {
      if b != "" && a[0] == b[0] {
        LessTotal(a[1..], b[1..]);
        assert a == [a[0]] + a[1..] && b == [b[0]] + b[1..];
      }
      LessIrreflexive(a);
    }
  }

  lemma {:induction false} LessIrreflexive(a: string)
    ensures !Less(a, a)
    decreases a
  {
    if a == "" {
    } else {
      LessIrreflexive(a[1..]);
    }
  }

  predicate Sorted(s: seq<Name>) {
    forall i, j :: 0 <= i < j < |s| ==> Less(s[i], s[j])
  }

  function Insert(x: Name, s: seq<Name>): (r: seq<Name>)
    requires Sorted(s) && x !in s
    ensures Sorted(r) && Elems(r) == Elems(s) + {x}
  {
    if s == [] then [x]
    else if Less(x, s[0]) then
      InsertedFirst(x, s);
      [x] + s
    else
      Uncons(s);
      LessTotal(x, s[0]);
      var rest := Insert(x, s[1..]);
      InsertedLater(x, s, rest);
      [s[0]] + rest
  }

  lemma ConsElems(x: Name, s: seq<Name>)
    ensures Elems([x] + s) == {x} + Elems(s)
  {
    assert ([x] + s)[1..] == s;
    Uncons([x] + s);
  }

  lemma InsertedFirst(x: Name, s: seq<Name>)
    requires Sorted(s) && s != [] && Less(x, s[0])
    ensures Sorted([x] + s) && Elems([x] + s) == Elems(s) + {x}
  {
    forall i | 0 < i < |s| ensures Less(x, s[i]) { LessTransitive(x, s[0], s[i]); }
    ConsElems(x, s);
  }

  lemma InsertedLater(x: Name, s: seq<Name>, rest: seq<Name>)
    requires Sorted(s) && s != [] && Less(s[0], x)
    requires Sorted(rest) && Elems(rest) == Elems(s[1..]) + {x}
    ensures Sorted([s[0]] + rest) && Elems([s[0]] + rest) == Elems(s) + {x}
  {
    forall y | y in rest ensures Less(s[0], y) {
      assert y in Elems(rest);
      if y != x { var i :| 0 <= i < |s[1..]| && s[1..][i] == y; }
    }
    ConsElems(s[0], rest);
    Uncons(s);
  }

  /** sort.Strings on names without duplicates. */
  function SortNames(names: seq<Name>): (r: seq<Name>)
    requires Distinct(names)
    ensures Sorted(r) && Elems(r) == Elems(names)
  {
    if names == [] then []
    else
      Uncons(names);
      assert names[0] !in Elems(SortNames(names[1..]));
      Insert(names[0], SortNames(names[1..]))
  }

  lemma SortedIsDistinct(s: seq<Name>)
    requires Sorted(s)
    ensures Distinct(s)
  {
    forall i, j | 0 <= i < j < |s| ensures s[i] != s[j] { LessIrreflexive(s[i]); }
  }

  /** `n` belongs on level `d`: all its parents have smaller levels and, unless it is a root, one of
      them sits right above. */
  ghost predicate Fits(g: Parents, depth: map<Name, nat>, n: Name, d: nat) {
    && n in g && g[n] <= depth.Keys
    && (forall p :: p in g[n] ==> depth[p] < d)
    && (d > 0 ==> exists p :: p in g[n] && depth[p] == d - 1)
  }

  /** Levels for some of the steps. */
  ghost predicate Depths(g: Parents, depth: map<Name, nat>) {
    forall n {:trigger Fits(g, depth, n, depth[n])} :: n in depth ==> Fits(g, depth, n, depth[n])
  }

  ghost predicate IsDepth(g: Parents, depth: map<Name, nat>) {
    depth.Keys == g.Keys && Depths(g, depth)
  }

  predicate Before(depth: map<Name, nat>, a: Name, b: Name) {
    a in depth && b in depth && (depth[a] < depth[b] || (depth[a] == depth[b] && Less(a, b)))
  }

  /** Sorted by level first and by name within a level. */
  ghost predicate LevelSorted(order: seq<Name>, depth: map<Name, nat>) {
    && Elems(order) == depth.Keys
    && forall i, j :: 0 <= i < j < |order| ==> Before(depth, order[i], order[j])
  }

  /** The levels are determined by the graph. */
  lemma {:induction false} DepthsAgree(g: Parents, a: map<Name, nat>, b: map<Name, nat>, n: Name)
    requires IsDepth(g, a) && IsDepth(g, b) && n in g
    ensures a[n] == b[n]
    decreases a[n]
  {
    assert Fits(g, a, n, a[n]) && Fits(g, b, n, b[n]);
    forall p | p in g[n] ensures a[p] == b[p] { DepthsAgree(g, a, b, p); }
    LevelsMatch(g[n], a, b, a[n], b[n]);
  }

  lemma LevelsMatch(parents: set<Name>, a: map<Name, nat>, b: map<Name, nat>, x: nat, y: nat)
    requires parents <= a.Keys && parents <= b.Keys && forall p :: p in parents ==> a[p] == b[p]
    requires forall p :: p in parents ==> a[p] < x && b[p] < y
    requires x > 0 ==> exists p :: p in parents && a[p] == x - 1
    requires y > 0 ==> exists p :: p in parents && b[p] == y - 1
    ensures x == y
  {
  }

  /** The level of a step is the length of a longest dependency chain above it. */
  lemma LevelIsLongestChain(g: Parents, depth: map<Name, nat>, n: Name)
    requires IsDepth(g, depth) && n in g
    ensures exists walk :: IsWalk(g, walk) && walk[0] == n && |walk| == depth[n] + 1
    ensures forall walk :: IsWalk(g, walk) && walk[0] == n ==> |walk| <= depth[n] + 1
  {
    var chain := Chain(g, depth, n);
    forall m, p | m in g && p in g[m] && p in g ensures depth[p] < depth[m] {
      assert Fits(g, depth, m, depth[m]);
    }
    assert Ranked(g, depth);
    forall walk | IsWalk(g, walk) && walk[0] == n ensures |walk| <= depth[n] + 1 {
      RankFallsAlongWalk(g, depth, walk, |walk| - 1);
    }
  }

  lemma {:induction false} Chain(g: Parents, depth: map<Name, nat>, n: Name) returns (walk: seq<Name>)
    requires IsDepth(g, depth) && n in g
    ensures IsWalk(g, walk) && walk[0] == n && |walk| == depth[n] + 1
    decreases depth[n]
  {
    if depth[n] == 0 {
      walk := [n];
    } else {
      assert Fits(g, depth, n, depth[n]);
      var p :| p in g[n] && depth[p] == depth[n] - 1;
      var above := Chain(g, depth, p);
      walk := [n] + above;
      forall i | 0 <= i < |walk| - 1 ensures walk[i + 1] in g[walk[i]] {
        if i > 0 { assert above[(i - 1) + 1] in g[above[i - 1]]; }
      }
    }
  }

  lemma ListingIsDistinct(a: seq<Name>, depth: map<Name, nat>)
    requires LevelSorted(a, depth)
    ensures Distinct(a)
  {
    forall i, j | 0 <= i < j < |a| ensures a[i] != a[j] {
      assert Before(depth, a[i], a[j]);
      LessIrreflexive(a[i]);
    }
  }

  lemma FirstIsLeast(a: seq<Name>, depth: map<Name, nat>)
    requires LevelSorted(a, depth) && a != []
    ensures a[0] in depth && LevelSorted(a[1..], depth - {a[0]})
    ensures forall n :: n in depth && n != a[0] ==> Before(depth, a[0], n)
  {
    ListingIsDistinct(a, depth);
    Uncons(a);
    forall n | n in depth && n != a[0] ensures Before(depth, a[0], n) {
      assert n in Elems(a);
      var i :| 0 <= i < |a| && a[i] == n;
    }
  }

  /** Two level-sorted listings of the same steps are the same listing. */
  lemma {:induction false} ListingUnique(a: seq<Name>, b: seq<Name>, depth: map<Name, nat>)
    requires LevelSorted(a, depth) && LevelSorted(b, depth)
    ensures a == b
    decreases |a|
  {
    NoElems(a);
    NoElems(b);
    if a == [] {
    } else {
      FirstIsLeast(a, depth);
      FirstIsLeast(b, depth);
      LessTotal(a[0], b[0]);
      ListingUnique(a[1..], b[1..], depth - {a[0]});
      assert a == [a[0]] + a[1..] && b == [b[0]] + b[1..];
    }
  }

  /** Midway through level `d`: `order` is emitted, `waiting` is the rest of the level, `next` is what
      the level has freed so far. */
  ghost predicate MidLevel(g: Parents, order: seq<Name>, depth: map<Name, nat>, d: nat, waiting: seq<Name>, next: seq<Name>) {
    && ParentsFirst(g, order)
    && LevelSorted(order, depth) && Depths(g, depth)
    && (forall n :: n in depth ==> depth[n] <= d)
    && Sorted(waiting) && Distinct(next)
    && Elems(waiting) !! Elems(next)
    && Elems(waiting) + Elems(next) == Free(g, Elems(order))
    && (forall n :: n in waiting ==> Fits(g, depth, n, d))
    && (forall n, w :: n in depth && depth[n] == d && w in waiting ==> Less(n, w))
    && (forall n :: n in next ==> Fits(g, depth, n, d + 1))
  }

  lemma {:induction false} FitsLater(g: Parents, depth: map<Name, nat>, current: Name, d: nat, n: Name, e: nat)
    requires current !in depth && Fits(g, depth, n, e)
    ensures Fits(g, depth[current := d], n, e)
  {
    var more := depth[current := d];
    if e > 0 {
      var p :| p in g[n] && depth[p] == e - 1;
      assert p in g[n] && more[p] == e - 1;
    }
  }

  /** Emitting the next step of the level keeps the picture. */
  lemma EmitOnLevel(g: Parents, order: seq<Name>, depth: map<Name, nat>, d: nat,
                    waiting: seq<Name>, next: seq<Name>, freed: seq<Name>)
    requires MidLevel(g, order, depth, d, waiting, next) && waiting != [] && Distinct(freed)
    requires forall n :: n in freed <==> n in g && waiting[0] in g[n] && g[n] <= Elems(order) + {waiting[0]}
    ensures MidLevel(g, order + [waiting[0]], depth[waiting[0] := d], d, waiting[1..], next + freed)
  {
    SortedIsDistinct(waiting);
    Uncons(waiting);
    assert waiting[0] in Free(g, Elems(order));
    Extend(g, order, depth, d, waiting[0]);
    FreedByLevel(g, order, waiting, next, freed);
    FitsAfter(g, order, depth, d, waiting, next, freed);
    LevelStillSorted(depth, d, waiting);
  }

  /** What is emitted of a level comes before what is left of it. */
  lemma LevelStillSorted(depth: map<Name, nat>, d: nat, waiting: seq<Name>)
    requires waiting != [] && Sorted(waiting)
    requires forall n, w :: n in depth && depth[n] == d && w in waiting ==> Less(n, w)
    ensures var more := depth[waiting[0] := d];
            forall n, w :: n in more && more[n] == d && w in waiting[1..] ==> Less(n, w)
  {
    var more, rest := depth[waiting[0] := d], waiting[1..];
    forall n, w | n in more && more[n] == d && w in rest ensures Less(n, w) {
      var i :| 0 <= i < |rest| && rest[i] == w;
      assert waiting[i + 1] == w;
    }
  }

  lemma FitsAfter(g: Parents, order: seq<Name>, depth: map<Name, nat>, d: nat,
                  waiting: seq<Name>, next: seq<Name>, freed: seq<Name>)
    requires waiting != [] && waiting[0] !in depth && Elems(order) == depth.Keys
    requires forall n :: n in depth ==> depth[n] <= d
    requires forall n :: n in waiting ==> Fits(g, depth, n, d)
    requires forall n :: n in next ==> Fits(g, depth, n, d + 1)
    requires forall n :: n in freed <==> n in g && waiting[0] in g[n] && g[n] <= Elems(order) + {waiting[0]}
    ensures forall n :: n in waiting[1..] ==> Fits(g, depth[waiting[0] := d], n, d)
    ensures forall n :: n in next + freed ==> Fits(g, depth[waiting[0] := d], n, d + 1)
  {
    var current, more := waiting[0], depth[waiting[0] := d];
    forall n | n in waiting[1..] ensures Fits(g, more, n, d) {
      assert n in waiting;
      FitsLater(g, depth, current, d, n, d);
    }
    forall n | n in next + freed ensures Fits(g, more, n, d + 1) {
      if n in next {
        FitsLater(g, depth, current, d, n, d + 1);
      } else {
        assert current in g[n] && more[current] == d;
        assert g[n] <= more.Keys;
      }
    }
  }

  lemma Extend(g: Parents, order: seq<Name>, depth: map<Name, nat>, d: nat, current: Name)
    requires ParentsFirst(g, order) && LevelSorted(order, depth) && Depths(g, depth)
    requires forall n :: n in depth ==> depth[n] <= d
    requires current in Free(g, Elems(order)) && Fits(g, depth, current, d)
    requires forall n :: n in depth && depth[n] == d ==> Less(n, current)
    ensures ParentsFirst(g, order + [current])
    ensures LevelSorted(order + [current], depth[current := d])
    ensures Depths(g, depth[current := d])
    ensures var more := depth[current := d]; forall n :: n in more ==> more[n] <= d
  {
    var more := depth[current := d];
    EmitNext(g, order, current);
    Snoc(order, current);
    forall n | n in more ensures Fits(g, more, n, more[n]) {
      if n == current { FitsLater(g, depth, current, d, n, d); } else { FitsLater(g, depth, current, d, n, depth[n]); }
    }
    forall i, j | 0 <= i < j < |order + [current]| ensures Before(more, (order + [current])[i], (order + [current])[j]) {
      assert order[i] in Elems(order);
      if j < |order| { assert order[j] in Elems(order); }
    }
  }

  lemma FreedByLevel(g: Parents, order: seq<Name>, waiting: seq<Name>, next: seq<Name>, freed: seq<Name>)
    requires ParentsFirst(g, order) && waiting != [] && Distinct(waiting) && Distinct(next) && Distinct(freed)
    requires Elems(waiting) !! Elems(next) && Elems(waiting) + Elems(next) == Free(g, Elems(order))
    requires forall n :: n in freed <==> n in g && waiting[0] in g[n] && g[n] <= Elems(order) + {waiting[0]}
    ensures Distinct(next + freed) && Elems(waiting[1..]) !! Elems(next + freed)
    ensures Elems(waiting[1..]) + Elems(next + freed) == Free(g, Elems(order + [waiting[0]]))
  {
    var queue := waiting + next;
    Joined(waiting, next);
    PopAndPush(g, order, queue, freed);
    assert queue[0] == waiting[0] && queue[1..] + freed == waiting[1..] + (next + freed);
    SplitDistinct(waiting[1..], next + freed);
  }

  lemma SplitDistinct<T>(a: seq<T>, b: seq<T>)
    requires Distinct(a + b)
    ensures Distinct(a) && Distinct(b) && Elems(a) !! Elems(b) && Elems(a + b) == Elems(a) + Elems(b)
  {
    forall i, j | 0 <= i < j < |a| ensures a[i] != a[j] { assert (a + b)[i] != (a + b)[j]; }
    forall i, j | 0 <= i < j < |b| ensures b[i] != b[j] { assert (a + b)[|a| + i] != (a + b)[|a| + j]; }
    forall i, j | 0 <= i < |a| && 0 <= j < |b| ensures a[i] != b[j] { assert (a + b)[i] != (a + b)[|a| + j]; }
  }

  /** Emits one level in name order and collects the next one. */
  method EmitLevel(g: Parents, children: map<Name, seq<Name>>, degrees: map<Name, int>,
                   before: seq<Name>, level: seq<Name>, ghost depths: map<Name, nat>, ghost d: nat)
    returns (order: seq<Name>, inDegree: map<Name, int>, next: seq<Name>, ghost depth: map<Name, nat>)
    requires ChildLists(g, g.Keys, children) && Counts(g, Elems(before), degrees)
    requires MidLevel(g, before, depths, d, level, [])
    ensures Counts(g, Elems(order), inDegree)
    ensures MidLevel(g, order, depth, d, [], next)
    ensures level != [] ==> Elems(before) < Elems(order) <= g.Keys
  {
    order, inDegree, next, depth := before, degrees, [], depths;
    var waiting := level;
    while waiting != []
      invariant Counts(g, Elems(order), inDegree)
      invariant MidLevel(g, order, depth, d, waiting, next)
      invariant Elems(before) <= Elems(order)
      invariant waiting == level || Elems(before) < Elems(order)
      decreases |waiting|
    {
      var current := waiting[0];
      Uncons(waiting);
      assert current in Free(g, Elems(order));
      var fewer, freed := Relax(g, Elems(order), current, children, inDegree);
      EmitOnLevel(g, order, depth, d, waiting, next, freed);
      Snoc(order, current);
      order, inDegree, next, depth := order + [current], fewer, next + freed, depth[current := d];
      waiting := waiting[1..];
    }
  }

  /** A collected level, put in name order, is the start of the next one. */
  lemma NextLevel(g: Parents, order: seq<Name>, depth: map<Name, nat>, d: nat, next: seq<Name>)
    requires MidLevel(g, order, depth, d, [], next)
    ensures MidLevel(g, order, depth, d + 1, SortNames(next), [])
  {
    var level := SortNames(next);
    forall n | n in level ensures Fits(g, depth, n, d + 1) {
      assert n in Elems(level);
    }
  }

  /** The index after one more step whose children are recorded. */
  lemma IndexedFurther(g: Parents, seen: set<Name>, inDegree: map<Name, int>, children: map<Name, seq<Name>>,
                       roots: seq<Name>, n: Name)
    requires n in g && n !in seen && inDegree.Keys == seen <= g.Keys && Distinct(roots)
    requires forall m :: m in seen ==> inDegree[m] == |g[m]|
    requires forall m :: m in roots <==> m in seen && g[m] == {}
    requires ChildLists(g, seen + {n}, children)
    ensures Indexed(g, seen + {n}, inDegree[n := |g[n]|], children, if g[n] == {} then roots + [n] else roots)
  {
    Snoc(roots, n);
  }

  /** Groups the children of every step under its name; parents that are not steps get a list too. */
  method Index(g: Parents) returns (inDegree: map<Name, int>, children: map<Name, seq<Name>>, roots: seq<Name>)
    ensures Counts(g, {}, inDegree) && ChildLists(g, g.Keys, children)
    ensures Distinct(roots) && Elems(roots) == Free(g, {})
  {
    inDegree, children, roots := map[], map[], [];
    var rest := g.Keys;
    while rest != {}
      invariant rest <= g.Keys
      invariant Indexed(g, g.Keys - rest, inDegree, children, roots)
    {
      var n :| n in rest;
      children := RecordChild(g, g.Keys - rest, children, n);
      IndexedFurther(g, g.Keys - rest, inDegree, children, roots, n);
      if g[n] == {} {
        roots := roots + [n];
      }
      inDegree := inDegree[n := |g[n]|];
      assert g.Keys - (rest - {n}) == (g.Keys - rest) + {n};
      rest := rest - {n};
    }
    assert g.Keys - rest == g.Keys;
    NothingEmitted(g, inDegree, roots);
    assert Elems<Name>([]) == {};
  }

  lemma StartListing(g: Parents, inDegree: map<Name, int>, roots: seq<Name>)
    requires Counts(g, {}, inDegree) && Distinct(roots) && Elems(roots) == Free(g, {})
    ensures Counts(g, Elems([]), inDegree) && MidLevel(g, [], map[], 0, SortNames(roots), [])
  {
    assert Elems<Name>([]) == {};
    var level := SortNames(roots);
    forall n | n in level ensures Fits(g, map[], n, 0) {
      assert n in Elems(level);
    }
  }

  /** Lists the steps of a workflow: succeeds exactly when every parent is a step and there is no
      cycle, and then returns every step once, parents first, by level and name. */
  method ListWorkflowSteps(g: Parents) returns (listing: Option<seq<Name>>, ghost depth: map<Name, nat>)
    ensures listing.Some? <==> KnownParents(g) && !Cyclic(g)
    ensures listing.Some? ==> ParentsFirst(g, listing.value) && Elems(listing.value) == g.Keys
    ensures listing.Some? ==> IsDepth(g, depth) && LevelSorted(listing.value, depth)
  {
    var inDegree, children, current := Index(g);
    var order: seq<Name> := [];
    ghost var d := 0;
    depth := map[];
    StartListing(g, inDegree, current);
    current := SortNames(current);
    while current != []
      invariant Counts(g, Elems(order), inDegree)
      invariant MidLevel(g, order, depth, d, current, [])
      decreases g.Keys - Elems(order)
    {
      var next;
      order, inDegree, next, depth := EmitLevel(g, children, inDegree, order, current, depth, d);
      NextLevel(g, order, depth, d, next);
      current, d := SortNames(next), d + 1;
    }
    ListingDecides(g, order);
    if |order| != |g| {
      return None, depth;
    }
    return Some(order), depth;
  }

  lemma ListingDecides(g: Parents, order: seq<Name>)
    requires ParentsFirst(g, order) && Free(g, Elems(order)) == {}
    ensures |order| == |g| <==> KnownParents(g) && !Cyclic(g)
    ensures |order| == |g| ==> Elems(order) == g.Keys
  {
    DistinctSize(order);
    SubsetSize(Elems(order), g.Keys);
    assert |g| == |g.Keys|;
    if |order| == |g| {
      FullOrderIsAcyclic(g, order);
    } else if KnownParents(g) {
      assert |Elems(order)| != |g.Keys|;
      assert Elems(order) != g.Keys;
      LeftoverIsCyclic(g, Elems(order));
    }
  }
}
