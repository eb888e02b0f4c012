/** Validator of the dependency graph of a plan: a depth-first search over two mutable sets. */
module Plan {

  type Id = string

  datatype Phase = SingleSpark | Deferred

  datatype Status = Todo | Ready | Done | Other(name: string)

  datatype Task = Task(id: Id, owner: string, phase: Phase, status: Status, dependsOn: seq<Id>)

  type Graph = map<Id, Task>

  // ---------------------------------------------------------------- what a good graph is

  predicate Edge(g: Graph, i: Id, d: Id) {
    i in g && d in g[i].dependsOn
  }

  /** A nonempty walk along dependencies. */
  predicate Walk(g: Graph, w: seq<Id>) {
    |w| > 0 && forall k | 0 <= k < |w| - 1 :: Edge(g, w[k], w[k + 1])
  }

  predicate Cycle(g: Graph, w: seq<Id>) {
    Walk(g, w) && |w| >= 2 && w[0] == w[|w| - 1]
  }

  ghost predicate Acyclic(g: Graph) {
    forall w :: !Cycle(g, w)
  }

  ghost predicate Closed(g: Graph) {
    forall i, d | Edge(g, i, d) :: d in g
  }

  /** No phase-1 task depends on deferred work. */
  ghost predicate PhasesRespected(g: Graph) {
    forall i, d | Edge(g, i, d) && d in g && g[i].phase == SingleSpark :: g[d].phase == SingleSpark
  }

  ghost predicate GoodGraph(g: Graph) {
    Closed(g) && PhasesRespected(g) && Acyclic(g)
  }

  // ---------------------------------------------------------------- finishing order

  /** Ids in the order `visit` finished them: every dependency of an id is finished before it. */
  ghost predicate Finishing(g: Graph, order: seq<Id>) {
    && (forall k | 0 <= k < |order| :: order[k] in g)
    && (forall k, d | 0 <= k < |order| && d in g[order[k]].dependsOn :: d in order[..k])
    && (forall k, d | 0 <= k < |order| && d in g[order[k]].dependsOn && d in g && g[order[k]].phase == SingleSpark ::
          g[d].phase == SingleSpark)
  }

  ghost predicate Distinct(s: seq<Id>) {
    forall i, j | 0 <= i < j < |s| :: s[i] != s[j]
  }

  lemma FinishingMember(g: Graph, order: seq<Id>, i: Id, d: Id)
    requires Finishing(g, order) && i in order && Edge(g, i, d)
    ensures d in order && d in g
    ensures g[i].phase == SingleSpark ==> g[d].phase == SingleSpark
  {
    var k :| 0 <= k < |order| && order[k] == i;
    assert d in order[..k];
    var j :| 0 <= j < k && order[..k][j] == d;
    assert order[j] == d;
  }

  /** A walk that starts at position `k` of a finishing order stays strictly before it. */
  lemma {:induction false} WalkDescends(g: Graph, order: seq<Id>, w: seq<Id>, k: nat)
    requires Finishing(g, order) && Walk(g, w) && k < |order| && order[k] == w[0] && |w| >= 2
    ensures w[|w| - 1] in order[..k]
    decreases |w|
  {
    assert Edge(g, w[0], w[1]);
    var j :| 0 <= j < k && order[..k][j] == w[1];
    if |w| > 2 {
      var rest := w[1..];
      forall m | 0 <= m < |rest| - 1
        ensures Edge(g, rest[m], rest[m + 1])
      {
        assert Edge(g, w[m + 1], w[m + 2]);
      }
      WalkDescends(g, order, rest, j);
      var x :| 0 <= x < j && order[..j][x] == rest[|rest| - 1];
      assert order[..k][x] == rest[|rest| - 1];
    }
  }

  /** A finishing order without repetitions that covers the graph rules out every cycle. */
  lemma FinishedIsGood(g: Graph, order: seq<Id>)
    requires Finishing(g, order) && Distinct(order) && forall i | i in g :: i in order
    ensures GoodGraph(g)
  {
    forall i, d | Edge(g, i, d)
      ensures d in g && (g[i].phase == SingleSpark ==> g[d].phase == SingleSpark)
    {
      FinishingMember(g, order, i, d);
    }
    forall w
      ensures !Cycle(g, w)
    {
      if Cycle(g, w) {
        assert Edge(g, w[0], w[1]);
        var k :| 0 <= k < |order| && order[k] == w[0];
        WalkDescends(g, order, w, k);
      }
    }
  }

  // ---------------------------------------------------------------- the validator

  datatype Verdict =
    | Accepted
    | DuplicateIds
    | CycleAt(id: Id)
    | MissingDependency(id: Id)
    | DependsOnDeferred
    | MissingCard(id: Id)
    | UnknownOwner

  const OWNERS: set<string> := {"Sol", "Terra", "Luna"}

  /** What each error of `visit` witnesses. */
  ghost predicate Justified(g: Graph, v: Verdict) {
    match v
    case CycleAt(i) => exists w :: Cycle(g, w) && w[0] == i
    case MissingDependency(d) => exists i :: Edge(g, i, d) && d !in g
    case DependsOnDeferred => exists i, d :: Edge(g, i, d) && d in g && g[i].phase == SingleSpark && g[d].phase != SingleSpark
    case _ => false
  }

  lemma JustifiedIsBad(g: Graph, v: Verdict)
    requires Justified(g, v)
    ensures !GoodGraph(g)
  {
  }

  function Elements(s: seq<Id>): set<Id> {
    set x | x in s
  }

  /** The walk that led to an active id closes into a cycle through it. */
  lemma ActiveCloses(g: Graph, path: seq<Id>, i: Id)
    requires Walk(g, path) && Edge(g, path[|path| - 1], i) && i in path
    ensures exists w :: Cycle(g, w) && w[0] == i
  {
    var k :| 0 <= k < |path| && path[k] == i;
    var w := path[k..] + [i];
    forall m | 0 <= m < |w| - 1
      ensures Edge(g, w[m], w[m + 1])
    {
      if m < |w| - 2 {
        assert Edge(g, path[k + m], path[k + m + 1]);
      }
    }
    assert Cycle(g, w) && w[0] == i;
  }

  lemma WalkExtends(g: Graph, path: seq<Id>, i: Id)
    requires path == [] || (Walk(g, path) && Edge(g, path[|path| - 1], i))
    ensures Walk(g, path + [i])
  {
    var w := path + [i];
    forall m | 0 <= m < |w| - 1
      ensures Edge(g, w[m], w[m + 1])
    {
      if m < |path| - 1 {
        assert Edge(g, path[m], path[m + 1]);
      }
    }
  }

  lemma FinishingExtends(g: Graph, order: seq<Id>, i: Id)
    requires Finishing(g, order) && i in g
    requires forall d | d in g[i].dependsOn :: d in order
    requires forall d | d in g[i].dependsOn && d in g && g[i].phase == SingleSpark :: g[d].phase == SingleSpark
    ensures Finishing(g, order + [i])
  {
    var o := order + [i];
    forall k, d | 0 <= k < |o| && d in g[o[k]].dependsOn
      ensures d in o[..k]
    {
      if k < |order| {
        assert o[..k] == order[..k];
      } else {
        assert o[..k] == order;
      }
    }
  }

  /** The two sets `visit` mutates, with the finishing order they stand for. */
  class Search {
    const g: Graph
    var seen: set<Id>
    var active: set<Id>
    ghost var order: seq<Id>

    constructor (g: Graph)
      ensures this.g == g && seen == {} && active == {} && Valid()
    {
      this.g := g;
      seen, active, order := {}, {}, [];
    }

    ghost predicate Valid()
      reads this
    {
      && Finishing(g, order) && Distinct(order) && seen == Elements(order)
      && active <= g.Keys && active !! seen
    }

    /** Depth-first visit of `i`; `path` is the chain of calls in progress. */
    method Visit(i: Id, ghost path: seq<Id>) returns (v: Verdict)
      requires Valid() && i in g && active == Elements(path)
      requires path == [] || (Walk(g, path) && Edge(g, path[|path| - 1], i))
      modifies this
      ensures v.Accepted? ==>
          && Valid() && active == old(active)
          && seen >= old(seen) + {i}
      ensures !v.Accepted? ==> Justified(g, v)
      decreases g.Keys - active
    {
      if i in active {
        ActiveCloses(g, path, i);
        return CycleAt(i);
      }
      if i in seen {
        return Accepted;
      }
      active := active + {i};
      WalkExtends(g, path, i);
      var deps := g[i].dependsOn;
      for k := 0 to |deps|
        invariant Valid() && active == old(active) + {i} && seen >= old(seen)
        invariant forall d | d in deps[..k] :: d in seen
        invariant forall d | d in deps[..k] && d in g && g[i].phase == SingleSpark :: g[d].phase == SingleSpark
      {
        var d := deps[k];
        assert Edge(g, i, d);
        assert deps[..k + 1] == deps[..k] + [d];
        if d !in g {
          return MissingDependency(d);
        }
        if g[i].phase == SingleSpark && g[d].phase != SingleSpark {
          return DependsOnDeferred;
        }
        assert Elements(path + [i]) == active;
        var w := Visit(d, path + [i]);
        if !w.Accepted? {
          return w;
        }
      }
      assert deps[..|deps|] == deps;
      FinishingExtends(g, order, i);
      assert Elements(order + [i]) == seen + {i};
      active := active - {i};
      seen := seen + {i};
      order := order + [i];
      return Accepted;
    }
  }

  // ---------------------------------------------------------------- the whole script

  /** `{t['id']: t for t in tasks}`. */
  function GraphOf(tasks: seq<Task>): (g: Graph)
    ensures g.Keys == set t | t in tasks :: t.id
    ensures forall i | i in g :: g[i] in tasks && g[i].id == i
  {
    if tasks == [] then map[]
    else
      var t := tasks[|tasks| - 1];
      assert tasks == tasks[..|tasks| - 1] + [t];
      GraphOf(tasks[..|tasks| - 1])[t.id := t]
  }

  ghost predicate DistinctIds(tasks: seq<Task>) {
    forall i, j | 0 <= i < j < |tasks| :: tasks[i].id != tasks[j].id
  }

  lemma DistinctLast(rest: seq<Task>, t: Task)
    ensures DistinctIds(rest + [t]) <==> DistinctIds(rest) && t.id !in GraphOf(rest)
  {
    hide GraphOf;
    var all := rest + [t];
    if DistinctIds(all) {
      forall i, j | 0 <= i < j < |rest|
        ensures rest[i].id != rest[j].id
      {
        assert all[i].id != all[j].id;
      }
      forall u | u in rest
        ensures u.id != t.id
      {
        var k :| 0 <= k < |rest| && rest[k] == u;
        assert all[k].id != all[|rest|].id;
      }
    }
    if DistinctIds(rest) && t.id !in GraphOf(rest) {
      forall i, j | 0 <= i < j < |all|
        ensures all[i].id != all[j].id
      {
        if j == |rest| {
          assert rest[i] in rest;
        } else {
          assert rest[i].id != rest[j].id;
        }
      }
    }
  }

  lemma GraphStep(rest: seq<Task>, t: Task)
    ensures GraphOf(rest + [t]) == GraphOf(rest)[t.id := t]
  {
    assert (rest + [t])[..|rest|] == rest;
  }

  lemma {:induction false} GraphSize(tasks: seq<Task>)
    ensures |GraphOf(tasks)| <= |tasks|
    ensures |GraphOf(tasks)| == |tasks| <==> DistinctIds(tasks)
    decreases |tasks|
  {
    hide DistinctIds, GraphOf;
    if tasks == [] {
      EmptyIsDistinct();
      EmptyGraph();
    } else {
      var rest, t := tasks[..|tasks| - 1], tasks[|tasks| - 1];
      assert tasks == rest + [t];
      GraphSize(rest);
      DistinctLast(rest, t);
      GraphStep(rest, t);
      AddedKey(GraphOf(rest), t.id, t);
    }
  }

  lemma AddedKey(g: Graph, i: Id, t: Task)
    ensures |g[i := t]| == if i in g then |g| else |g| + 1
  {
    assert g[i := t].Keys == g.Keys + {i};
  }

  lemma EmptyGraph()
    ensures GraphOf([]) == map[]
  {
  }

  /** With distinct ids the graph maps every id to its own task. */
  lemma GraphLookup(tasks: seq<Task>, t: Task)
    requires DistinctIds(tasks) && t in tasks
    ensures t.id in GraphOf(tasks) && GraphOf(tasks)[t.id] == t
  {
    var u := GraphOf(tasks)[t.id];
    var i :| 0 <= i < |tasks| && tasks[i] == t;
    var j :| 0 <= j < |tasks| && tasks[j] == u;
  }

  lemma EmptyIsDistinct()
    ensures DistinctIds([])
  {
  }

  /** What an accepted plan is meant to guarantee. */
  ghost predicate SoundPlan(tasks: seq<Task>, cards: set<Id>) {
    && DistinctIds(tasks) && GoodGraph(GraphOf(tasks))
    && (forall t | t in tasks :: t.id in cards && t.owner in {"Sol", "Terra", "Luna"})
  }

  /** The first `k` tasks have their cards and known owners. */
  ghost predicate Staffed(tasks: seq<Task>, cards: set<Id>, k: nat)
    requires k <= |tasks|
  {
    forall m | 0 <= m < k :: tasks[m].id in cards && tasks[m].owner in {"Sol", "Terra", "Luna"}
  }

  /** The script: it accepts exactly the sound plans, and every error exhibits its cause. */
  method Validate(tasks: seq<Task>, cards: set<Id>) returns (v: Verdict)
    ensures v.Accepted? <==> SoundPlan(tasks, cards)
    ensures v.DuplicateIds? <==> !DistinctIds(tasks)
    ensures v.CycleAt? || v.MissingDependency? || v.DependsOnDeferred? ==> Justified(GraphOf(tasks), v)
    ensures v.MissingCard? ==> exists k :: 0 <= k < |tasks| && tasks[k].id == v.id && v.id !in cards && Staffed(tasks, cards, k)
    ensures v.UnknownOwner? ==> exists k :: 0 <= k < |tasks| && tasks[k].id in cards && Staffed(tasks, cards, k)
                                            && tasks[k].owner !in {"Sol", "Terra", "Luna"}
  {
    hide GraphOf, DistinctIds, GoodGraph, Finishing, Distinct, Justified;
    var g := GraphOf(tasks);
    GraphSize(tasks);
    if |g| != |tasks| {
      return DuplicateIds;
    }
    var search := new Search(g);
    for k := 0 to |tasks|
      invariant search.Valid() && search.active == {}
      invariant search.g == g && Staffed(tasks, cards, k)
      invariant forall t | t in tasks[..k] :: t.id in search.seen && t.id in cards && t.owner in OWNERS
    {
      var t := tasks[k];
      assert t in tasks && tasks[..k + 1] == tasks[..k] + [t];
      v := search.Visit(t.id, []);
      if !v.Accepted? {
        JustifiedIsBad(g, v);
        return;
      }
      if t.id !in cards {
        return MissingCard(t.id);
      }
      if t.owner !in OWNERS {
        return UnknownOwner;
      }
    }
    assert tasks[..|tasks|] == tasks;
    FinishedIsGood(g, search.order);
    return Accepted;
  }
}
