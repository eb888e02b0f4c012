/** The ready-task selector, and the runs it induces when every selected task gets completed. */
module Scheduler {
  import opened Plan

  datatype Agent = AnyAgent | Only(owner: string)

  /** `{t['id'] for t in tasks if t['status'] == 'done'}`. */
  function DoneIds(tasks: seq<Task>): (r: set<Id>)
    ensures forall d :: d in r <==> exists t :: t in tasks && t.status == Done && t.id == d
  {
    set t | t in tasks && t.status == Done :: t.id
  }

  predicate IsReady(done: set<Id>, t: Task, agent: Agent) {
    && t.phase == SingleSpark && (t.status == Todo || t.status == Ready)
    && (forall d | d in t.dependsOn :: d in done)
    && (agent == AnyAgent || t.owner == agent.owner)
  }

  function Select(tasks: seq<Task>, done: set<Id>, agent: Agent): (r: seq<Task>)
    ensures forall t :: t in r <==>
        && t in tasks && t.phase == SingleSpark && t.status in {Todo, Ready}
        && (forall d | d in t.dependsOn :: d in done) && (agent.Only? ==> t.owner == agent.owner)
  {
    if tasks == [] then []
    else (if IsReady(done, tasks[0], agent) then [tasks[0]] else []) + Select(tasks[1..], done, agent)
  }

  /** `places` are the positions of the listed tasks: in increasing order, all of them, each once. */
  ghost predicate Lists(tasks: seq<Task>, done: set<Id>, agent: Agent, r: seq<Task>, places: seq<nat>) {
    && |places| == |r|
    && (forall k | 0 <= k < |r| :: places[k] < |tasks| && r[k] == tasks[places[k]])
    && (forall k, m | 0 <= k < m < |r| :: places[k] < places[m])
    && (forall n | 0 <= n < |tasks| :: n in places <==> IsReady(done, tasks[n], agent))
  }

  function Shift(places: seq<nat>): (r: seq<nat>)
    ensures |r| == |places| && forall k | 0 <= k < |r| :: r[k] == places[k] + 1
  {
    seq(|places|, k requires 0 <= k < |places| => places[k] + 1)
  }

  lemma ShiftMember(places: seq<nat>, n: nat)
    ensures n in Shift(places) <==> n > 0 && n - 1 in places
  {
    if n > 0 && n - 1 in places {
      var k :| 0 <= k < |places| && places[k] == n - 1;
      assert Shift(places)[k] == n;
    }
  }

  /** The list is the plan's own, in the plan's order, with the tasks that are not ready left out. */
  lemma {:induction false} SelectLists(tasks: seq<Task>, done: set<Id>, agent: Agent) returns (places: seq<nat>)
    ensures Lists(tasks, done, agent, Select(tasks, done, agent), places)
  {
    if tasks == [] {
      return [];
    }
    var rest := SelectLists(tasks[1..], done, agent);
    places := (if IsReady(done, tasks[0], agent) then [0] else []) + Shift(rest);
    ListsLonger(tasks, done, agent, Select(tasks[1..], done, agent), rest);
  }

  lemma ListsLonger(tasks: seq<Task>, done: set<Id>, agent: Agent, r: seq<Task>, rest: seq<nat>)
    requires tasks != [] && Lists(tasks[1..], done, agent, r, rest)
    ensures var ready := IsReady(done, tasks[0], agent);
            Lists(tasks, done, agent, (if ready then [tasks[0]] else []) + r, (if ready then [0] else []) + Shift(rest))
  {
    hide IsReady;
    var shifted := Shift(rest);
    forall k | 0 <= k < |r|
      ensures shifted[k] < |tasks| && r[k] == tasks[shifted[k]]
    {
      assert tasks[1..][rest[k]] == tasks[rest[k] + 1];
    }
    forall n | 0 < n < |tasks|
      ensures n in shifted <==> IsReady(done, tasks[n], agent)
    {
      ShiftMember(rest, n);
      assert tasks[1..][n - 1] == tasks[n];
    }
    ShiftMember(rest, 0);
    hide Shift;
    Prepend(tasks, done, agent, r, shifted);
  }

  /** Positions that list the tasks after the first, and the first task's own position. */
  lemma Prepend(tasks: seq<Task>, done: set<Id>, agent: Agent, r: seq<Task>, later: seq<nat>)
    requires tasks != [] && |later| == |r| && 0 !in later
    requires forall k | 0 <= k < |r| :: later[k] < |tasks| && r[k] == tasks[later[k]]
    requires forall k, m | 0 <= k < m < |r| :: later[k] < later[m]
    requires forall n | 0 < n < |tasks| :: n in later <==> IsReady(done, tasks[n], agent)
    ensures var ready := IsReady(done, tasks[0], agent);
            Lists(tasks, done, agent, (if ready then [tasks[0]] else []) + r, (if ready then [0] else []) + later)
  {
    hide IsReady;
    if IsReady(done, tasks[0], agent) {
      var places := [0] + later;
      forall n | 0 <= n < |tasks|
        ensures n in places <==> IsReady(done, tasks[n], agent)
      {
        assert n in places <==> n == 0 || n in later;
      }
    }
  }

  /** The list the command prints. */
  function ReadyTasks(tasks: seq<Task>, agent: Agent): seq<Task> {
    Select(tasks, DoneIds(tasks), agent)
  }

  predicate Unfinished(t: Task) {
    t.phase == SingleSpark && t.status != Done
  }

  /** Unfinished, but in a status the selector never picks. */
  predicate Stalled(t: Task) {
    Unfinished(t) && t.status.Other?
  }

  ghost predicate SoundTasks(tasks: seq<Task>) {
    DistinctIds(tasks) && GoodGraph(GraphOf(tasks))
  }

  // ---------------------------------------------------------------- when is the list empty

  /** A chain of unfinished tasks from `i` to a stalled one. */
  ghost predicate BlockedBy(g: Graph, w: seq<Id>, i: Id) {
    && Walk(g, w) && w[0] == i
    && (forall k | 0 <= k < |w| :: w[k] in g && Unfinished(g[w[k]]))
    && Stalled(g[w[|w| - 1]])
  }

  /** With an empty list, an unfinished task that is not stalled waits for another unfinished one. */
  lemma WaitsFor(tasks: seq<Task>, i: Id) returns (d: Id)
    requires GoodGraph(GraphOf(tasks)) && ReadyTasks(tasks, AnyAgent) == []
    requires i in GraphOf(tasks) && Unfinished(GraphOf(tasks)[i]) && !Stalled(GraphOf(tasks)[i])
    ensures Edge(GraphOf(tasks), i, d) && d in GraphOf(tasks) && Unfinished(GraphOf(tasks)[d])
  {
    hide GraphOf, Acyclic;
    var g := GraphOf(tasks);
    var t := g[i];
    assert t in tasks && t !in ReadyTasks(tasks, AnyAgent);
    d :| d in t.dependsOn && d !in DoneIds(tasks);
    assert Edge(g, i, d);
    assert g[d] in tasks && g[d].status != Done;
  }

  /** Following unfinished dependencies must end at a stalled task: a sound plan has no cycle. */
  lemma ChainEnds(tasks: seq<Task>, path: seq<Id>) returns (w: seq<Id>)
    requires GoodGraph(GraphOf(tasks)) && ReadyTasks(tasks, AnyAgent) == []
    requires Walk(GraphOf(tasks), path)
    requires forall k | 0 <= k < |path| :: path[k] in GraphOf(tasks) && Unfinished(GraphOf(tasks)[path[k]])
    ensures BlockedBy(GraphOf(tasks), w, path[0])
    decreases GraphOf(tasks).Keys - Elements(path)
  {
    hide GraphOf, ReadyTasks, Edge, Closed, PhasesRespected;
    var g := GraphOf(tasks);
    var i := path[|path| - 1];
    if Stalled(g[i]) {
      return path;
    }
    var d := WaitsFor(tasks, i);
    if d in path {
      ActiveCloses(g, path, d);
      assert false;
    }
    WalkExtends(g, path, d);
    assert Elements(path + [d]) == Elements(path) + {d};
    w := ChainEnds(tasks, path + [d]);
    assert (path + [d])[0] == path[0];
  }

  /** On a sound plan the ready list is empty exactly when every unfinished phase-1 task waits, through
      unfinished tasks, for a stalled one. */
  lemma EmptyExactlyWhenBlocked(tasks: seq<Task>, g: Graph)
    requires SoundTasks(tasks) && g == GraphOf(tasks)
    ensures ReadyTasks(tasks, AnyAgent) == []
            <==> forall t | t in tasks && Unfinished(t) :: exists w :: BlockedBy(g, w, t.id)
  {
    hide BlockedBy, SoundTasks;
    if ReadyTasks(tasks, AnyAgent) == [] {
      forall t | t in tasks && Unfinished(t)
        ensures exists w :: BlockedBy(g, w, t.id)
      {
        UnfinishedIsBlocked(tasks, g, t);
      }
    } else {
      var t := ReadyTasks(tasks, AnyAgent)[0];
      assert t in ReadyTasks(tasks, AnyAgent);
      assert t in tasks && Unfinished(t);
      forall w
        ensures !BlockedBy(g, w, t.id)
      {
        ReadyIsNotBlocked(tasks, t, w);
      }
    }
  }

  lemma UnfinishedIsBlocked(tasks: seq<Task>, g: Graph, t: Task)
    requires SoundTasks(tasks) && g == GraphOf(tasks) && ReadyTasks(tasks, AnyAgent) == []
    requires t in tasks && Unfinished(t)
    ensures exists w :: BlockedBy(g, w, t.id)
  {
    hide BlockedBy, DistinctIds, GoodGraph;
    GraphLookup(tasks, t);
    var w := ChainEnds(tasks, [t.id]);
  }

  lemma ReadyIsNotBlocked(tasks: seq<Task>, t: Task, w: seq<Id>)
    requires SoundTasks(tasks) && t in ReadyTasks(tasks, AnyAgent)
    ensures !BlockedBy(GraphOf(tasks), w, t.id)
  {
    hide GraphOf, DistinctIds, GoodGraph;
    var g := GraphOf(tasks);
    GraphLookup(tasks, t);
    if Walk(g, w) && |w| > 1 && w[0] == t.id {
      assert Edge(g, w[0], w[1]);
      var u :| u in tasks && u.status == Done && u.id == w[1];
      GraphLookup(tasks, u);
    }
  }

  /** Progress: without stalled tasks, something is ready while anything in phase 1 is unfinished. */
  lemma Progress(tasks: seq<Task>)
    requires SoundTasks(tasks) && forall t | t in tasks :: !Stalled(t)
    ensures ReadyTasks(tasks, AnyAgent) == [] <==> forall t | t in tasks :: !Unfinished(t)
  {
    EmptyExactlyWhenBlocked(tasks, GraphOf(tasks));
  }

  /** A plan where everything waits for a task in progress. */
  function Waiting(): seq<Task> {
    [Task("A", "Sol", SingleSpark, Other("in_progress"), []), Task("B", "Sol", SingleSpark, Todo, ["A"])]
  }

  lemma WaitingGraph()
    ensures GraphOf(Waiting()) == map["A" := Waiting()[0], "B" := Waiting()[1]] && DistinctIds(Waiting())
  {
    var tasks := Waiting();
    assert tasks[..1] == [tasks[0]] && tasks[..1][..0] == [];
    assert GraphOf(tasks[..1]) == map["A" := tasks[0]];
  }

  lemma WaitingSound()
    ensures SoundTasks(Waiting())
  {
    WaitingGraph();
    hide GraphOf, DistinctIds;
    var order := ["A", "B"];
    assert order[..1] == ["A"];
    FinishedIsGood(GraphOf(Waiting()), order);
  }

  /** The list can be empty while phase-1 work remains. */
  lemma EmptyWithWorkLeft()
    ensures SoundTasks(Waiting()) && ReadyTasks(Waiting(), AnyAgent) == [] && Unfinished(Waiting()[1])
  {
    WaitingSound();
    hide SoundTasks;
    var tasks := Waiting();
    assert tasks[1].dependsOn[0] == "A" && "A" !in DoneIds(tasks);
    assert !IsReady(DoneIds(tasks), tasks[0], AnyAgent) && !IsReady(DoneIds(tasks), tasks[1], AnyAgent);
    hide DoneIds, IsReady;
    assert forall t | t in tasks :: t == tasks[0] || t == tasks[1];
    assert forall t :: t !in ReadyTasks(tasks, AnyAgent);
  }

  // ---------------------------------------------------------------- runs

  function Complete(tasks: seq<Task>, i: nat): (r: seq<Task>)
    requires i < |tasks|
    ensures |r| == |tasks|
  {
    tasks[i := tasks[i].(status := Done)]
  }

  /** Each pick is ready, for some agent, when it is made; picked tasks get done. */
  ghost predicate FeasibleRun(tasks: seq<Task>, picks: seq<nat>)
    decreases |picks|
  {
    picks != [] ==>
      && picks[0] < |tasks|
      && (exists agent :: tasks[picks[0]] in ReadyTasks(tasks, agent))
      && FeasibleRun(Complete(tasks, picks[0]), picks[1..])
  }

  ghost function AfterRun(tasks: seq<Task>, picks: seq<nat>): (r: seq<Task>)
    requires FeasibleRun(tasks, picks)
    ensures |r| == |tasks|
    decreases |picks|
  {
    if picks == [] then tasks else AfterRun(Complete(tasks, picks[0]), picks[1..])
  }

  function CountUnfinished(tasks: seq<Task>): nat {
    if tasks == [] then 0 else (if Unfinished(tasks[0]) then 1 else 0) + CountUnfinished(tasks[1..])
  }

  lemma {:induction false} CompleteCounts(tasks: seq<Task>, i: nat)
    requires i < |tasks| && Unfinished(tasks[i])
    ensures CountUnfinished(Complete(tasks, i)) + 1 == CountUnfinished(tasks)
  {
    var t := tasks[i].(status := Done);
    if i == 0 {
      assert tasks[0 := t][1..] == tasks[1..];
    } else {
      CompleteCounts(tasks[1..], i - 1);
      assert tasks[i := t][1..] == tasks[1..][i - 1 := t];
    }
  }

  lemma {:induction false} CountZero(tasks: seq<Task>)
    ensures CountUnfinished(tasks) == 0 <==> forall t | t in tasks :: !Unfinished(t)
  {
    if tasks != [] {
      CountZero(tasks[1..]);
      assert tasks == [tasks[0]] + tasks[1..];
    }
  }

  /** Completing a task changes neither ids, phases nor dependencies. */
  ghost predicate SamePlan(tasks: seq<Task>, r: seq<Task>) {
    |tasks| == |r| && forall k | 0 <= k < |tasks| :: r[k] == tasks[k].(status := r[k].status)
  }

  lemma SamePlanIsSound(tasks: seq<Task>, r: seq<Task>)
    requires SoundTasks(tasks) && SamePlan(tasks, r)
    ensures SoundTasks(r)
  {
    assert DistinctIds(r);
    var g, h := GraphOf(tasks), GraphOf(r);
    forall i
      ensures i in g <==> i in h
      ensures i in g && i in h ==> g[i].dependsOn == h[i].dependsOn && g[i].phase == h[i].phase
    {
      SameEntry(tasks, r, i);
    }
    forall i, d
      ensures Edge(g, i, d) <==> Edge(h, i, d)
    {
    }
    forall w
      ensures !Cycle(h, w)
    {
      assert Walk(h, w) ==> Walk(g, w);
      assert !Cycle(g, w);
    }
    assert Closed(h) && PhasesRespected(h);
  }

  lemma SameEntry(tasks: seq<Task>, r: seq<Task>, i: Id)
    requires DistinctIds(tasks) && DistinctIds(r) && SamePlan(tasks, r)
    ensures i in GraphOf(tasks) <==> i in GraphOf(r)
    ensures i in GraphOf(tasks) ==>
        GraphOf(tasks)[i].dependsOn == GraphOf(r)[i].dependsOn && GraphOf(tasks)[i].phase == GraphOf(r)[i].phase
  {
    hide DistinctIds;
    if i in GraphOf(tasks) {
      var k :| 0 <= k < |tasks| && tasks[k] == GraphOf(tasks)[i];
      GraphLookup(r, r[k]);
    }
    if i in GraphOf(r) {
      var k :| 0 <= k < |r| && r[k] == GraphOf(r)[i];
      GraphLookup(tasks, tasks[k]);
    }
  }

  lemma PickIsReady(tasks: seq<Task>, i: nat)
    requires i < |tasks| && exists agent :: tasks[i] in ReadyTasks(tasks, agent)
    ensures Unfinished(tasks[i]) && forall d | d in tasks[i].dependsOn :: d in DoneIds(tasks)
  {
  }

  lemma CompleteStalled(tasks: seq<Task>, i: nat)
    requires i < |tasks| && forall t | t in tasks :: !Stalled(t)
    ensures forall t | t in Complete(tasks, i) :: !Stalled(t)
  {
    forall t | t in Complete(tasks, i)
      ensures !Stalled(t)
    {
      var k :| 0 <= k < |tasks| && Complete(tasks, i)[k] == t;
      assert tasks[k] in tasks;
    }
  }

  lemma SamePlanTransitive(a: seq<Task>, b: seq<Task>, c: seq<Task>)
    requires SamePlan(a, b) && SamePlan(b, c)
    ensures SamePlan(a, c)
  {
    forall k | 0 <= k < |a|
      ensures c[k] == a[k].(status := c[k].status)
    {
      assert b[k] == a[k].(status := b[k].status) && c[k] == b[k].(status := c[k].status);
    }
  }

  /** What every run keeps: the plan itself, and one task fewer to do per pick. */
  lemma {:induction false} RunKeeps(tasks: seq<Task>, picks: seq<nat>)
    requires FeasibleRun(tasks, picks)
    ensures SamePlan(tasks, AfterRun(tasks, picks))
    ensures CountUnfinished(AfterRun(tasks, picks)) + |picks| == CountUnfinished(tasks)
    ensures (forall t | t in tasks :: !Stalled(t)) ==> forall t | t in AfterRun(tasks, picks) :: !Stalled(t)
    decreases |picks|
  {
    if picks != [] {
      var next := Complete(tasks, picks[0]);
      PickIsReady(tasks, picks[0]);
      CompleteCounts(tasks, picks[0]);
      assert SamePlan(tasks, next);
      hide Complete, SamePlan, Unfinished, Stalled, ReadyTasks;
      RunKeeps(next, picks[1..]);
      SamePlanTransitive(tasks, next, AfterRun(tasks, picks));
      if forall t | t in tasks :: !Stalled(t) {
        CompleteStalled(tasks, picks[0]);
      }
    }
  }

  lemma {:induction false} PickIsNew(tasks: seq<Task>, picks: seq<nat>, k: nat)
    requires FeasibleRun(tasks, picks) && k < |picks|
    ensures picks[k] < |tasks| && Unfinished(tasks[picks[k]]) && picks[k] !in picks[..k]
    decreases |picks|
  {
    PickIsReady(tasks, picks[0]);
    hide ReadyTasks, DoneIds;
    if k > 0 {
      var (first, rest) := (picks[0], picks[1..]);
      PickIsNew(Complete(tasks, first), rest, k - 1);
      assert rest[k - 1] == picks[k] && rest[..k - 1] == picks[1..k];
      assert picks[..k] == [first] + picks[1..k];
    }
  }

  /** Dependency `d` was done at the start or picked before position `k`. */
  ghost predicate Provided(tasks: seq<Task>, picks: seq<nat>, k: nat, d: Id) {
    d in DoneIds(tasks) || exists j :: 0 <= j < k && j < |picks| && picks[j] < |tasks| && tasks[picks[j]].id == d
  }

  lemma ProvidedEarlier(tasks: seq<Task>, picks: seq<nat>, k: nat, d: Id)
    requires picks != [] && picks[0] < |tasks| && 0 < k && Provided(Complete(tasks, picks[0]), picks[1..], k - 1, d)
    ensures Provided(tasks, picks, k, d)
  {
    hide DoneIds;
    var (first, next, rest) := (picks[0], Complete(tasks, picks[0]), picks[1..]);
    if d in DoneIds(next) {
      DoneGrows(tasks, first, d);
    } else {
      var j :| 0 <= j < k - 1 && j < |rest| && rest[j] < |next| && next[rest[j]].id == d;
      assert picks[j + 1] == rest[j] && tasks[picks[j + 1]].id == d;
    }
  }

  lemma {:induction false} PickIsProvided(tasks: seq<Task>, picks: seq<nat>, k: nat, d: Id)
    requires FeasibleRun(tasks, picks) && k < |picks| && picks[k] < |tasks| && d in tasks[picks[k]].dependsOn
    ensures Provided(tasks, picks, k, d)
    decreases |picks|
  {
    PickIsReady(tasks, picks[0]);
    hide ReadyTasks, DoneIds;
    if k > 0 {
      assert picks[1..][k - 1] == picks[k];
      PickIsProvided(Complete(tasks, picks[0]), picks[1..], k - 1, d);
      ProvidedEarlier(tasks, picks, k, d);
    }
  }

  /** Safety: every run is a topological order of phase-1 work. Each pick is an unfinished phase-1 task,
      and each of its dependencies was done at the start or was picked earlier; so nothing deferred
      and nothing twice is ever picked. */
  lemma RunIsTopological(tasks: seq<Task>, picks: seq<nat>, k: nat)
    requires FeasibleRun(tasks, picks) && k < |picks|
    ensures picks[k] < |tasks| && Unfinished(tasks[picks[k]]) && picks[k] !in picks[..k]
    ensures forall d | d in tasks[picks[k]].dependsOn ::
        d in DoneIds(tasks) || exists j :: 0 <= j < k && picks[j] < |tasks| && tasks[picks[j]].id == d
  {
    hide FeasibleRun, DoneIds;
    PickIsNew(tasks, picks, k);
    forall d | d in tasks[picks[k]].dependsOn
      ensures Provided(tasks, picks, k, d)
    {
      PickIsProvided(tasks, picks, k, d);
    }
  }

  lemma DoneGrows(tasks: seq<Task>, i: nat, d: Id)
    requires i < |tasks| && d in DoneIds(Complete(tasks, i))
    ensures d in DoneIds(tasks) || d == tasks[i].id
  {
    var t :| t in Complete(tasks, i) && t.status == Done && t.id == d;
    var k :| 0 <= k < |tasks| && Complete(tasks, i)[k] == t;
    assert k != i ==> tasks[k] in tasks;
  }

  /** Liveness: on a sound plan without stalled tasks, a run that cannot be extended has finished all
      of phase 1, in exactly as many picks as there were unfinished phase-1 tasks. */
  lemma RunFinishes(tasks: seq<Task>, picks: seq<nat>)
    requires SoundTasks(tasks) && (forall t | t in tasks :: !Stalled(t)) && FeasibleRun(tasks, picks)
    ensures |picks| <= CountUnfinished(tasks)
    ensures ReadyTasks(AfterRun(tasks, picks), AnyAgent) == [] <==> |picks| == CountUnfinished(tasks)
    ensures |picks| == CountUnfinished(tasks) ==> forall t | t in AfterRun(tasks, picks) :: !Unfinished(t)
  {
    var r := AfterRun(tasks, picks);
    RunKeeps(tasks, picks);
    SamePlanIsSound(tasks, r);
    Progress(r);
    CountZero(r);
  }
}
