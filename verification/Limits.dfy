/**
 Requests at the limits of what a build promises: one that reports a cycle although task
 dependencies have none, and two whose tasks depend on the order they are listed in.
 */
module BuildLimits {
  import opened Actions
  import opened Digraph
  import opened Requests
  import opened Workspaces
  import opened Builds
  import opened Wiring
  import opened DirectScope
  import opened Delivery
  import opened GraphBuilder

  function Plain(deps: seq<Dep>, parallel: bool, runs: bool): Task {
    Task(0, deps, parallel, false, false, 0, 0, runs, [])
  }

  /** A workspace of three tasks, with the dependents of each. */
  function Three(a: Task, b: Task, c: Task, da: seq<Target>, db: seq<Target>, dc: seq<Target>, up: Scope, down: Scope): WorkspaceData {
    WorkspaceData(map[0 := a, 1 := b, 2 := c], map[0 := da, 1 := db, 2 := dc], map[0 := []], up, down, None, None, true, false, {}, false)
  }

  /** Dependencies that lead from smaller to larger numbers make a lawful workspace. */
  lemma ThreeLawful(a: Task, b: Task, c: Task, da: seq<Target>, db: seq<Target>, dc: seq<Target>, up: Scope, down: Scope)
    requires a.project == b.project == c.project == 0 && c.deps == []
    requires (forall d | d in a.deps :: 0 < d.target < 3) && (forall d | d in b.deps :: 1 < d.target < 3)
    requires (forall t | t in da :: t < 3) && (forall t | t in db :: t < 3) && (forall t | t in dc :: t < 3)
    ensures Three(a, b, c, da, db, dc, up, down).Valid() && Lawful(Three(a, b, c, da, db, dc, up, down))
  {
    AscendingIsAcyclic(Three(a, b, c, da, db, dc, up, down).Upward());
  }

  /** Builds a request from scratch and looks for the node of a task. */
  method RunAndLook(w: Workspace, targets: seq<Target>, t: Target) returns (ok: bool, has: bool, ghost lost: set<Target>)
    requires targets != [] && forall x | x in targets :: x in w.tasks
    ensures CyclesExplained(w, targets, ok)
    ensures ok ==> (has <==> Expected(w, SetOf(targets), Avoiding(w, lost), t))
    ensures ok ==> (forall x | x in lost :: Filtered(w, x)) && forall x | LostBehind(w, SetOf(targets), targets[0], x) :: x in lost
    ensures ok && Primary(w, SetOf(targets), targets[0]) && w.downstream.InScope(0) ==> targets[0] !in lost
  {
    var builder := new ActionGraphBuilder(w, SetOf(targets));
    ok := builder.RunTasks(targets);
    has := exists n :: n in builder.nodes && n.RunTask? && n.target == t;
    lost := builder.ledger.lost;
    if ok {
      assert has <==> HasTask(builder.State(), t);
    }
  }

  /** What follows a primary directly is expected, if it runs. */
  lemma FollowedOnce(w: Workspace, targets: set<Target>, follow: set<(Target, Target)>, p: Target, t: Target)
    requires Primary(w, targets, p) && (p, t) in follow && t in w.tasks && w.tasks[t].runs && !w.downstream.NoScope?
    ensures Expected(w, targets, follow, t)
  {
    ReachesEdge(follow, p, t);
    WantedIsExpected(w, targets, follow, t);
  }

  /** A task that is not requested and that nothing leads to is not expected. */
  lemma NotExpected(w: Workspace, targets: set<Target>, follow: set<(Target, Target)>, t: Target)
    requires t !in targets && (forall e | e in follow :: e.1 != t) && forall e | e in w.Running() :: e.1 != t
    ensures !Expected(w, targets, follow, t)
  {
    forall x: Target | Reaches(w.Running(), x, t) ensures x == t {
      if x != t {
        var y := ReachedHasIncoming(w.Running(), x, t);
      }
    }
    forall x: Target | Reaches(follow, x, t) ensures x == t {
      if x != t {
        var y := ReachedHasIncoming(follow, x, t);
      }
    }
  }

  /** Task 0 runs 1 and then 2, and 1 depends on 2. */
  method SerialWorkspace() returns (w: Workspace)
    ensures Lawful(w) && w.upstream.Direct? && w.tasks.Keys == {0, 1, 2} && w.skipAffected
    ensures forall t | t in w.tasks :: w.tasks[t].runs && (w.tasks[t].parallel <==> t != 0)
    ensures Needed(w, 0) == [w.TaskNode(1, 0), w.TaskNode(2, 0)] && Needed(w, 1) == [w.TaskNode(2, 0)]
  {
    var a, b, c := Plain([Dep(1, 0), Dep(2, 0)], false, true), Plain([Dep(2, 0)], true, true), Plain([], true, true);
    ThreeLawful(a, b, c, [], [0], [0, 1], Direct, NoScope);
    w := Three(a, b, c, [], [0], [0, 1], Direct, NoScope);
    assert RunnableNodes(w, w.tasks[0].deps, 1) == [w.TaskNode(1, 0)];
    assert RunnableNodes(w, w.tasks[1].deps, 1) == [w.TaskNode(2, 0)];
  }

  /** The request [0, 1] is simple, and 1 comes before 2 for the sake of 0. */
  lemma SerialClash(w: Workspace)
    requires w.tasks.Keys == {0, 1, 2} && w.skipAffected
    requires forall t | t in w.tasks :: w.tasks[t].runs && (w.tasks[t].parallel <==> t != 0)
    requires Needed(w, 0) == [w.TaskNode(1, 0), w.TaskNode(2, 0)] && Needed(w, 1) == [w.TaskNode(2, 0)]
    ensures Simple(w, [0, 1], 2) && Clashes(w, SetOf([0, 1]), [0, 1][..1], [0, 1][1])
  {
    assert SetOf([0, 1]) == {0, 1};
    assert [0, 1][..1] == [0] && [0, 1][..0] == [];
    assert SimpleNext(w, {0, 1}, [], 0) && SimpleNext(w, {0, 1}, [0], 1);
    var edges := PlannedEdges(w, {0, 1}, [0]);
    assert LinkAt(Needed(w, 0), 1) in LinksOf(Needed(w, 0));
    assert (w.TaskNode(2, 0), w.TaskNode(1, 0)) in edges;
    ReachesEdge(edges, w.TaskNode(2, 0), w.TaskNode(1, 0));
    assert w.TaskNode(2, 0) in Needed(w, 1);
  }

  lemma SerialOrder(w: Workspace)
    requires w.tasks.Keys == {0, 1, 2} && forall t | t in w.tasks :: w.tasks[t].parallel <==> t != 0
    ensures Orderly(w, [1, 0])
  {
    assert [1, 0][..1] == [1] && [1, 0][..0] == [];
    assert !SerialBefore(w, SetOf([1, 0]), [1]);
  }

  /** With a direct scope, listing a task after a serial one that depends on it reports a cycle that is not there. */
  method ListedAfterSerial() returns (after: bool, before: bool)
    ensures !after && before
  {
    var w := SerialWorkspace();
    SerialClash(w);
    var has;
    ghost var lost;
    after, has, lost := RunAndLook(w, [0, 1], 0);
    SerialOrder(w);
    before, has, lost := RunAndLook(w, [1, 0], 0);
  }

  /** Tasks 0 and 1 depend on 2, which is filtered out in CI. */
  method FilteredWorkspace() returns (w: Workspace)
    ensures Lawful(w) && w.upstream.Deep? && w.downstream.Deep? && w.tasks.Keys == {0, 1, 2} && w.skipAffected
    ensures forall t | t in w.tasks :: w.tasks[t].runs <==> t != 2
    ensures (0, 2) in w.Upward() && (2, 1) in w.Following() && (forall e | e in w.Following() :: e.0 == 2) && w.Running() == {}
  {
    var a, c := Plain([Dep(2, 0)], true, true), Plain([], true, false);
    ThreeLawful(a, a, c, [], [], [0, 1], Deep, Deep);
    w := Three(a, a, c, [], [], [0, 1], Deep, Deep);
  }

  /** A filtered task that is met as a dependency first is lost: its other dependents do not run. */
  method FilteredDependency() returns (first: bool, second: bool)
    ensures first && !second
  {
    var w := FilteredWorkspace();
    var ok;
    ghost var lost;
    ok, first, lost := RunAndLook(w, [2, 0], 1);
    FollowedOnce(w, SetOf([2, 0]), Avoiding(w, lost), 2, 1);
    ok, second, lost := RunAndLook(w, [0, 2], 1);
    ReachesSelf(w.Running(), 0);
    assert LostBehind(w, SetOf([0, 2]), 0, 2);
    NotExpected(w, SetOf([0, 2]), Avoiding(w, lost), 1);
  }

  /** Task 1 depends on 2 and is filtered out in CI, and 0 depends on 1. */
  method FilteredChain() returns (w: Workspace)
    ensures Lawful(w) && w.upstream.NoScope? && w.downstream.Direct? && w.tasks.Keys == {0, 1, 2} && w.skipAffected
    ensures forall t | t in w.tasks :: w.tasks[t].runs <==> t != 1
    ensures (2, 1) in w.Following() && (1, 0) in w.Following() && (forall e | e in w.Following() :: e.0 == e.1 + 1) && w.Running() == {}
  {
    var a, b, c := Plain([Dep(1, 0)], true, true), Plain([Dep(2, 0)], true, false), Plain([], true, true);
    ThreeLawful(a, b, c, [], [0], [1], NoScope, Direct);
    w := Three(a, b, c, [], [0], [1], NoScope, Direct);
  }

  /** With a direct scope, a filtered task that is met as a dependent first is lost, though it is requested itself. */
  method FilteredDependent() returns (first: bool, second: bool)
    ensures first && !second
  {
    var w := FilteredChain();
    var ok;
    ghost var lost;
    ok, first, lost := RunAndLook(w, [1, 2], 0);
    FollowedOnce(w, SetOf([1, 2]), Avoiding(w, lost), 1, 0);
    ok, second, lost := RunAndLook(w, [2, 1], 0);
    assert LostBehind(w, SetOf([2, 1]), 2, 1);
    NotExpected(w, SetOf([2, 1]), Avoiding(w, lost), 0);
  }
}
