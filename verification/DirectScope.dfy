/**
 Direct upstream scope: a task may be created as a dependency of one target and linked to its own
 dependencies when its turn as a target comes. Which requests report a cycle then can be told
 from the request.
 */
module DirectScope {
  import opened Actions
  import opened Digraph
  import opened Requests
  import opened Workspaces
  import opened Builds
  import opened Wiring

  // ---- Requests whose build cannot fail ----

  /** Some earlier target is linked to its dependencies and lists `t` among them. */
  ghost predicate Exposed(w: Workspace, targets: set<Target>, earlier: seq<Target>, t: Target)
    requires t in w.tasks
  {
    exists p | p in earlier :: RunsAsPrimary(w, targets, p) && w.TaskNode(t, 0) in Needed(w, p)
  }

  /** Some earlier target runs its dependencies one after the other. */
  ghost predicate SerialBefore(w: Workspace, targets: set<Target>, earlier: seq<Target>) {
    exists p | p in earlier :: RunsAsPrimary(w, targets, p) && !w.tasks[p].parallel
  }

  /**
   No target is listed after one that depends on it, unless all those before run their dependencies
   in parallel.
   */
  ghost predicate Orderly(w: Workspace, targets: seq<Target>)
  {
    var all := SetOf(targets);
    forall i | 0 <= i < |targets| && RunsAsPrimary(w, all, targets[i]) && targets[i] !in targets[..i] ::
      !Exposed(w, all, targets[..i], targets[i]) || !SerialBefore(w, all, targets[..i])
  }

  /** Edges into tasks come from targets that were visited, and serial ones from serial targets. */
  ghost predicate Traced(w: Workspace, targets: set<Target>, earlier: seq<Target>, b: Build)
  {
    && (forall e | e in b.edges && e.1.RunTask? :: exists p | p in earlier :: RunsAsPrimary(w, targets, p) && e.1 in Needed(w, p))
    && (b.serialEdges != {} ==> SerialBefore(w, targets, earlier))
  }

  lemma TracedMore(w: Workspace, targets: set<Target>, earlier: seq<Target>, t: Target, b: Build, b': Build)
    requires t in w.tasks && t in targets && w.upstream.Direct?
    requires Traced(w, targets, earlier, b) && Wires(w, b, b', Root(w, t))
    ensures Traced(w, targets, earlier + [t], b')
  {
    forall e | e in b'.edges && e.1.RunTask?
      ensures exists p | p in earlier + [t] :: RunsAsPrimary(w, targets, p) && e.1 in Needed(w, p)
    {
      if e in b.edges {
        var p :| p in earlier && RunsAsPrimary(w, targets, p) && e.1 in Needed(w, p);
        assert p in earlier + [t];
      } else {
        assert t in earlier + [t] && e.1 in Needed(w, t);
      }
    }
    if b'.serialEdges != {} {
      if b'.serialEdges == b.serialEdges {
        var p :| p in earlier && RunsAsPrimary(w, targets, p) && !w.tasks[p].parallel;
        assert p in earlier + [t];
      } else {
        assert t in earlier + [t];
      }
    }
  }

  lemma TracedNext(w: Workspace, targets: seq<Target>, i: nat, b: Build, b': Build)
    requires i < |targets| && targets[i] in w.tasks && w.upstream.Direct?
    requires Traced(w, SetOf(targets), targets[..i], b) && Wires(w, b, b', Root(w, targets[i]))
    ensures Traced(w, SetOf(targets), targets[..i + 1], b')
  {
    assert targets[..i + 1] == targets[..i] + [targets[i]];
    TracedMore(w, SetOf(targets), targets[..i], targets[i], b, b');
  }

  /** Without serial edges the graph only follows task dependencies. */
  lemma UnserialReach(w: Workspace, b: Build, x: ActionNode, y: ActionNode)
    requires WellFormed(w, b) && b.serialEdges == {} && x.RunTask? && y.RunTask? && Reaches(b.edges, x, y)
    ensures Reaches(w.Upward(), x.target, y.target)
  {
    var members := iset z: ActionNode | z.RunTask? ==> Reaches(w.Upward(), x.target, z.target);
    forall u, v | (u, v) in b.edges && u in members ensures v in members {
      if v.RunTask? {
        NeededIsBelow(w, u.target, v);
        ReachesSnoc(w.Upward(), x.target, u.target, v.target);
      }
    }
    ReachesSelf(w.Upward(), x.target);
    ReachesStaysIn(b.edges, x, y, members);
  }

  lemma UnserialNotReached(w: Workspace, b: Build, node: ActionNode)
    requires WellFormed(w, b) && b.serialEdges == {} && Lawful(w) && node.RunTask?
    ensures !Reached(w, b.edges, node)
  {
    assert !StrictlyReaches(w.Upward(), node.target, node.target);
    forall x | x in Needed(w, node.target) ensures !Reaches(b.edges, x, node) {
      NeededIsBelow(w, node.target, x);
      if Reaches(b.edges, x, node) {
        UnserialReach(w, b, x, node);
      }
    }
  }

  /** The next target of an orderly request is not reached. */
  lemma OrderlyNotReached(w: Workspace, targets: seq<Target>, i: nat, b: Build)
    requires WellFormed(w, b) && Lawful(w) && i < |targets| && Orderly(w, targets)
    requires var all := SetOf(targets);
      RunsAsPrimary(w, all, targets[i]) && targets[i] !in targets[..i] && Traced(w, all, targets[..i], b)
    ensures !Reached(w, b.edges, w.TaskNode(targets[i], 0))
  {
    var all := SetOf(targets);
    if SerialBefore(w, all, targets[..i]) {
      assert !Exposed(w, all, targets[..i], targets[i]);
      FreshNotReached(w, b, w.TaskNode(targets[i], 0));
    } else {
      UnserialNotReached(w, b, w.TaskNode(targets[i], 0));
    }
  }

  // ---- Exactly which requests fail ----

  ghost predicate Distinct(nodes: seq<ActionNode>) {
    forall i, j | 0 <= i < j < |nodes| :: nodes[i] != nodes[j]
  }

  function LinkAt(chain: seq<ActionNode>, k: nat): Edge
    requires 0 < k < |chain|
  {
    (chain[k], chain[k - 1])
  }

  /** Each node requires the one before it. */
  ghost function LinksOf(chain: seq<ActionNode>): set<Edge> {
    set k | 0 < k < |chain| :: LinkAt(chain, k)
  }

  /** What the targets require, and in what order their serial dependencies run. */
  ghost function PlannedEdges(w: Workspace, all: set<Target>, targets: seq<Target>): set<Edge>
  {
    (set p, x | p in targets && RunsAsPrimary(w, all, p) && x in Needed(w, p) :: (w.TaskNode(p, 0), x)) +
    (set p, e | p in targets && RunsAsPrimary(w, all, p) && !w.tasks[p].parallel && e in LinksOf(Needed(w, p)) :: e)
  }

  /** The dependencies of a task are distinct, and nothing planned so far leads out of them. */
  ghost predicate Unlinked(w: Workspace, all: set<Target>, earlier: seq<Target>, t: Target)
  {
    Distinct(Needed(w, t)) && forall e | e in PlannedEdges(w, all, earlier) :: e.0 !in Needed(w, t)
  }

  /** The target is not a repetition, and if it is serial, its dependencies are not linked yet. */
  ghost predicate SimpleNext(w: Workspace, all: set<Target>, earlier: seq<Target>, t: Target)
  {
    t !in earlier && (RunsAsPrimary(w, all, t) && !w.tasks[t].parallel ==> Unlinked(w, all, earlier, t))
  }

  /**
   Of the first `n` targets none is repeated, and the dependencies of a serial one are not linked by targets before it:
   none of them is such a target with dependencies, or comes later in the order of a serial one.
   */
  ghost predicate Simple(w: Workspace, targets: seq<Target>, n: nat)
    requires n <= |targets|
  {
    forall i | 0 <= i < n :: SimpleAt(w, targets, i)
  }

  ghost predicate SimpleAt(w: Workspace, targets: seq<Target>, i: nat)
    requires i < |targets|
  {
    SimpleNext(w, SetOf(targets), targets[..i], targets[i])
  }

  ghost function TaskEdges(b: Build): set<Edge> {
    set e | e in b.edges && e.1.RunTask?
  }

  /** The edges into tasks are the planned ones. */
  ghost predicate AsPlanned(w: Workspace, all: set<Target>, targets: seq<Target>, b: Build)
  {
    TaskEdges(b) == PlannedEdges(w, all, targets)
  }

  /** No edge leads from a dependency to a task yet. */
  ghost predicate Bare(b: Build, chain: seq<ActionNode>) {
    forall e | e in b.edges && e.1.RunTask? :: e.0 !in chain
  }

  lemma UnlinkedIsBare(w: Workspace, all: set<Target>, earlier: seq<Target>, t: Target, b: Build)
    requires Unlinked(w, all, earlier, t) && AsPlanned(w, all, earlier, b)
    ensures Bare(b, Needed(w, t))
  {
    forall e | e in b.edges && e.1.RunTask? ensures e.0 !in Needed(w, t) {
      assert e in TaskEdges(b);
    }
  }

  lemma NotNeededByItself(w: Workspace, t: Target)
    requires Lawful(w) && t in w.tasks
    ensures forall x | x in Needed(w, t) :: x.RunTask? && x.target != t
  {
    assert !StrictlyReaches(w.Upward(), t, t);
    ReachesSelf(w.Upward(), t);
    forall x | x in Needed(w, t) ensures x.RunTask? && x.target != t {
      NeededIsBelow(w, t, x);
    }
  }

  /** An edge that a serial target adds leads from it to a dependency, or between consecutive ones. */
  lemma AddedEdge(w: Workspace, b: Build, b': Build, t: Target, e: Edge)
    requires t in w.tasks && !w.upstream.Deep? && Bare(b, Needed(w, t))
    requires Roots(w, b, b', w.TaskNode(t, 0)) && e in b'.edges && e !in b.edges && e.1.RunTask?
    ensures (e.0 == w.TaskNode(t, 0) && e.1 in Needed(w, t)) || (!w.tasks[t].parallel && e in LinksOf(Needed(w, t)))
  {
    var chain := Needed(w, t);
    if !(e.0 == w.TaskNode(t, 0) && e.1 in chain) {
      var k :| 0 < k < |chain| && SerialAt(WalkEdges(b), chain, e, k);
      ReachesSplit(WalkEdges(b), chain[k], e.0);
      assert chain[k] in chain && e == LinkAt(chain, k);
    }
  }

  /** What leads from one of the first dependencies to a task leads to one of them. */
  lemma ChainStep(w: Workspace, b: Build, b': Build, t: Target, k: nat, u: ActionNode, v: ActionNode)
    requires t in w.tasks && Lawful(w) && !w.upstream.Deep? && Distinct(Needed(w, t)) && k < |Needed(w, t)|
    requires Bare(b, Needed(w, t)) && Roots(w, b, b', w.TaskNode(t, 0)) && (u, v) in b'.edges && v.RunTask?
    requires u in Needed(w, t)[..k]
    ensures v in Needed(w, t)[..k]
  {
    var chain := Needed(w, t);
    NotNeededByItself(w, t);
    assert u in chain && (u, v) !in b.edges;
    AddedEdge(w, b, b', t, (u, v));
    var i :| 0 < i < |chain| && (u, v) == LinkAt(chain, i);
    var j :| 0 <= j < k && chain[..k][j] == u;
    assert i == j;
    assert chain[..k][i - 1] == v;
  }

  /** A serial target whose dependencies are not linked yet makes each require the one before it. */
  lemma ChainIsTight(w: Workspace, b: Build, b': Build, t: Target, k: nat)
    requires t in w.tasks && Lawful(w) && !w.upstream.Deep? && Distinct(Needed(w, t)) && 0 < k < |Needed(w, t)|
    requires Bare(b, Needed(w, t)) && Roots(w, b, b', w.TaskNode(t, 0)) && WellFormed(w, b') && Chained(b'.edges, Needed(w, t))
    ensures (Needed(w, t)[k], Needed(w, t)[k - 1]) in b'.edges
  {
    var chain := Needed(w, t);
    var members := iset z | z in chain[..k] || !z.RunTask?;
    forall u, v | (u, v) in b'.edges && u in members ensures v in members {
      if v.RunTask? {
        ChainStep(w, b, b', t, k, u, v);
      }
    }
    assert ChainedAt(b'.edges, chain, k);
    NotNeededByItself(w, t);
    assert chain[k] !in members by {
      assert chain[k] in chain;
    }
    if Reaches(b'.edges, chain[k - 1], chain[k]) {
      assert chain[..k][k - 1] == chain[k - 1];
      ReachesStaysIn(b'.edges, chain[k - 1], chain[k], members);
    }
  }

  lemma PlannedMore(w: Workspace, all: set<Target>, earlier: seq<Target>, t: Target, e: Edge)
    requires t in w.tasks
    ensures e in PlannedEdges(w, all, earlier + [t]) <==>
      || e in PlannedEdges(w, all, earlier)
      || (RunsAsPrimary(w, all, t) && ((e.0 == w.TaskNode(t, 0) && e.1 in Needed(w, t)) || (!w.tasks[t].parallel && e in LinksOf(Needed(w, t)))))
  {
    if e in PlannedEdges(w, all, earlier) {
      assert forall p | p in earlier :: p in earlier + [t];
    }
    assert t in earlier + [t];
  }

  /** One more target adds the edges that are planned for it. */
  lemma AsPlannedMore(w: Workspace, all: set<Target>, earlier: seq<Target>, t: Target, b: Build, b': Build)
    requires t in w.tasks && t in all && Lawful(w) && w.upstream.Direct? && AsPlanned(w, all, earlier, b)
    requires RunsAsPrimary(w, all, t) && !w.tasks[t].parallel ==> Unlinked(w, all, earlier, t)
    requires WellFormed(w, b') && Wires(w, b, b', Root(w, t)) && (RunsAsPrimary(w, all, t) ==> Expanded(w, b', w.TaskNode(t, 0)))
    ensures AsPlanned(w, all, earlier + [t], b')
  {
    forall e ensures e in TaskEdges(b') <==> e in PlannedEdges(w, all, earlier + [t]) {
      PlannedMore(w, all, earlier, t, e);
      assert e in TaskEdges(b) <==> e in PlannedEdges(w, all, earlier);
      if RunsAsPrimary(w, all, t) {
        AddsPlanned(w, all, earlier, t, b, b', e);
      }
    }
  }

  lemma AddsPlanned(w: Workspace, all: set<Target>, earlier: seq<Target>, t: Target, b: Build, b': Build, e: Edge)
    requires Lawful(w) && w.upstream.Direct? && AsPlanned(w, all, earlier, b) && RunsAsPrimary(w, all, t)
    requires !w.tasks[t].parallel ==> Unlinked(w, all, earlier, t)
    requires WellFormed(w, b') && Roots(w, b, b', w.TaskNode(t, 0)) && Expanded(w, b', w.TaskNode(t, 0))
    ensures e in b'.edges && e.1.RunTask? <==>
      || (e in b.edges && e.1.RunTask?)
      || (e.0 == w.TaskNode(t, 0) && e.1 in Needed(w, t)) || (!w.tasks[t].parallel && e in LinksOf(Needed(w, t)))
  {
    NotNeededByItself(w, t);
    if !w.tasks[t].parallel {
      UnlinkedIsBare(w, all, earlier, t, b);
      if e in b'.edges && e !in b.edges && e.1.RunTask? {
        AddedEdge(w, b, b', t, e);
      }
      if e in LinksOf(Needed(w, t)) {
        var k :| 0 < k < |Needed(w, t)| && e == LinkAt(Needed(w, t), k);
        ChainIsTight(w, b, b', t, k);
      }
    }
  }

  /** Reachability between tasks needs edges into tasks only. */
  lemma TaskReach(w: Workspace, b: Build, x: ActionNode, y: ActionNode)
    requires WellFormed(w, b) && x.RunTask? && y.RunTask?
    ensures Reaches(b.edges, x, y) <==> Reaches(TaskEdges(b), x, y)
  {
    var edges := TaskEdges(b);
    if Reaches(edges, x, y) {
      ReachesMono(edges, b.edges, x, y);
    }
    if Reaches(b.edges, x, y) {
      var members := iset z: ActionNode | z.RunTask? ==> Reaches(edges, x, z);
      forall u, v | (u, v) in b.edges && u in members ensures v in members {
        if v.RunTask? {
          assert (u, v) in edges;
          ReachesSnoc(edges, x, u, v);
        }
      }
      ReachesSelf(edges, x);
      ReachesStaysIn(b.edges, x, y, members);
    }
  }

  /** Whether a target is reached shows in the plan of the targets before it. */
  lemma ReachedAsPlanned(w: Workspace, all: set<Target>, earlier: seq<Target>, b: Build, node: ActionNode)
    requires WellFormed(w, b) && AsPlanned(w, all, earlier, b) && node.RunTask?
    ensures Reached(w, b.edges, node) <==> Reached(w, PlannedEdges(w, all, earlier), node)
  {
    forall x | x in Needed(w, node.target)
      ensures Reaches(b.edges, x, node) <==> Reaches(PlannedEdges(w, all, earlier), x, node)
    {
      NeededIsBelow(w, node.target, x);
      TaskReach(w, b, x, node);
    }
  }

  /** Something that the target needs comes after it in the plan of the targets before it. */
  ghost predicate Clashes(w: Workspace, all: set<Target>, earlier: seq<Target>, t: Target)
  {
    RunsAsPrimary(w, all, t) && Reached(w, PlannedEdges(w, all, earlier), w.TaskNode(t, 0))
  }

  lemma ReachedMono(w: Workspace, edges: set<Edge>, more: set<Edge>, node: ActionNode)
    requires node.RunTask? && edges <= more && Reached(w, edges, node)
    ensures Reached(w, more, node)
  {
    var x :| x in Needed(w, node.target) && Reaches(edges, x, node);
    ReachesMono(edges, more, x, node);
  }

  ghost predicate HasAll(edges: set<Edge>, some: set<Edge>) {
    edges + some == edges
  }

  lemma PlannedNothing(w: Workspace, all: set<Target>)
    ensures PlannedEdges(w, all, []) == {}
  {
  }

  /** How long the simple beginning of the request is that has simple positions from `i` on. */
  ghost function SimpleFrom(w: Workspace, targets: seq<Target>, i: nat): (n: nat)
    requires i <= |targets|
    ensures i <= n <= |targets|
    decreases |targets| - i
  {
    if i < |targets| && SimpleAt(w, targets, i) then SimpleFrom(w, targets, i + 1) else i
  }

  /** Exactly the beginnings up to that length are simple. */
  lemma {:induction false} SimpleUpTo(w: Workspace, targets: seq<Target>, i: nat, n: nat)
    requires i <= |targets| && n <= |targets| && Simple(w, targets, i)
    ensures Simple(w, targets, n) <==> n <= SimpleFrom(w, targets, i)
    decreases |targets| - i
  {
    if i < |targets| && SimpleAt(w, targets, i) {
      SimpleUpTo(w, targets, i + 1, n);
    } else if i < n {
      assert !SimpleAt(w, targets, i);
    }
  }

  /**
   After the first `n` targets, the edges into tasks are the planned ones if these targets are simple. If not,
   those planned for the longest simple beginning are among the edges.
   */
  ghost predicate PlansKept(w: Workspace, targets: seq<Target>, n: nat, b: Build)
    requires n <= |targets|
  {
    var m := SimpleFrom(w, targets, 0);
    if n <= m then AsPlanned(w, SetOf(targets), targets[..n], b)
    else HasAll(b.edges, PlannedEdges(w, SetOf(targets), targets[..m]))
  }

  lemma PlanNext(w: Workspace, targets: seq<Target>, n: nat, b: Build, b': Build)
    requires n < |targets| && targets[n] in w.tasks && Lawful(w) && w.upstream.Direct? && SimpleAt(w, targets, n)
    requires AsPlanned(w, SetOf(targets), targets[..n], b)
    requires WellFormed(w, b') && Wires(w, b, b', Root(w, targets[n]))
    requires RunsAsPrimary(w, SetOf(targets), targets[n]) ==> Expanded(w, b', w.TaskNode(targets[n], 0))
    ensures AsPlanned(w, SetOf(targets), targets[..n + 1], b')
  {
    AsPlannedMore(w, SetOf(targets), targets[..n], targets[n], b, b');
    TakeMore(targets, n);
  }

  lemma TakeMore<T>(s: seq<T>, n: nat)
    requires n < |s|
    ensures s[..n + 1] == s[..n] + [s[n]]
  {
  }

  /** One more target was run. */
  lemma PlansMore(w: Workspace, targets: seq<Target>, n: nat, b: Build, b': Build)
    requires n < |targets| && targets[n] in w.tasks && Lawful(w) && w.upstream.Direct? && PlansKept(w, targets, n, b)
    requires WellFormed(w, b') && b.edges <= b'.edges && Wires(w, b, b', Root(w, targets[n]))
    requires RunsAsPrimary(w, SetOf(targets), targets[n]) ==> Expanded(w, b', w.TaskNode(targets[n], 0))
    ensures PlansKept(w, targets, n + 1, b')
  {
    var m := SimpleFrom(w, targets, 0);
    SimpleUpTo(w, targets, 0, n + 1);
    if n + 1 <= m {
      assert SimpleAt(w, targets, n);
      PlanNext(w, targets, n, b, b');
    } else {
      if n == m {
        PlannedAreIn(w, SetOf(targets), targets[..n], b);
      }
      HasAllMore(b.edges, b'.edges, PlannedEdges(w, SetOf(targets), targets[..m]));
    }
  }

  lemma HasAllMore(edges: set<Edge>, more: set<Edge>, some: set<Edge>)
    requires HasAll(edges, some) && edges <= more
    ensures HasAll(more, some)
  {
    assert forall e | e in some :: e in edges + some;
  }

  lemma PlannedAreIn(w: Workspace, all: set<Target>, targets: seq<Target>, b: Build)
    requires AsPlanned(w, all, targets, b)
    ensures HasAll(b.edges, PlannedEdges(w, all, targets))
  {
    assert TaskEdges(b) <= b.edges;
  }

  lemma PlannedFirst(w: Workspace, targets: seq<Target>, i: nat, n: nat)
    requires i <= n <= |targets|
    ensures PlannedEdges(w, SetOf(targets), targets[..i]) <= PlannedEdges(w, SetOf(targets), targets[..n])
  {
    assert forall p | p in targets[..i] :: p in targets[..n];
  }

  /** A target that clashes with a simple beginning of the request is never linked. */
  lemma LinkedNeverClashed(w: Workspace, targets: seq<Target>, n: nat, b: Build, i: nat, t: Target)
    requires WellFormed(w, b) && n <= |targets| && PlansKept(w, targets, n, b) && i <= n
    requires Simple(w, targets, i) && t in w.tasks && Linked(w, b, w.TaskNode(t, 0))
    ensures !Clashes(w, SetOf(targets), targets[..i], t)
  {
    var m := SimpleFrom(w, targets, 0);
    SimpleUpTo(w, targets, 0, i);
    LinkedNotReached(w, b, w.TaskNode(t, 0));
    if Clashes(w, SetOf(targets), targets[..i], t) {
      var k := if n <= m then n else m;
      PlannedFirst(w, targets, i, k);
      if n <= m {
        PlannedAreIn(w, SetOf(targets), targets[..n], b);
      }
      assert PlannedEdges(w, SetOf(targets), targets[..k]) <= b.edges + PlannedEdges(w, SetOf(targets), targets[..k]);
      ReachedMono(w, PlannedEdges(w, SetOf(targets), targets[..i]), b.edges, w.TaskNode(t, 0));
    }
  }
}
