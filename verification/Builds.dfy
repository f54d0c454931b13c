/**
 The state of the action graph builder and what must hold of it.
 */
module Builds {
  import opened Actions
  import opened Digraph
  import opened Requests
  import opened Workspaces

  type Edge = (ActionNode, ActionNode)

  /** A node is inserted at most once, so it is named by its contents rather than by its index. */
  datatype Build = Build(
    nodes: set<ActionNode>,
    edges: set<Edge>,
    serialEdges: set<Edge>,
    ignoredDependencies: set<Target>,
    ignoredDependents: set<Target>,
    passthrough: set<Target>)

  // ---- Shape of the graph ----

  /** The nodes of those among the first `n` dependencies that are not filtered out in CI, in order. */
  function RunnableNodes(w: Workspace, deps: seq<Dep>, n: nat): seq<ActionNode>
    requires n <= |deps| && forall d | d in deps :: d.target in w.tasks
  {
    if n == 0 then []
    else
      var d := deps[n - 1];
      RunnableNodes(w, deps, n - 1) + if w.tasks[d.target].runs then [w.TaskNode(d.target, d.config)] else []
  }

  /** What a task requires: the nodes of its runnable dependencies, in order. */
  ghost function Needed(w: Workspace, t: Target): seq<ActionNode>
  {
    if t in w.tasks then RunnableNodes(w, w.tasks[t].deps, |w.tasks[t].deps|) else []
  }

  lemma {:induction false} RunnableNodesAre(w: Workspace, deps: seq<Dep>, n: nat, x: ActionNode)
    requires n <= |deps| && forall d | d in deps :: d.target in w.tasks
    ensures x in RunnableNodes(w, deps, n) <==>
      exists i | 0 <= i < n :: w.tasks[deps[i].target].runs && x == w.TaskNode(deps[i].target, deps[i].config)
  {
    if n > 0 {
      RunnableNodesAre(w, deps, n - 1, x);
    }
  }

  lemma {:induction false} RunnablePrefix(w: Workspace, deps: seq<Dep>, i: nat, n: nat)
    requires i <= n <= |deps| && forall d | d in deps :: d.target in w.tasks
    ensures RunnableNodes(w, deps, i) <= RunnableNodes(w, deps, n)
  {
    if i < n {
      RunnablePrefix(w, deps, i, n - 1);
    }
  }

  /** A needed node is a task node strictly below, one step along task dependencies. */
  lemma NeededIsBelow(w: Workspace, t: Target, x: ActionNode)
    requires x in Needed(w, t)
    ensures t in w.tasks && w.IsTaskNode(x) && x in w.TaskNodes() && w.tasks[x.target].runs && (t, x.target) in w.Upward()
  {
    var deps := w.tasks[t].deps;
    RunnableNodesAre(w, deps, |deps|, x);
    var i :| 0 <= i < |deps| && w.tasks[deps[i].target].runs && x == w.TaskNode(deps[i].target, deps[i].config);
    assert deps[i] in deps;
  }

  lemma DependencyIsNeeded(w: Workspace, t: Target, d: Dep)
    requires t in w.tasks && d in w.tasks[t].deps && w.tasks[d.target].runs
    ensures w.TaskNode(d.target, d.config) in Needed(w, t)
  {
    RunnableNodesAre(w, w.tasks[t].deps, |w.tasks[t].deps|, w.TaskNode(d.target, d.config));
  }

  /**
   The graph is acyclic; task nodes are runnable tasks of the workspace; and an edge to a task
   is a serial one or leads from a task to one of its dependencies.
   */
  ghost predicate WellFormed(w: Workspace, b: Build)
  {
    && Acyclic(b.edges)
    && b.serialEdges <= b.edges
    && (forall e | e in b.edges :: e.0 in b.nodes && e.1 in b.nodes)
    && (forall e | e in b.edges && e !in b.serialEdges && e.1.RunTask? :: e.0.RunTask? && e.1 in Needed(w, e.0.target))
    && (forall n | n in b.nodes && n.RunTask? :: w.IsTaskNode(n) && n in w.TaskNodes() && w.tasks[n.target].runs)
    && (forall e | e in b.serialEdges :: e.0.RunTask? && e.1.RunTask?)
    && (forall t | t in b.passthrough :: Filtered(w, t))
    && (w.upstream.Deep? ==> b.ignoredDependencies == {})
  }

  /** Nodes, edges and marks of filtered tasks are only added. */
  ghost predicate Grows(b: Build, b': Build) {
    && b.nodes <= b'.nodes && b.edges <= b'.edges && b.passthrough <= b'.passthrough
    && b.serialEdges <= b'.serialEdges && b'.serialEdges * b.edges <= b.serialEdges
  }

  lemma GrowsTrans(b: Build, b1: Build, b2: Build)
    requires Grows(b, b1) && Grows(b1, b2)
    ensures Grows(b, b2)
  {
  }

  ghost predicate Placed(b: Build, nodes: seq<ActionNode>) {
    forall n | n in nodes :: n in b.nodes
  }

  // ---- Progress of the recursion ----

  /** Task nodes not inserted yet. */
  ghost function Missing(w: Workspace, b: Build): set<ActionNode>
  {
    w.TaskNodes() - b.nodes
  }

  /** Targets not yet marked as passthrough. */
  function Unmarked(w: Workspace, b: Build): set<Target> {
    w.tasks.Keys - b.passthrough
  }

  /**
   The recursion goes down because nodes and passthrough targets only grow, and while they
   stay the ignored sets only shrink.
   */
  ghost predicate Descends(w: Workspace, b: Build, b': Build)
  {
    && Missing(w, b') <= Missing(w, b) && Unmarked(w, b') <= Unmarked(w, b)
    && (Missing(w, b') == Missing(w, b) && Unmarked(w, b') == Unmarked(w, b) ==>
          b'.ignoredDependencies <= b.ignoredDependencies && b'.ignoredDependents <= b.ignoredDependents)
  }

  lemma DescendsTrans(w: Workspace, b: Build, b1: Build, b2: Build)
    requires Descends(w, b, b1) && Descends(w, b1, b2)
    ensures Descends(w, b, b2)
  {
  }

  // ---- Serial ordering ----

  /** The edges that the serial walk follows: real requirements that are tasks. */
  ghost function WalkEdges(b: Build): set<Edge> {
    set e | e in b.edges && e !in b.serialEdges && e.1.RunTask?
  }

  /** `y` is in the task subtree of `x`. */
  ghost predicate InSubtree(b: Build, x: ActionNode, y: ActionNode) {
    Reaches(WalkEdges(b), x, y)
  }

  /** Exactly the subtree of `x` is ordered after `previous`, except where that would close a cycle. */
  ghost predicate SeriallyLinked(b: Build, b': Build, x: ActionNode, previous: ActionNode) {
    && b' == b.(edges := b'.edges, serialEdges := b'.serialEdges) && b.edges <= b'.edges
    && b'.serialEdges == b.serialEdges + (b'.edges - b.edges)
    && forall e :: e in b'.edges <==>
         e in b.edges || (e.1 == previous && InSubtree(b, x, e.0) && !Reaches(b.edges, previous, e.0))
  }

  /**
   Serial ordering: afterwards every task in the subtree of `x` requires `previous` directly,
   or `previous` already came after it.
   */
  lemma SerialOrder(b: Build, b': Build, x: ActionNode, previous: ActionNode, y: ActionNode)
    requires SeriallyLinked(b, b', x, previous) && InSubtree(b, x, y)
    ensures (y, previous) in b'.edges || Reaches(b'.edges, previous, y)
  {
    if Reaches(b.edges, previous, y) {
      ReachesMono(b.edges, b'.edges, previous, y);
    }
  }

  ghost function Into(ys: set<ActionNode>, p: ActionNode): set<Edge> {
    set y | y in ys :: (y, p)
  }

  /** Edges into `p` from nodes it does not reach close no cycle and leave what `p` reaches as it was. */
  lemma {:induction false} EdgesIntoKeepAcyclic(edges: set<Edge>, ys: set<ActionNode>, p: ActionNode)
    requires forall y | y in ys :: !Reaches(edges, p, y)
    ensures Acyclic(edges) ==> Acyclic(edges + Into(ys, p))
    ensures forall z :: Reaches(edges + Into(ys, p), p, z) <==> Reaches(edges, p, z)
    decreases ys
  {
    if ys == {} {
      assert edges + Into(ys, p) == edges;
    } else {
      var y :| y in ys;
      var fewer := edges + Into(ys - {y}, p);
      EdgesIntoKeepAcyclic(edges, ys - {y}, p);
      assert edges + Into(ys, p) == fewer + {(y, p)};
      if Acyclic(edges) {
        AddEdgeKeepsAcyclic(fewer, y, p);
      }
      forall z ensures Reaches(fewer + {(y, p)}, p, z) <==> Reaches(edges, p, z) {
        if Reaches(fewer + {(y, p)}, p, z) {
          ReachesAfterAdd(fewer, y, p, p, z);
        }
        if Reaches(edges, p, z) {
          ReachesMono(edges, fewer + {(y, p)}, p, z);
        }
      }
    }
  }

  // ---- Why linking cannot fail ----

  /** Task dependencies are acyclic. */
  ghost predicate Lawful(w: Workspace) {
    Acyclic(w.Upward())
  }

  /** Something that the task of `node` needs comes after `node`. */
  ghost predicate Reached(w: Workspace, edges: set<Edge>, node: ActionNode)
    requires node.RunTask?
  {
    exists x | x in Needed(w, node.target) :: Reaches(edges, x, node)
  }

  /**
   The visit is to link a node that was created without its dependencies, and one of them has
   come after the node since.
   */
  ghost predicate Blocked(w: Workspace, b: Build, v: Visit)
    requires v.t in w.tasks
  {
    && w.TaskAffected(v.t, v.skip) && w.tasks[v.t].runs && Up(w, v)
    && w.TaskNode(v.t, v.config) in b.nodes && v.t in b.ignoredDependencies && Reached(w, b.edges, w.TaskNode(v.t, v.config))
  }

  /** A linked node is not reached. */
  lemma LinkedNotReached(w: Workspace, b: Build, node: ActionNode)
    requires Acyclic(b.edges) && Linked(w, b, node)
    ensures !Reached(w, b.edges, node)
  {
    assert !StrictlyReaches(b.edges, node, node);
  }

  /** A node that nothing requires is not reached. */
  lemma FreshNotReached(w: Workspace, b: Build, node: ActionNode)
    requires Lawful(w) && node.RunTask? && NoIncoming(b, node)
    ensures !Reached(w, b.edges, node)
  {
    assert !StrictlyReaches(w.Upward(), node.target, node.target);
    ReachesSelf(w.Upward(), node.target);
    forall x | x in Needed(w, node.target) ensures !Reaches(b.edges, x, node) {
      NeededIsBelow(w, node.target, x);
      if Reaches(b.edges, x, node) {
        var y := ReachedHasIncoming(b.edges, x, node);
      }
    }
  }

  /** What is no task never comes before a task. */
  lemma OtherReachesNoTask(w: Workspace, b: Build, x: ActionNode, y: ActionNode)
    requires WellFormed(w, b) && !x.RunTask? && Reaches(b.edges, x, y)
    ensures !y.RunTask?
  {
    ReachesStaysIn(b.edges, x, y, iset z: ActionNode | !z.RunTask?);
  }

  /** New edges into tasks lead strictly below `t`. */
  ghost predicate OnlyBelow(w: Workspace, t: Target, b: Build, b': Build) {
    forall e | e in b'.edges && e !in b.edges && e.1.RunTask? :: StrictlyReaches(w.Upward(), t, e.1.target)
  }

  lemma OnlyBelowTrans(w: Workspace, t: Target, b: Build, b1: Build, b2: Build)
    requires OnlyBelow(w, t, b, b1) && OnlyBelow(w, t, b1, b2)
    ensures OnlyBelow(w, t, b, b2)
  {
  }

  lemma BelowDependency(w: Workspace, t: Target, d: Target, b: Build, b': Build)
    requires (t, d) in w.Upward() && OnlyBelow(w, d, b, b')
    ensures OnlyBelow(w, t, b, b')
  {
    forall e | e in b'.edges && e !in b.edges && e.1.RunTask? ensures StrictlyReaches(w.Upward(), t, e.1.target) {
      var c :| (d, c) in w.Upward() && Reaches(w.Upward(), c, e.1.target);
      ReachesCons(w.Upward(), d, c, e.1.target);
    }
  }

  ghost predicate NoIncoming(b: Build, x: ActionNode) {
    forall y :: (y, x) !in b.edges
  }

  /** Edges that lead strictly below `t` leave a task node of `t` without incoming edges. */
  lemma BelowMissesSelf(w: Workspace, node: ActionNode, b: Build, b': Build)
    requires Acyclic(w.Upward()) && node.RunTask? && OnlyBelow(w, node.target, b, b') && NoIncoming(b, node)
    ensures NoIncoming(b', node)
  {
  }

  /** Nodes in place, with tasks strictly below `t`. */
  ghost predicate Lower(w: Workspace, t: Target, nodes: seq<ActionNode>) {
    forall n | n in nodes && n.RunTask? :: StrictlyReaches(w.Upward(), t, n.target)
  }

  // ---- Dependencies are in place ----

  /** Every runnable dependency is required directly. */
  ghost predicate Linked(w: Workspace, b: Build, n: ActionNode)
  {
    n.RunTask? && forall x | x in Needed(w, n.target) :: (n, x) in b.edges
  }

  /** Those of the first `n` dependencies that are filtered out in CI are marked as such. */
  ghost predicate Marked(w: Workspace, b: Build, deps: seq<Dep>, n: nat)
    requires n <= |deps|
  {
    forall i | 0 <= i < n && Filtered(w, deps[i].target) :: deps[i].target in b.passthrough
  }

  /** The dependencies of the node were run: it is linked to them, and serial ones are ordered. */
  ghost predicate Expanded(w: Workspace, b: Build, n: ActionNode)
  {
    && Linked(w, b, n)
    && (n.target in w.tasks ==> Marked(w, b, w.tasks[n.target].deps, |w.tasks[n.target].deps|))
    && (n.target in w.tasks && !w.tasks[n.target].parallel ==> Chained(b.edges, Needed(w, n.target)))
  }

  lemma ExpandedMono(w: Workspace, b: Build, b': Build, n: ActionNode)
    requires b.edges <= b'.edges && b.passthrough <= b'.passthrough && Expanded(w, b, n)
    ensures Expanded(w, b', n)
  {
    if n.target in w.tasks && !w.tasks[n.target].parallel {
      ChainedMono(b, b', Needed(w, n.target));
    }
  }

  /**
   Except for the open nodes, whose dependencies are being run, a task is expanded or noted as ignored.
   Ignored targets are caught up on by their own node only, so other arguments count for `Deep` only.
   */
  ghost predicate Wired(w: Workspace, b: Build, open: set<ActionNode>)
  {
    forall n | n in b.nodes && n !in open && n.RunTask? && (w.upstream.Deep? || n.config == 0) ::
      Expanded(w, b, n) || n.target in b.ignoredDependencies
  }

  // ---- Serial order over a whole build ----

  /** "requires" between the task nodes of the workspace. */
  ghost function Needs(w: Workspace): set<Edge>
  {
    set n, x | n in w.TaskNodes() && x in Needed(w, n.target) :: (n, x)
  }

  /**
   A serial edge has a reason: a task in the graph that is not parallel, and two consecutive nodes that it
   needs. The edge leads from something that the later one needs, or from itself, to the one before it.
   */
  ghost predicate Reason(w: Workspace, nodes: set<ActionNode>, e: Edge, n: ActionNode, k: nat) {
    && n in nodes && n.RunTask? && n.target in w.tasks && !w.tasks[n.target].parallel && 0 < k < |Needed(w, n.target)|
    && e.1 == Needed(w, n.target)[k - 1] && Reaches(Needs(w), Needed(w, n.target)[k], e.0)
  }

  ghost predicate Reasoned(w: Workspace, nodes: set<ActionNode>, serialEdges: set<Edge>) {
    forall e | e in serialEdges :: exists n, k :: Reason(w, nodes, e, n, k)
  }

  lemma ReasonedMono(w: Workspace, nodes: set<ActionNode>, more: set<ActionNode>, serialEdges: set<Edge>)
    requires Reasoned(w, nodes, serialEdges) && nodes <= more
    ensures Reasoned(w, more, serialEdges)
  {
    forall e | e in serialEdges ensures exists n, k :: Reason(w, more, e, n, k) {
      var n, k :| Reason(w, nodes, e, n, k);
      assert Reason(w, more, e, n, k);
    }
  }

  /** The walk of a subtree follows what tasks need. */
  lemma WalkIsNeeds(w: Workspace, b: Build, x: ActionNode, y: ActionNode)
    requires WellFormed(w, b) && InSubtree(b, x, y)
    ensures Reaches(Needs(w), x, y)
  {
    ReachesMono(WalkEdges(b), Needs(w), x, y);
  }

  ghost predicate OrderedAfter(edges: set<Edge>, y: ActionNode, previous: ActionNode) {
    (y, previous) in edges || Reaches(edges, previous, y)
  }

  ghost predicate ChainedAt(edges: set<Edge>, chain: seq<ActionNode>, i: nat)
    requires 0 < i < |chain|
  {
    OrderedAfter(edges, chain[i], chain[i - 1])
  }

  /** Consecutive nodes are ordered. */
  ghost predicate Chained(edges: set<Edge>, chain: seq<ActionNode>) {
    forall i | 0 < i < |chain| :: ChainedAt(edges, chain, i)
  }

  lemma ChainedMono(b: Build, b': Build, chain: seq<ActionNode>)
    requires b.edges <= b'.edges && Chained(b.edges, chain)
    ensures Chained(b'.edges, chain)
  {
    forall i | 0 < i < |chain| ensures ChainedAt(b'.edges, chain, i) {
      assert ChainedAt(b.edges, chain, i);
      if Reaches(b.edges, chain[i - 1], chain[i]) {
        ReachesMono(b.edges, b'.edges, chain[i - 1], chain[i]);
      }
    }
  }

  /** Everything that `x` needs, itself included, is ordered with respect to `previous`. */
  ghost predicate SubtreeOrdered(w: Workspace, edges: set<Edge>, x: ActionNode, previous: ActionNode)
  {
    forall y | Reaches(Needs(w), x, y) :: OrderedAfter(edges, y, previous)
  }

  ghost predicate ChainOrderedAt(w: Workspace, edges: set<Edge>, chain: seq<ActionNode>, i: nat)
    requires 0 < i < |chain|
  {
    SubtreeOrdered(w, edges, chain[i], chain[i - 1])
  }

  /** Consecutive serial dependencies are ordered with their whole subtrees. */
  ghost predicate ChainOrdered(w: Workspace, edges: set<Edge>, chain: seq<ActionNode>)
  {
    forall i | 0 < i < |chain| :: ChainOrderedAt(w, edges, chain, i)
  }

  ghost predicate SerialDone(w: Workspace, b: Build, n: ActionNode)
  {
    w.IsTaskNode(n) && (!w.tasks[n.target].parallel ==> ChainOrdered(w, b.edges, Needed(w, n.target)))
  }

  /** No serial edge stands in for a dependency or starts at an open node; what is not open is serialized. */
  ghost predicate Serialized(w: Workspace, b: Build, open: set<ActionNode>)
  {
    && (forall e | e in b.serialEdges :: e.0.RunTask? && e.0 !in open && e.1.RunTask? && e.1 !in Needed(w, e.0.target))
    && (forall n | n in b.nodes && n.RunTask? && n !in open :: SerialDone(w, b, n))
  }

  ghost predicate Tidy(w: Workspace, b: Build, open: set<ActionNode>)
  {
    Wired(w, b, open) && (Lawful(w) && w.upstream.Deep? ==> Serialized(w, b, open))
  }

  lemma ChainMono(w: Workspace, b: Build, b': Build, chain: seq<ActionNode>)
    requires b.edges <= b'.edges && ChainOrdered(w, b.edges, chain)
    ensures ChainOrdered(w, b'.edges, chain)
  {
    forall i | 0 < i < |chain| ensures ChainOrderedAt(w, b'.edges, chain, i) {
      assert ChainOrderedAt(w, b.edges, chain, i);
      SubtreeMono(w, b, b', chain[i], chain[i - 1]);
    }
  }

  lemma SubtreeMono(w: Workspace, b: Build, b': Build, x: ActionNode, previous: ActionNode)
    requires b.edges <= b'.edges && SubtreeOrdered(w, b.edges, x, previous)
    ensures SubtreeOrdered(w, b'.edges, x, previous)
  {
    forall y | Reaches(Needs(w), x, y) ensures OrderedAfter(b'.edges, y, previous) {
      assert OrderedAfter(b.edges, y, previous);
      if Reaches(b.edges, previous, y) {
        ReachesMono(b.edges, b'.edges, previous, y);
      }
    }
  }

  /** Open nodes are above `t`. */
  ghost predicate Above(w: Workspace, open: set<ActionNode>, t: Target) {
    forall n | n in open :: n.RunTask? && Reaches(w.Upward(), n.target, t)
  }

  /** Open nodes are strictly above `t`. */
  ghost predicate StrictlyAbove(w: Workspace, open: set<ActionNode>, t: Target) {
    forall n | n in open :: n.RunTask? && StrictlyReaches(w.Upward(), n.target, t)
  }

  lemma AboveDependency(w: Workspace, open: set<ActionNode>, t: Target, d: Target)
    requires Above(w, open, t) && (t, d) in w.Upward()
    ensures StrictlyAbove(w, open, d)
  {
    forall n | n in open ensures StrictlyReaches(w.Upward(), n.target, d) {
      if n.target == t {
        ReachesSelf(w.Upward(), d);
      } else {
        ReachesSplit(w.Upward(), n.target, t);
        var c :| (n.target, c) in w.Upward() && Reaches(w.Upward(), c, t);
        ReachesSnoc(w.Upward(), c, t, d);
      }
    }
  }

  // ---- How the order is kept ----

  lemma WiredMono(w: Workspace, b: Build, b': Build, open: set<ActionNode>)
    requires Wired(w, b, open) && b.edges <= b'.edges && b.passthrough <= b'.passthrough
    requires b.ignoredDependencies <= b'.ignoredDependencies && forall n | n in b'.nodes && n !in b.nodes :: !n.RunTask?
    ensures Wired(w, b', open)
  {
    forall n | n in b'.nodes && n !in open && n.RunTask? && (w.upstream.Deep? || n.config == 0)
      ensures Expanded(w, b', n) || n.target in b'.ignoredDependencies
    {
      if Expanded(w, b, n) {
        ExpandedMono(w, b, b', n);
      }
    }
  }

  /** More edges, more marks, and more nodes that are no tasks. */
  lemma TidyLink(w: Workspace, b: Build, b': Build, open: set<ActionNode>)
    requires Tidy(w, b, open) && b' == b.(nodes := b'.nodes, edges := b'.edges, passthrough := b'.passthrough)
    requires b.edges <= b'.edges && b.passthrough <= b'.passthrough
    requires forall n | n in b'.nodes && n !in b.nodes :: !n.RunTask?
    ensures Tidy(w, b', open)
  {
    WiredMono(w, b, b', open);
    if Lawful(w) && w.upstream.Deep? {
      forall n | n in b'.nodes && n.RunTask? && n !in open ensures SerialDone(w, b', n) {
        SerialMono(w, b, b', n);
      }
    }
  }

  lemma SerialMono(w: Workspace, b: Build, b': Build, n: ActionNode)
    requires b.edges <= b'.edges && SerialDone(w, b, n)
    ensures SerialDone(w, b', n)
  {
    if !w.tasks[n.target].parallel {
      ChainMono(w, b, b', Needed(w, n.target));
    }
  }

  /** A node may be opened, and its ignored mark taken, when it is new or the only one that is caught up on. */
  lemma TidyOpen(w: Workspace, b: Build, b': Build, open: set<ActionNode>, node: ActionNode)
    requires WellFormed(w, b) && Tidy(w, b, open) && w.IsTaskNode(node)
    requires b'.nodes <= b.nodes + {node} && b'.edges == b.edges && b'.serialEdges == b.serialEdges && b'.passthrough == b.passthrough
    requires b.ignoredDependencies <= b'.ignoredDependencies
          || (b.ignoredDependencies <= b'.ignoredDependencies + {node.target} && node.config == 0 && !w.upstream.Deep?)
    requires w.upstream.Deep? ==> node !in b.nodes
    ensures Tidy(w, b', open + {node})
  {
  }

  ghost predicate Closable(w: Workspace, b: Build, node: ActionNode)
  {
    && node.RunTask?
    && (w.upstream.Deep? || node.config == 0 ==> Expanded(w, b, node) || node.target in b.ignoredDependencies)
    && (Lawful(w) && w.upstream.Deep? ==> SerialDone(w, b, node))
  }

  lemma TidyClose(w: Workspace, b: Build, open: set<ActionNode>, node: ActionNode)
    requires Tidy(w, b, open + {node}) && Closable(w, b, node)
    ensures Tidy(w, b, open)
  {
  }

  /** What `x` needs is below it. */
  lemma NeedsBelow(w: Workspace, x: ActionNode, y: ActionNode)
    requires x.RunTask? && Reaches(Needs(w), x, y)
    ensures y.RunTask? && Reaches(w.Upward(), x.target, y.target)
  {
    var members := iset z: ActionNode | z.RunTask? && Reaches(w.Upward(), x.target, z.target);
    forall u, v | (u, v) in Needs(w) && u in members ensures v in members {
      NeededIsBelow(w, u.target, v);
      ReachesSnoc(w.Upward(), x.target, u.target, v.target);
    }
    ReachesSelf(w.Upward(), x.target);
    ReachesStaysIn(Needs(w), x, y, members);
  }

  lemma StrictTrans(w: Workspace, a: Target, b: Target, c: Target)
    requires StrictlyReaches(w.Upward(), a, b) && Reaches(w.Upward(), b, c)
    ensures StrictlyReaches(w.Upward(), a, c)
  {
    var x :| (a, x) in w.Upward() && Reaches(w.Upward(), x, b);
    ReachesTrans(w.Upward(), x, b, c);
  }

  /** What is at or below `t` is not open when all open nodes are strictly above `t`. */
  lemma BelowNotOpen(w: Workspace, open: set<ActionNode>, t: Target, y: ActionNode)
    requires Acyclic(w.Upward()) && StrictlyAbove(w, open, t) && y.RunTask? && Reaches(w.Upward(), t, y.target)
    ensures y !in open
  {
    if y in open {
      StrictTrans(w, y.target, t, y.target);
    }
  }

  /** The walk finds everything that `x` needs, and only that. */
  lemma SubtreeIsNeeds(w: Workspace, b: Build, open: set<ActionNode>, x: ActionNode, y: ActionNode)
    requires WellFormed(w, b) && Tidy(w, b, open) && Lawful(w) && w.upstream.Deep?
    requires x in b.nodes && x.RunTask? && StrictlyAbove(w, open, x.target)
    ensures InSubtree(b, x, y) <==> Reaches(Needs(w), x, y)
    ensures InSubtree(b, x, y) ==> y in b.nodes && y.RunTask? && y !in open && Linked(w, b, y)
  {
    var members := iset z: ActionNode | z in b.nodes && InSubtree(b, x, z) && Reaches(Needs(w), x, z);
    ReachesSelf(WalkEdges(b), x);
    ReachesSelf(Needs(w), x);
    forall u, v | u in members && ((u, v) in Needs(w) || (u, v) in WalkEdges(b)) ensures v in members {
      SubtreeStep(w, b, open, x, u, v);
    }
    if InSubtree(b, x, y) {
      ReachesStaysIn(WalkEdges(b), x, y, members);
    }
    if Reaches(Needs(w), x, y) {
      ReachesStaysIn(Needs(w), x, y, members);
      NeedsBelow(w, x, y);
      BelowNotOpen(w, open, x.target, y);
    }
  }

  lemma SubtreeStep(w: Workspace, b: Build, open: set<ActionNode>, x: ActionNode, u: ActionNode, v: ActionNode)
    requires WellFormed(w, b) && Tidy(w, b, open) && Lawful(w) && w.upstream.Deep?
    requires x.RunTask? && StrictlyAbove(w, open, x.target)
    requires u in b.nodes && InSubtree(b, x, u) && Reaches(Needs(w), x, u)
    requires (u, v) in Needs(w) || (u, v) in WalkEdges(b)
    ensures v in b.nodes && InSubtree(b, x, v) && Reaches(Needs(w), x, v)
  {
    NeedsBelow(w, x, u);
    BelowNotOpen(w, open, x.target, u);
    assert Linked(w, b, u);
    NeededIsBelow(w, u.target, v);
    assert (u, v) in Needs(w) && (u, v) in WalkEdges(b);
    ReachesSnoc(WalkEdges(b), x, u, v);
    ReachesSnoc(Needs(w), x, u, v);
  }

  /** Ordering the subtree of `x` after `previous` keeps everything tidy. */
  lemma TidySerial(w: Workspace, b: Build, b': Build, open: set<ActionNode>, x: ActionNode, previous: ActionNode)
    requires WellFormed(w, b) && Tidy(w, b, open) && SeriallyLinked(b, b', x, previous)
    requires x in b.nodes && x.RunTask? && previous.RunTask? && (Lawful(w) ==> StrictlyAbove(w, open, x.target))
    ensures Tidy(w, b', open)
    ensures Lawful(w) && w.upstream.Deep? ==> SubtreeOrdered(w, b'.edges, x, previous)
  {
    WiredMono(w, b, b', open);
    if Lawful(w) && w.upstream.Deep? {
      forall e | e in b'.serialEdges && e !in b.serialEdges
        ensures e.0.RunTask? && e.0 !in open && e.1.RunTask? && e.1 !in Needed(w, e.0.target)
      {
        SubtreeIsNeeds(w, b, open, x, e.0);
      }
      forall y | Reaches(Needs(w), x, y) ensures OrderedAfter(b'.edges, y, previous) {
        SubtreeIsNeeds(w, b, open, x, y);
        SerialOrder(b, b', x, previous, y);
      }
      forall n | n in b'.nodes && n.RunTask? && n !in open ensures SerialDone(w, b', n) {
        SerialMono(w, b, b', n);
      }
    }
  }

  // ---- Which dependents were followed ----

  /**
   Open nodes are being linked. The rest says which targets had their dependents run so far:
   those of `downOpen` are still being run, pending ones are yet to be considered, and lost ones
   are filtered out in CI and were marked without running their dependents.
   */
  datatype Ledger = Ledger(open: set<ActionNode>, down: set<Target>, downOpen: set<Target>, pending: set<Target>, lost: set<Target>) {
    predicate Idle() {
      open == {} && pending == {}
    }
  }

  /** A dependent that is affected is in place, with its own dependents in scope, or marked as filtered. */
  ghost predicate FollowedOne(w: Workspace, b: Build, l: Ledger, d: Target) {
    d in w.tasks && (w.TaskAffected(d, false) ==>
      if w.tasks[d].runs then w.TaskNode(d, 0) in b.nodes && (w.downstream.Deep? ==> d in l.down) else d in b.passthrough)
  }

  /** The first `n` dependents were followed. */
  ghost predicate Followed(w: Workspace, b: Build, l: Ledger, t: Target, n: nat) {
    t in w.dependents && n <= |w.dependents[t]| && forall i | 0 <= i < n :: FollowedOne(w, b, l, w.dependents[t][i])
  }

  lemma FollowedMore(w: Workspace, b: Build, l: Ledger, b': Build, l': Ledger, t: Target, n: nat)
    requires Followed(w, b, l, t, n) && n < |w.dependents[t]| && FollowedOne(w, b', l', w.dependents[t][n])
    requires b.nodes <= b'.nodes && b.passthrough <= b'.passthrough && l.down <= l'.down
    ensures Followed(w, b', l', t, n + 1)
  {
  }

  ghost predicate DownDone(w: Workspace, b: Build, l: Ledger, t: Target) {
    t in w.dependents && Followed(w, b, l, t, |w.dependents[t]|)
  }

  ghost predicate Remembered(b: Build, l: Ledger, n: ActionNode) {
    n.RunTask? && (n.config == 0 ==> n.target in l.down || n.target in b.ignoredDependents || n.target in l.pending)
  }

  /** Dependents that were not run are remembered as ignored, and those that were run are in place. */
  ghost predicate Balanced(w: Workspace, b: Build, l: Ledger) {
    && (forall n | n in b.nodes && n.RunTask? :: Remembered(b, l, n))
    && (forall t | t in l.down && t !in l.downOpen :: DownDone(w, b, l, t))
  }

  /** A filtered task that was marked was followed or is lost, never both, and only a losable one is lost. */
  ghost predicate Accounted(w: Workspace, targets: set<Target>, b: Build, l: Ledger) {
    && l.lost <= b.passthrough <= l.down + l.lost && l.lost !! l.down
    && (forall t | t in l.down && Filtered(w, t) :: t in b.passthrough)
    && forall t | t in l.lost :: Losable(w, targets, t)
  }

  /** Every task in the graph is expected, by way of targets whose dependents were followed. */
  ghost predicate Justified(w: Workspace, targets: set<Target>, b: Build, l: Ledger) {
    forall n | n in b.nodes && n.RunTask? :: Expected(w, targets, From(w, l.down), n.target)
  }

  lemma JustifiedMono(w: Workspace, targets: set<Target>, b: Build, b': Build, l: Ledger, l': Ledger)
    requires Justified(w, targets, b, l) && l.down <= l'.down && forall n | n in b'.nodes && n !in b.nodes :: !n.RunTask?
    ensures Justified(w, targets, b', l')
  {
    forall n | n in b'.nodes && n.RunTask? ensures Expected(w, targets, From(w, l'.down), n.target) {
      ExpectedMono(w, targets, From(w, l.down), From(w, l'.down), n.target);
    }
  }

  ghost predicate Advances(l: Ledger, l': Ledger) {
    && l.down <= l'.down && l.lost <= l'.lost
    && l'.downOpen == l.downOpen && l'.open == l.open && l'.pending == l.pending
  }

  /**
   The one lemma about the ledger: it stays balanced when nodes are added, targets are opened,
   and finished targets are closed, provided every task node is still remembered.
   */
  lemma Rebalance(w: Workspace, b: Build, b': Build, l: Ledger, l': Ledger)
    requires Balanced(w, b, l) && b.nodes <= b'.nodes && b.passthrough <= b'.passthrough && l.down <= l'.down
    requires forall n | n in b'.nodes && n.RunTask? :: Remembered(b', l', n)
    requires forall t | t in l'.down && t !in l'.downOpen :: (t in l.down && t !in l.downOpen) || DownDone(w, b', l', t)
    ensures Balanced(w, b', l')
  {
  }

  // ---- Exactness ----

  ghost predicate HasTask(b: Build, t: Target) {
    exists n | n in b.nodes :: n.RunTask? && n.target == t
  }

  /** A requested target is in place with what is in scope of it, or marked as filtered. */
  ghost predicate Landed(w: Workspace, b: Build, l: Ledger, t: Target)
  {
    t in w.tasks && (w.TaskAffected(t, w.skipAffected) ==>
      if w.tasks[t].runs then
        && w.TaskNode(t, 0) in b.nodes
        && (w.upstream.InScope(0) ==> Expanded(w, b, w.TaskNode(t, 0)))
        && (w.downstream.InScope(0) ==> t in l.down)
      else t in b.passthrough)
  }

  /** The task is in place or marked as filtered, and for `Deep` its dependents were followed unless it is lost. */
  ghost predicate InPlace(w: Workspace, b: Build, l: Ledger, t: Target) {
    t in w.tasks && (w.tasks[t].runs ==> w.TaskNode(t, 0) in b.nodes) && (w.downstream.Deep? ==> t in l.down || t in l.lost)
  }

  /** With nothing open, everything wanted without passing a lost task is in place. */
  lemma WantedInPlace(w: Workspace, b: Build, l: Ledger, targets: set<Target>, x: Target)
    requires Balanced(w, b, l) && Accounted(w, targets, b, l) && l.downOpen == {}
    requires forall t: Target | Primary(w, targets, t) :: Landed(w, b, l, t)
    requires Wanted(w, targets, Avoiding(w, l.lost), x)
    ensures InPlace(w, b, l, x)
  {
    var follow := Avoiding(w, l.lost);
    if w.downstream.Direct? && !Primary(w, targets, x) {
      var p: Target :| Primary(w, targets, p) && (p, x) in follow;
      assert Landed(w, b, l, p) && DownDone(w, b, l, p);
    }
    if w.downstream.Deep? {
      var p: Target :| Primary(w, targets, p) && Reaches(follow, p, x);
      assert Landed(w, b, l, p);
      forall u, v | (u, v) in follow && InPlace(w, b, l, u) ensures InPlace(w, b, l, v) {
        assert DownDone(w, b, l, u);
      }
      ReachesStaysIn(follow, p, x, iset y | InPlace(w, b, l, y));
    }
  }

  /** What a linked task depends on has a node, if it runs. */
  lemma LinkedInPlace(w: Workspace, b: Build, n: ActionNode, x: Target)
    requires WellFormed(w, b) && Linked(w, b, n) && (n.target, x) in w.Running()
    ensures HasTask(b, x)
  {
    var d :| d in w.tasks[n.target].deps && d.target == x;
    DependencyIsNeeded(w, n.target, d);
    assert (n, w.TaskNode(x, d.config)) in b.edges;
  }

  /** With nothing open, everything expected without passing a lost task has its node. */
  lemma ExpectedInPlace(w: Workspace, b: Build, l: Ledger, targets: set<Target>, x: Target)
    requires WellFormed(w, b) && Wired(w, b, {})
    requires Balanced(w, b, l) && Accounted(w, targets, b, l) && l.downOpen == {}
    requires forall t: Target | Primary(w, targets, t) :: Landed(w, b, l, t)
    requires Expected(w, targets, Avoiding(w, l.lost), x)
    ensures HasTask(b, x)
  {
    if Wanted(w, targets, Avoiding(w, l.lost), x) {
      WantedInPlace(w, b, l, targets, x);
    } else if w.upstream.Direct? {
      var p: Target :| Primary(w, targets, p) && (p, x) in w.Running();
      assert Landed(w, b, l, p);
      LinkedInPlace(w, b, w.TaskNode(p, 0), x);
    } else {
      var d: Target :| Wanted(w, targets, Avoiding(w, l.lost), d) && Reaches(w.Running(), d, x);
      WantedInPlace(w, b, l, targets, d);
      RunningRuns(w, d, x);
      forall u, v | (u, v) in w.Running() && HasTask(b, u) ensures HasTask(b, v) {
        var n :| n in b.nodes && n.RunTask? && n.target == u;
        LinkedInPlace(w, b, n, v);
      }
      assert HasTask(b, d);
      ReachesStaysIn(w.Running(), d, x, iset y | HasTask(b, y));
    }
  }

  /** With nothing open, the graph holds exactly the tasks that are expected without passing a lost task. */
  lemma ExactTasks(w: Workspace, b: Build, l: Ledger, targets: set<Target>, x: Target)
    requires WellFormed(w, b) && Wired(w, b, {})
    requires Balanced(w, b, l) && Accounted(w, targets, b, l) && Justified(w, targets, b, l) && l.downOpen == {}
    requires forall t: Target | Primary(w, targets, t) :: Landed(w, b, l, t)
    ensures HasTask(b, x) <==> Expected(w, targets, Avoiding(w, l.lost), x)
    ensures Unhindered(w, targets) ==> (HasTask(b, x) <==> Expected(w, targets, w.Following(), x))
  {
    if HasTask(b, x) {
      ExpectedMono(w, targets, From(w, l.down), Avoiding(w, l.lost), x);
    }
    if Expected(w, targets, Avoiding(w, l.lost), x) {
      ExpectedInPlace(w, b, l, targets, x);
    }
    if Unhindered(w, targets) {
      UnhinderedExact(w, targets, l.lost, x);
    }
  }
}
