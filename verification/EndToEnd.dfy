/**
 From the builder to the pipeline: what a build orders is ordered in every run of its graph.
 */
module EndToEnd {
  import opened Actions
  import opened ActionGraphs
  import opened Digraph
  import opened Workspaces
  import opened Builds
  import opened Pipeline
  import opened PipelineSafety

  /**
   The finished graph has one index per node of the build, and the same requirements, direct and
   transitive together. A transitive reduction may drop edges but changes neither.
   */
  ghost predicate Realizes(b: Build, g: ActionGraph) {
    && g.Valid()
    && (forall n :: n in b.nodes <==> exists i | i in g.nodes :: g.nodes[i] == n)
    && (forall i, j | i in g.nodes && j in g.nodes && g.nodes[i] == g.nodes[j] :: i == j)
    && (forall i, j | i in g.nodes && j in g.nodes ::
          StrictlyReaches(g.Edges(), i, j) <==> StrictlyReaches(b.edges, g.nodes[i], g.nodes[j]))
  }

  ghost predicate Runs(b: Build, c: Config, steps: seq<Step>) {
    Realizes(b, c.graph) && c.concurrency > 0 && Replay(c, steps).Some?
  }

  /** The graph of an acyclic build can be run. */
  lemma BuildIsRunnable(b: Build, c: Config)
    requires Acyclic(b.edges) && Realizes(b, c.graph) && c.concurrency > 0
    ensures c.Valid()
  {
  }

  /** In every run, what a node requires in the build is completed before the node is dispatched. */
  lemma RequirementsFirst(b: Build, c: Config, steps: seq<Step>, x: NodeIndex, y: NodeIndex)
    requires Acyclic(b.edges) && Runs(b, c, steps) && x in c.graph.nodes && y in c.graph.nodes
    requires StrictlyReaches(b.edges, c.graph.nodes[x], c.graph.nodes[y])
    ensures var s := Replay(c, steps).value; x in s.order ==> y in s.completed
  {
    BuildIsRunnable(b, c);
    RequiredCompleted(c, steps, x, y);
  }

  lemma RequiredCompleted(c: Config, steps: seq<Step>, x: NodeIndex, y: NodeIndex)
    requires c.Valid() && Replay(c, steps).Some? && StrictlyReaches(c.graph.Edges(), x, y)
    ensures var s := Replay(c, steps).value; x in s.order ==> y in s.completed
  {
    DispatchSafety(c, steps);
  }

  /** A linked task is dispatched only after every dependency that runs. */
  lemma DependenciesFirst(w: Workspace, b: Build, c: Config, steps: seq<Step>, x: NodeIndex, y: NodeIndex)
    requires Acyclic(b.edges) && Runs(b, c, steps) && x in c.graph.nodes && y in c.graph.nodes
    requires c.graph.nodes[x].RunTask? && Linked(w, b, c.graph.nodes[x]) && c.graph.nodes[y] in Needed(w, c.graph.nodes[x].target)
    ensures var s := Replay(c, steps).value; x in s.order ==> y in s.completed
  {
    ReachesSelf(b.edges, c.graph.nodes[y]);
    assert (c.graph.nodes[x], c.graph.nodes[y]) in b.edges;
    RequirementsFirst(b, c, steps, x, y);
  }

  /**
   Serial ordering end to end: in every run, nothing that a serial dependency needs, itself
   included, is in flight together with the dependency before it. It is dispatched after that one
   is completed, or, where that one requires it, before that one is dispatched.
   */
  lemma SerialSubtreesNeverOverlap(
      w: Workspace, b: Build, c: Config, steps: seq<Step>, n: ActionNode, k: nat, previous: NodeIndex, y: NodeIndex)
    requires Acyclic(b.edges) && Runs(b, c, steps) && SerialDone(w, b, n)
    requires !w.tasks[n.target].parallel && 0 < k < |Needed(w, n.target)|
    requires previous in c.graph.nodes && c.graph.nodes[previous] == Needed(w, n.target)[k - 1]
    requires y in c.graph.nodes && Reaches(Needs(w), Needed(w, n.target)[k], c.graph.nodes[y]) && y != previous
    ensures var s := Replay(c, steps).value;
      y in s.order && previous in s.order ==> previous in s.completed || y in s.completed
  {
    var p, q := c.graph.nodes[previous], c.graph.nodes[y];
    assert ChainOrderedAt(w, b.edges, Needed(w, n.target), k);
    assert OrderedAfter(b.edges, q, p);
    if (q, p) in b.edges {
      ReachesSelf(b.edges, p);
      RequirementsFirst(b, c, steps, y, previous);
    } else {
      ReachesSplit(b.edges, p, q);
      RequirementsFirst(b, c, steps, previous, y);
    }
  }
}
