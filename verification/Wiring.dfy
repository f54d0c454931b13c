/**
 Which edges a visit may add, and why running the dependencies of a task does not decide whether
 it can be linked to them.
 */
module Wiring {
  import opened Actions
  import opened Digraph
  import opened Requests
  import opened Workspaces
  import opened Builds

  // ---- Dependencies that were run so far ----

  /** The first `i` dependencies were run: these are the nodes, and serial ones are ordered. */
  ghost predicate Ran(w: Workspace, b: Build, t: Target, i: nat, found: seq<ActionNode>)
    requires t in w.tasks && i <= |w.tasks[t].deps|
  {
    && found == RunnableNodes(w, w.tasks[t].deps, i) && Placed(b, found) && Marked(w, b, w.tasks[t].deps, i)
    && (!w.tasks[t].parallel ==> Chained(b.edges, found))
    && (!w.tasks[t].parallel && Lawful(w) && w.upstream.Deep? ==> ChainOrdered(w, b.edges, found))
  }

  lemma RanNothing(w: Workspace, b: Build, t: Target)
    requires t in w.tasks
    ensures Ran(w, b, t, 0, [])
  {
  }

  lemma RanMono(w: Workspace, b: Build, b': Build, t: Target, i: nat, found: seq<ActionNode>)
    requires t in w.tasks && i <= |w.tasks[t].deps| && Ran(w, b, t, i, found) && Grows(b, b')
    ensures Ran(w, b', t, i, found)
  {
    if !w.tasks[t].parallel {
      ChainedMono(b, b', found);
      if Lawful(w) && w.upstream.Deep? {
        ChainMono(w, b, b', found);
      }
    }
  }

  /** A dependency that is filtered out adds no node. */
  lemma RanSkip(w: Workspace, b: Build, t: Target, i: nat, found: seq<ActionNode>)
    requires t in w.tasks && i < |w.tasks[t].deps| && Ran(w, b, t, i, found)
    requires Filtered(w, w.tasks[t].deps[i].target) && w.tasks[t].deps[i].target in b.passthrough
    ensures Ran(w, b, t, i + 1, found)
  {
  }

  /** A dependency that runs adds its node, ordered after the last one if need be. */
  lemma RanSnoc(w: Workspace, b: Build, t: Target, i: nat, found: seq<ActionNode>, x: ActionNode)
    requires t in w.tasks && i < |w.tasks[t].deps| && Ran(w, b, t, i, found)
    requires var d := w.tasks[t].deps[i]; w.tasks[d.target].runs && x == w.TaskNode(d.target, d.config) && x in b.nodes
    requires !w.tasks[t].parallel && |found| > 0 ==> OrderedAfter(b.edges, x, found[|found| - 1])
    requires !w.tasks[t].parallel && |found| > 0 && Lawful(w) && w.upstream.Deep? ==> SubtreeOrdered(w, b.edges, x, found[|found| - 1])
    ensures Ran(w, b, t, i + 1, found + [x])
  {
    var longer := found + [x];
    if !w.tasks[t].parallel {
      forall k | 0 < k < |longer| ensures ChainedAt(b.edges, longer, k) {
        assert k < |found| ==> ChainedAt(b.edges, found, k);
      }
      if Lawful(w) && w.upstream.Deep? {
        forall k | 0 < k < |longer| ensures ChainOrderedAt(w, b.edges, longer, k) {
          assert k < |found| ==> ChainOrderedAt(w, b.edges, found, k);
        }
      }
    }
  }

  lemma RanMore(w: Workspace, b: Build, b': Build, t: Target, i: nat, found: seq<ActionNode>, x: ActionNode)
    requires t in w.tasks && i < |w.tasks[t].deps| && Ran(w, b, t, i, found) && Grows(b, b')
    requires var d := w.tasks[t].deps[i]; w.tasks[d.target].runs && x == w.TaskNode(d.target, d.config) && x in b'.nodes
    requires |found| > 0 && OrderedAfter(b'.edges, x, found[|found| - 1])
    requires Lawful(w) && w.upstream.Deep? ==> SubtreeOrdered(w, b'.edges, x, found[|found| - 1])
    ensures Ran(w, b', t, i + 1, found + [x])
  {
    RanMono(w, b, b', t, i, found);
    RanSnoc(w, b', t, i, found, x);
  }

  /** With every dependency run, only the links to them are missing. */
  lemma RanAll(w: Workspace, b: Build, node: ActionNode, found: seq<ActionNode>)
    requires w.IsTaskNode(node) && Ran(w, b, node.target, |w.tasks[node.target].deps|, found)
    ensures found == Needed(w, node.target)
    ensures Linked(w, b, node) ==> Expanded(w, b, node)
    ensures Lawful(w) && w.upstream.Deep? ==> SerialDone(w, b, node)
  {
  }

  // ---- New edges ----

  /** No edge into a task was added. */
  ghost predicate Quiet(b: Build, b': Build) {
    b.edges <= b'.edges && b'.serialEdges == b.serialEdges && forall e | e in b'.edges && e !in b.edges :: !e.1.RunTask?
  }

  ghost predicate SerialAt(walk: set<Edge>, chain: seq<ActionNode>, e: Edge, k: nat)
    requires 0 < k < |chain|
  {
    e.1 == chain[k - 1] && Reaches(walk, chain[k], e.0)
  }

  /** An edge that orders the subtree of a serial dependency of `t` after the one before it. */
  ghost predicate SerialShape(w: Workspace, walk: set<Edge>, t: Target, e: Edge)
  {
    exists k | 0 < k < |Needed(w, t)| :: SerialAt(walk, Needed(w, t), e, k)
  }

  /** Without `Deep` scope, running the dependencies of `t` only adds serial edges between them. */
  ghost predicate Chains(w: Workspace, b: Build, b': Build, t: Target)
    requires t in w.tasks
  {
    w.upstream.Deep? || (
      && b.edges <= b'.edges && WalkEdges(b') == WalkEdges(b)
      && (w.tasks[t].parallel ==> b'.serialEdges == b.serialEdges)
      && forall e | e in b'.edges && e !in b.edges && e.1.RunTask? :: !w.tasks[t].parallel && SerialShape(w, WalkEdges(b), t, e))
  }

  lemma QuietChains(w: Workspace, b: Build, b': Build, t: Target)
    requires t in w.tasks && Quiet(b, b')
    ensures Chains(w, b, b', t) && WalkEdges(b') == WalkEdges(b)
  {
  }

  lemma ChainsTrans(w: Workspace, b: Build, b1: Build, b2: Build, t: Target)
    requires t in w.tasks && Chains(w, b, b1, t) && Chains(w, b1, b2, t)
    ensures Chains(w, b, b2, t)
  {
    if !w.upstream.Deep? {
      forall e | e in b2.edges && e !in b.edges && e.1.RunTask? ensures !w.tasks[t].parallel && SerialShape(w, WalkEdges(b), t, e) {
        if e !in b1.edges {
          var k :| 0 < k < |Needed(w, t)| && SerialAt(WalkEdges(b1), Needed(w, t), e, k);
          assert SerialAt(WalkEdges(b), Needed(w, t), e, k);
        }
      }
    }
  }

  /** Ordering the subtree of the next dependency after the last one. */
  lemma SerialChains(w: Workspace, b: Build, b': Build, t: Target, k: nat)
    requires t in w.tasks && !w.tasks[t].parallel && 0 < k < |Needed(w, t)|
    requires SeriallyLinked(b, b', Needed(w, t)[k], Needed(w, t)[k - 1])
    ensures Chains(w, b, b', t)
  {
    forall e | e in b'.edges && e !in b.edges ensures SerialShape(w, WalkEdges(b), t, e) {
      assert SerialAt(WalkEdges(b), Needed(w, t), e, k);
    }
    assert forall e :: e in WalkEdges(b') <==> e in WalkEdges(b);
  }

  /** Without `Deep` scope, linking `t` to its dependencies adds these edges to those between them. */
  ghost predicate Roots(w: Workspace, b: Build, b': Build, node: ActionNode)
    requires w.IsTaskNode(node)
  {
    w.upstream.Deep? || (
      && b.edges <= b'.edges && (w.tasks[node.target].parallel ==> b'.serialEdges == b.serialEdges)
      && forall e | e in b'.edges && e !in b.edges && e.1.RunTask? ::
           || (e.0 == node && e.1 in Needed(w, node.target))
           || (!w.tasks[node.target].parallel && SerialShape(w, WalkEdges(b), node.target, e)))
  }

  lemma ChainsRoots(w: Workspace, b: Build, b1: Build, b2: Build, node: ActionNode)
    requires w.IsTaskNode(node) && Chains(w, b, b1, node.target)
    requires b1.edges <= b2.edges && b2.serialEdges == b1.serialEdges
    requires forall e | e in b2.edges && e !in b1.edges && e.1.RunTask? :: e.0 == node && e.1 in Needed(w, node.target)
    ensures Roots(w, b, b2, node)
  {
  }

  lemma RootsQuiet(w: Workspace, b: Build, b1: Build, b2: Build, node: ActionNode)
    requires w.IsTaskNode(node) && Roots(w, b, b1, node) && (w.upstream.Deep? || Quiet(b1, b2))
    ensures Roots(w, b, b2, node)
  {
  }

  lemma QuietRoots(w: Workspace, b: Build, b1: Build, b2: Build, node: ActionNode)
    requires w.IsTaskNode(node) && Quiet(b, b1) && Roots(w, b1, b2, node)
    ensures Roots(w, b, b2, node)
  {
    if !w.upstream.Deep? {
      QuietChains(w, b, b1, node.target);
      forall e | e in b2.edges && e !in b.edges && e.1.RunTask? && SerialShape(w, WalkEdges(b1), node.target, e)
        ensures SerialShape(w, WalkEdges(b), node.target, e)
      {
        var k :| 0 < k < |Needed(w, node.target)| && SerialAt(WalkEdges(b1), Needed(w, node.target), e, k);
        assert SerialAt(WalkEdges(b), Needed(w, node.target), e, k);
      }
    }
  }

  /** What a visit adds: edges for the task itself if its dependencies are in scope, or else none into tasks. */
  ghost predicate Wires(w: Workspace, b: Build, b': Build, v: Visit)
    requires v.t in w.tasks
  {
    if Up(w, v) && w.TaskAffected(v.t, v.skip) && w.tasks[v.t].runs then Roots(w, b, b', w.TaskNode(v.t, v.config))
    else w.upstream.Deep? || Quiet(b, b')
  }

  /**
   Whether a node is reached does not depend on its dependencies having been run: serial edges
   lead to dependencies, which would have to reach the node already.
   */
  lemma ReachedBefore(w: Workspace, b: Build, b': Build, node: ActionNode)
    requires WellFormed(w, b) && Lawful(w) && w.IsTaskNode(node) && b.edges <= b'.edges
    requires Chains(w, b, b', node.target) && OnlyBelow(w, node.target, b, b')
    requires w.upstream.Deep? ==> NoIncoming(b, node)
    ensures Reached(w, b'.edges, node) <==> Reached(w, b.edges, node)
  {
    if Reached(w, b.edges, node) {
      var x :| x in Needed(w, node.target) && Reaches(b.edges, x, node);
      ReachesMono(b.edges, b'.edges, x, node);
    } else if w.upstream.Deep? {
      BelowMissesSelf(w, node, b, b');
      FreshNotReached(w, b', node);
    } else {
      NotReachedBySerial(w, b, b', node);
    }
  }

  lemma NotReachedBySerial(w: Workspace, b: Build, b': Build, node: ActionNode)
    requires WellFormed(w, b) && w.IsTaskNode(node) && !w.upstream.Deep?
    requires Chains(w, b, b', node.target) && !Reached(w, b.edges, node)
    ensures !Reached(w, b'.edges, node)
  {
    var members := iset z | !Reaches(b.edges, z, node);
    forall u, v | (u, v) in b'.edges && u in members ensures v in members {
      if (u, v) in b.edges {
        if Reaches(b.edges, v, node) {
          ReachesCons(b.edges, u, v, node);
        }
      } else if v.RunTask? {
        assert SerialShape(w, WalkEdges(b), node.target, (u, v));
      } else if Reaches(b.edges, v, node) {
        OtherReachesNoTask(w, b, v, node);
      }
    }
    ReachesSelf(b.edges, node);
    forall x | x in Needed(w, node.target) ensures !Reaches(b'.edges, x, node) {
      if Reaches(b'.edges, x, node) {
        ReachesStaysIn(b'.edges, x, node, members);
      }
    }
  }

  const Nothing := Build({}, {}, {}, {}, {}, {})
}
