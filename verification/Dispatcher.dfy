/**
 The job dispatcher: picks the next node whose requirements have completed.
 */
module Dispatch {
  import opened Actions
  import opened ActionGraphs
  import opened Digraph

  predicate Ready(graph: ActionGraph, completed: set<NodeIndex>, x: NodeIndex)
    requires x in graph.out
  {
    forall d | d in graph.out[x] :: d in completed
  }

  /** A node that the search may return. */
  predicate Available(graph: ActionGraph, visited: set<NodeIndex>, completed: set<NodeIndex>, x: NodeIndex) {
    x in graph.out && x !in visited && x !in completed && Ready(graph, completed, x)
  }

  /** Only dispatched nodes complete, and nodes are dispatched only once their requirements completed. */
  ghost predicate Settled(graph: ActionGraph, visited: set<NodeIndex>, completed: set<NodeIndex>) {
    && completed <= visited <= graph.Indices()
    && forall v | v in visited :: Ready(graph, completed, v)
  }

  ghost function Avoiding(edges: set<(NodeIndex, NodeIndex)>, traversed: set<NodeIndex>): set<(NodeIndex, NodeIndex)> {
    set e | e in edges && e.1 !in traversed
  }

  /** `x` is `a` or one of its transitive requirements, by a path that stays out of `traversed`. */
  ghost predicate ReachesFresh(graph: ActionGraph, traversed: set<NodeIndex>, a: NodeIndex, x: NodeIndex) {
    a !in traversed && Reaches(Avoiding(graph.Edges(), traversed), a, x)
  }

  /** A search that returned nothing has expanded every fresh node it could not dispatch. */
  ghost predicate Expanded(graph: ActionGraph, settled: set<NodeIndex>, traversed: set<NodeIndex>, walked: set<NodeIndex>) {
    forall a, b | (a, b) in graph.Edges() && a in walked && a !in traversed && a !in settled :: b in walked
  }

  /** In an acyclic graph whose dispatched nodes have all completed, some undispatched node is available. */
  lemma QueuedNodeAvailable(graph: ActionGraph, visited: set<NodeIndex>) returns (x: NodeIndex)
    requires graph.Valid() && Acyclic(graph.Edges()) && visited < graph.Indices()
    ensures Available(graph, visited, visited, x)
  {
    assert !(graph.Indices() <= visited);
    var y :| y in graph.Indices() && y !in visited;
    assert y in graph.Indices() - visited;
    x := SinkExists(graph.Edges(), graph.Indices() - visited);
    forall d | d in graph.out[x] ensures d in visited {
      assert (x, d) in graph.Edges();
    }
  }

  /** No available node is left behind an exhausted search. */
  lemma ExhaustedSearch(graph: ActionGraph, visited: set<NodeIndex>, completed: set<NodeIndex>,
                        traversed: set<NodeIndex>, walked: set<NodeIndex>, a: NodeIndex, x: NodeIndex)
    requires graph.Valid() && Settled(graph, visited, completed)
    requires Expanded(graph, visited, traversed, walked) && a in walked && ReachesFresh(graph, traversed, a, x)
    ensures x in visited || (x in walked && x !in traversed)
  {
    var edges := Avoiding(graph.Edges(), traversed);
    var members := iset y | y in visited || (y in walked && y !in traversed);
    forall u, v | (u, v) in edges && u in members ensures v in members {
      if u in visited {
        assert v in graph.out[u];
      }
    }
    ReachesStaysIn(edges, a, x, members);
  }

  class JobDispatcher {
    const graph: ActionGraph
    var groups: seq<Group>
    var visited: set<NodeIndex>

    ghost predicate Valid()
      reads this
    {
      && graph.Valid()
      && visited <= graph.Indices()
      && Ascending(groups)
      && (forall x | InGroups(groups, x) :: x in graph.Indices())
      // Pruning never loses a node that still waits for its dispatch.
      && (forall x | x in graph.Indices() && x !in visited :: InGroups(groups, x))
    }

    constructor (graph: ActionGraph, groups: seq<Group>)
      requires graph.Valid() && Ascending(groups)
      requires forall x :: InGroups(groups, x) <==> x in graph.Indices()
      ensures Valid() && visited == {} && this.graph == graph && this.groups == groups
    {
      this.graph := graph;
      this.groups := groups;
      this.visited := {};
    }

    /** Comparing sizes decides whether any node is still to be dispatched. */
    method HasQueuedJobs() returns (queued: bool)
      requires Valid()
      ensures queued <==> exists x :: x in graph.Indices() && x !in visited
    {
      queued := |visited| < |graph.Indices()|;
      if x :| x in graph.Indices() && x !in visited {
        SubsetSmaller(visited, graph.Indices() - {x});
      } else {
        assert visited == graph.Indices();
      }
    }

    /**
     Depth-first search for a dispatchable node, sharing `traversed` between calls.
     Levels 0 and 1 look into the requirements of a blocked node, later levels do not.
     */
    method FindApplicableIndex(group: nat, index: NodeIndex, completed: set<NodeIndex>, traversed: set<NodeIndex>)
      returns (found: Option<NodeIndex>, walked: set<NodeIndex>)
      requires Valid() && index in graph.Indices() && traversed <= graph.Indices()
      ensures traversed + {index} <= walked <= graph.Indices()
      ensures found.Some? ==> found.value in walked - traversed && Available(graph, visited, completed, found.value)
      ensures found.Some? ==> ReachesFresh(graph, traversed, index, found.value)
      ensures found.Some? && group >= 2 ==> found.value == index
      ensures forall x | x in walked - traversed && Available(graph, visited, completed, x) :: found == Some(x)
      ensures group < 2 && found.None? ==> Expanded(graph, visited + completed, traversed, walked)
      // Completeness: nothing is returned exactly when nothing fresh below `index` can run.
      ensures group < 2 && Settled(graph, visited, completed) ==>
                (found.None? <==> forall x | ReachesFresh(graph, traversed, index, x) :: !Available(graph, visited, completed, x))
      decreases graph.Indices() - traversed, 1
    {
      if index in traversed || index in visited || index in completed {
        found, walked := None, traversed + {index};
      } else if Ready(graph, completed, index) {
        found, walked := Some(index), traversed + {index};
        ReachesSelf(Avoiding(graph.Edges(), traversed), index);
        assert ReachesFresh(graph, traversed, index, index);
      } else if group < 2 {
        found, walked := FindInRequirements(group, index, completed, traversed);
      } else {
        found, walked := None, traversed + {index};
      }
      if found.None? && group < 2 && Settled(graph, visited, completed) {
        assert visited + completed == visited;
        forall x | ReachesFresh(graph, traversed, index, x) ensures !Available(graph, visited, completed, x) {
          ExhaustedSearch(graph, visited, completed, traversed, walked, index, x);
        }
      }
    }

    /** The loop over the requirements of a blocked node. */
    method FindInRequirements(group: nat, index: NodeIndex, completed: set<NodeIndex>, traversed: set<NodeIndex>)
      returns (found: Option<NodeIndex>, walked: set<NodeIndex>)
      requires Valid() && index in graph.Indices() && traversed <= graph.Indices() && group < 2
      requires index !in traversed && index !in visited && index !in completed && !Ready(graph, completed, index)
      ensures traversed + {index} <= walked <= graph.Indices()
      ensures found.Some? ==> found.value in walked - traversed && Available(graph, visited, completed, found.value)
      ensures found.Some? ==> ReachesFresh(graph, traversed, index, found.value)
      ensures forall x | x in walked - traversed && Available(graph, visited, completed, x) :: found == Some(x)
      ensures found.None? ==> Expanded(graph, visited + completed, traversed, walked)
      decreases graph.Indices() - traversed, 0
    {
      walked := traversed + {index};
      var deps := graph.out[index];
      for i := 0 to |deps|
        invariant traversed + {index} <= walked <= graph.Indices()
        invariant forall d | d in deps[..i] :: d in walked
        invariant forall x | x in walked - traversed :: !Available(graph, visited, completed, x)
        invariant Expanded(graph, visited + completed, traversed + {index}, walked)
      {
        var before := walked;
        found, walked := FindApplicableIndex(group, deps[i], completed, before);
        if found.Some? {
          StepReachesFresh(graph, traversed, before, index, deps[i], found.value);
          return;
        }
        assert deps[..i + 1] == deps[..i] + [deps[i]];
      }
      found := None;
    }

    /**
     The part of a dispatch that looks for work of one level. `looks` counts the looks at the
     running jobs so far; `deferred` lists the available nodes they turned down.
     */
    method FindInGroup(group: Group, completed: set<NodeIndex>, running: nat -> map<NodeIndex, nat>,
                       traversed: set<NodeIndex>, looks: nat, ghost deferred: seq<NodeIndex>)
      returns (found: Option<NodeIndex>, traversed': set<NodeIndex>, looks': nat, ghost deferred': seq<NodeIndex>, ghost at: nat)
      requires Valid() && Settled(graph, visited, completed) && group in groups
      requires Swept(graph, visited, completed, running, traversed, looks, deferred)
      ensures deferred <= deferred'
      ensures found.Some? ==> Available(graph, visited, completed, found.value)
      // The first node of the level that leads to work: those listed before it are unavailable or were turned down.
      ensures found.Some? ==> at < |group.indices| && Serves(graph, group.At(at), found.value)
      ensures found.Some? ==> LevelsDeferred(graph, visited, completed, [group.Before(at)], deferred')
      ensures found.Some? && deferred' == [] && Expanded(graph, visited, {}, traversed) ==>
                LevelsExhausted(graph, visited, completed, [group.Before(at)])
      ensures found.Some? ==>
                && Turned(graph, visited, completed, running, deferred')
                && Dispatchable(graph, visited, completed, running(|deferred'|), found.value)
      ensures found.None? ==>
                && Swept(graph, visited, completed, running, traversed', looks', deferred')
                && traversed <= traversed'
                && forall x | x in group.indices :: x in traversed'
      ensures found.None? && deferred' == [] && group.priority < 2 && Expanded(graph, visited, {}, traversed) ==>
                Expanded(graph, visited, {}, traversed')
    {
      traversed', looks', deferred', at := traversed, looks, deferred, 0;
      for m := 0 to |group.indices|
        invariant deferred <= deferred' && traversed <= traversed'
        invariant forall x | x in group.indices[..m] :: x in traversed'
        invariant Swept(graph, visited, completed, running, traversed', looks', deferred')
        invariant deferred' == [] && group.priority < 2 && Expanded(graph, visited, {}, traversed) ==>
                    Expanded(graph, visited, {}, traversed')
      {
        var maybeIndex := group.indices[m];
        assert group.indices[..m + 1] == group.indices[..m] + [maybeIndex];
        assert InGroups(groups, maybeIndex) && visited + completed == visited;
        var before := traversed';
        found, traversed' := FindApplicableIndex(group.priority, maybeIndex, completed, before);
        SweptMore(graph, visited, completed, running, before, looks', deferred', found, traversed');
        if found.Some? {
          var node := graph.nodes[found.value];
          if !(node.IsGuarded() && node.GetId() in running(looks').Values) {
            at := m;
            FoundServes(graph, group.At(m), before, maybeIndex, found.value);
            BeforeWaits(graph, group, m, visited, completed, running, before, looks', deferred');
            return;
          }
          looks' := looks' + 1;
          deferred' := deferred' + [found.value];
        }
      }
      assert group.indices[..|group.indices|] == group.indices;
      found := None;
    }

    /** The search of one dispatch, level by level. */
    method FindNext(completed: set<NodeIndex>, running: nat -> map<NodeIndex, nat>)
      returns (found: Option<NodeIndex>, ghost deferred: seq<NodeIndex>)
      requires Valid() && Settled(graph, visited, completed)
      ensures Turned(graph, visited, completed, running, deferred)
      ensures found.Some? ==> Available(graph, visited, completed, found.value)
      ensures found.Some? ==> Dispatchable(graph, visited, completed, running(|deferred|), found.value)
      ensures found.None? ==> forall x | Available(graph, visited, completed, x) :: x in deferred
      ensures found.Some? ==> exists i, m :: First(graph, visited, completed, groups, deferred, i, m, found.value)
    {
      deferred := [];
      var looks := 0;
      var traversed: set<NodeIndex> := {};
      for i := 0 to |groups|
        invariant forall j, x | 0 <= j < i && x in groups[j].indices :: x in traversed
        invariant Swept(graph, visited, completed, running, traversed, looks, deferred)
        invariant deferred == [] ==> LevelsExhausted(graph, visited, completed, groups[..i])
        invariant deferred == [] && (i > 0 ==> groups[i - 1].priority < 2) ==> Expanded(graph, visited, {}, traversed)
      {
        ghost var before := deferred;
        assert LevelsDeferred(graph, visited, completed, groups[..i], before);
        ghost var at;
        found, traversed, looks, deferred, at := FindInGroup(groups[i], completed, running, traversed, looks, deferred);
        if found.Some? {
          FirstFound(graph, visited, completed, groups, before, deferred, i, at, found.value);
          return;
        }
        if deferred == [] {
          LevelExhausted(graph, groups[i], visited, completed, traversed);
          OneMoreExhausted(graph, visited, completed, groups, i);
        }
      }
      found := None;
      forall x | Available(graph, visited, completed, x) ensures x in deferred {
        assert InGroups(groups, x);
      }
    }

    /**
     One dispatch. `completed` is the snapshot taken at the start; `running(k)` is what the
     k-th look at the running jobs finds, as jobs finish while the search goes on.
     `deferred` lists the available nodes turned down because a job with their id was running.
     */
    method Next(completed: set<NodeIndex>, running: nat -> map<NodeIndex, nat>)
      returns (next: Option<NodeIndex>, ghost deferred: seq<NodeIndex>)
      requires Valid() && Settled(graph, visited, completed)
      modifies this
      ensures Valid()
      ensures Turned(graph, old(visited), completed, running, deferred)
      ensures next.Some? ==>
                && Dispatchable(graph, old(visited), completed, running(|deferred|), next.value)
                && visited == old(visited) + {next.value} && groups == old(groups)
      // Nothing is returned only when every available node was turned down.
      ensures next.None? ==>
                && visited == old(visited)
                && (forall x | Available(graph, visited, completed, x) :: x in deferred)
                && groups == Prune(old(groups), completed)
                && (forall x :: InGroups(groups, x) <==> InGroups(old(groups), x) && x !in completed)
      // Priority: levels are served in order and each from its first node on. What is listed before the node that
      // led to this one is unavailable or was turned down; if nothing was turned down, it leads to no work at all.
      ensures next.Some? ==> exists i, m :: First(graph, old(visited), completed, groups, deferred, i, m, next.value)
      // Deadlock freedom: with every dispatched node completed and no job running, a queued node is dispatched.
      ensures Acyclic(graph.Edges()) && completed == old(visited) != graph.Indices() && (forall k :: running(k) == map[]) ==>
                next.Some?
    {
      next, deferred := FindNext(completed, running);
      if next.Some? {
        visited := visited + {next.value};
      } else {
        if Acyclic(graph.Edges()) && completed == visited && visited != graph.Indices() {
          var x := QueuedNodeAvailable(graph, visited);
        }
        PruneAscending(groups, completed);
        PruneMembers(groups, completed);
        groups := Prune(groups, completed);
      }
    }
  }

  lemma SubsetSmaller<T>(a: set<T>, b: set<T>)
    requires a <= b
    ensures |a| <= |b|
  {
    assert b == a + (b - a);
  }

  lemma StepReachesFresh(graph: ActionGraph, traversed: set<NodeIndex>, before: set<NodeIndex>, index: NodeIndex, dep: NodeIndex, x: NodeIndex)
    requires index in graph.out && dep in graph.out[index] && index !in traversed && traversed <= before
    requires ReachesFresh(graph, before, dep, x)
    ensures ReachesFresh(graph, traversed, index, x)
  {
    var edges := Avoiding(graph.Edges(), traversed);
    ReachesMono(Avoiding(graph.Edges(), before), edges, dep, x);
    assert (index, dep) in edges;
    ReachesCons(edges, index, dep, x);
  }

  /** What a dispatch returns: available, and not sharing its id with a running job. */
  predicate Dispatchable(graph: ActionGraph, visited: set<NodeIndex>, completed: set<NodeIndex>, running: map<NodeIndex, nat>, x: NodeIndex)
    requires graph.nodes.Keys == graph.out.Keys
  {
    && Available(graph, visited, completed, x)
    && (graph.nodes[x].IsGuarded() ==> graph.nodes[x].GetId() !in running.Values)
  }

  /** Every deferred node is deferred once, was available, and shared its id with a job running when it was looked at. */
  ghost predicate Turned(graph: ActionGraph, visited: set<NodeIndex>, completed: set<NodeIndex>,
                         running: nat -> map<NodeIndex, nat>, deferred: seq<NodeIndex>)
    requires graph.nodes.Keys == graph.out.Keys
  {
    && (forall i, j | 0 <= i < j < |deferred| :: deferred[i] != deferred[j])
    && (forall k | 0 <= k < |deferred| ::
          && Available(graph, visited, completed, deferred[k])
          && !Dispatchable(graph, visited, completed, running(k), deferred[k]))
  }

  ghost predicate Swept(graph: ActionGraph, visited: set<NodeIndex>, completed: set<NodeIndex>,
                        running: nat -> map<NodeIndex, nat>, traversed: set<NodeIndex>, looks: nat, deferred: seq<NodeIndex>)
    requires graph.nodes.Keys == graph.out.Keys
  {
    && traversed <= graph.Indices()
    && looks == |deferred|
    && (forall x | x in deferred :: x in traversed)
    && Turned(graph, visited, completed, running, deferred)
    && forall x | x in traversed && Available(graph, visited, completed, x) :: x in deferred
  }

  /** One search leaves everything it traversed swept, once what it found is deferred. */
  lemma SweptMore(graph: ActionGraph, visited: set<NodeIndex>, completed: set<NodeIndex>,
                  running: nat -> map<NodeIndex, nat>, before: set<NodeIndex>, looks: nat, deferred: seq<NodeIndex>,
                  found: Option<NodeIndex>, traversed: set<NodeIndex>)
    requires graph.nodes.Keys == graph.out.Keys && Swept(graph, visited, completed, running, before, looks, deferred)
    requires before <= traversed <= graph.Indices()
    requires found.Some? ==> found.value in traversed - before && Available(graph, visited, completed, found.value)
    requires forall x | x in traversed - before && Available(graph, visited, completed, x) :: found == Some(x)
    ensures found.None? ==> Swept(graph, visited, completed, running, traversed, looks, deferred)
    ensures found.Some? && !Dispatchable(graph, visited, completed, running(looks), found.value) ==>
              Swept(graph, visited, completed, running, traversed, looks + 1, deferred + [found.value])
  {
  }

  /** `x` is work of a level: one of its nodes, or for levels 0 and 1 also a requirement of one. */
  ghost predicate Serves(graph: ActionGraph, group: Group, x: NodeIndex) {
    exists root | root in group.indices ::
      if group.priority < 2 then Reaches(graph.Edges(), root, x) else root == x
  }

  lemma FoundServes(graph: ActionGraph, group: Group, traversed: set<NodeIndex>, root: NodeIndex, x: NodeIndex)
    requires root in group.indices && ReachesFresh(graph, traversed, root, x)
    requires group.priority >= 2 ==> x == root
    ensures Serves(graph, group, x)
  {
    ReachesMono(Avoiding(graph.Edges(), traversed), graph.Edges(), root, x);
  }

  /** What a level lists before a position, once that was traversed. */
  lemma BeforeWaits(graph: ActionGraph, group: Group, m: nat, visited: set<NodeIndex>, completed: set<NodeIndex>,
                    running: nat -> map<NodeIndex, nat>, traversed: set<NodeIndex>, looks: nat, deferred: seq<NodeIndex>)
    requires graph.Valid() && Settled(graph, visited, completed) && m <= |group.indices|
    requires Swept(graph, visited, completed, running, traversed, looks, deferred) && forall x | x in group.indices[..m] :: x in traversed
    ensures LevelsDeferred(graph, visited, completed, [group.Before(m)], deferred)
    ensures deferred == [] && (group.priority < 2 ==> Expanded(graph, visited, {}, traversed)) ==>
      LevelsExhausted(graph, visited, completed, [group.Before(m)])
  {
    if deferred == [] && (group.priority < 2 ==> Expanded(graph, visited, {}, traversed)) {
      LevelExhausted(graph, group.Before(m), visited, completed, traversed);
    }
  }

  /** Node `x` is work of the node listed at position `m` of level `i`, and whatever is listed before that had to wait. */
  ghost predicate First(graph: ActionGraph, visited: set<NodeIndex>, completed: set<NodeIndex>, groups: seq<Group>,
                        deferred: seq<NodeIndex>, i: nat, m: nat, x: NodeIndex)
  {
    && i < |groups| && m < |groups[i].indices| && Serves(graph, groups[i].At(m), x)
    && LevelsDeferred(graph, visited, completed, groups[..i] + [groups[i].Before(m)], deferred)
    && (deferred == [] ==> LevelsExhausted(graph, visited, completed, groups[..i] + [groups[i].Before(m)]))
  }

  lemma FirstFound(graph: ActionGraph, visited: set<NodeIndex>, completed: set<NodeIndex>, groups: seq<Group>,
                   before: seq<NodeIndex>, deferred: seq<NodeIndex>, i: nat, m: nat, x: NodeIndex)
    requires i < |groups| && m < |groups[i].indices| && Serves(graph, groups[i].At(m), x) && before <= deferred
    requires LevelsDeferred(graph, visited, completed, groups[..i], before)
    requires LevelsDeferred(graph, visited, completed, [groups[i].Before(m)], deferred)
    requires deferred == [] ==> LevelsExhausted(graph, visited, completed, groups[..i])
    requires deferred == [] ==> LevelsExhausted(graph, visited, completed, [groups[i].Before(m)])
    ensures First(graph, visited, completed, groups, deferred, i, m, x)
  {
    forall g, y | g in groups[..i] + [groups[i].Before(m)] && y in g.indices && Available(graph, visited, completed, y)
      ensures y in deferred
    {
      assert g in groups[..i] || g in [groups[i].Before(m)];
      assert y in before ==> y in deferred;
    }
    forall g, y | deferred == [] && g in groups[..i] + [groups[i].Before(m)] && Serves(graph, g, y)
      ensures !Available(graph, visited, completed, y)
    {
      assert g in groups[..i] || g in [groups[i].Before(m)];
    }
  }

  /** Of the nodes that the levels list, those that are available were turned down. */
  ghost predicate LevelsDeferred(graph: ActionGraph, visited: set<NodeIndex>, completed: set<NodeIndex>, levels: seq<Group>, deferred: seq<NodeIndex>) {
    forall g, x | g in levels && x in g.indices && Available(graph, visited, completed, x) :: x in deferred
  }

  ghost predicate LevelsExhausted(graph: ActionGraph, visited: set<NodeIndex>, completed: set<NodeIndex>, levels: seq<Group>) {
    forall g, x | g in levels && Serves(graph, g, x) :: !Available(graph, visited, completed, x)
  }

  lemma LevelExhausted(graph: ActionGraph, group: Group, visited: set<NodeIndex>, completed: set<NodeIndex>, walked: set<NodeIndex>)
    requires graph.Valid() && Settled(graph, visited, completed)
    requires forall root | root in group.indices :: root in walked
    requires group.priority < 2 ==> Expanded(graph, visited, {}, walked)
    requires forall y | y in walked :: !Available(graph, visited, completed, y)
    ensures forall x | Serves(graph, group, x) :: !Available(graph, visited, completed, x)
  {
    forall x | Serves(graph, group, x) ensures !Available(graph, visited, completed, x) {
      var root :| root in group.indices &&
        if group.priority < 2 then Reaches(graph.Edges(), root, x) else root == x;
      if group.priority < 2 {
        assert Avoiding(graph.Edges(), {}) == graph.Edges();
        ExhaustedSearch(graph, visited, completed, {}, walked, root, x);
      }
    }
  }

  lemma OneMoreExhausted(graph: ActionGraph, visited: set<NodeIndex>, completed: set<NodeIndex>, groups: seq<Group>, i: nat)
    requires i < |groups| && LevelsExhausted(graph, visited, completed, groups[..i])
    requires forall x | Serves(graph, groups[i], x) :: !Available(graph, visited, completed, x)
    ensures LevelsExhausted(graph, visited, completed, groups[..i + 1])
  {
    assert groups[..i + 1] == groups[..i] + [groups[i]];
  }

  function Without(indices: seq<NodeIndex>, completed: set<NodeIndex>): (r: seq<NodeIndex>)
    ensures forall x :: x in r <==> x in indices && x !in completed
  {
    if indices == [] then []
    else (if indices[0] in completed then [] else [indices[0]]) + Without(indices[1..], completed)
  }

  /** `groups.retain`: drops completed nodes, then levels with no node left. */
  function Prune(groups: seq<Group>, completed: set<NodeIndex>): seq<Group> {
    if groups == [] then []
    else
      var kept := Without(groups[0].indices, completed);
      (if kept == [] then [] else [Group(groups[0].priority, kept)]) + Prune(groups[1..], completed)
  }

  lemma {:induction false} PruneAscending(groups: seq<Group>, completed: set<NodeIndex>)
    requires Ascending(groups)
    ensures Ascending(Prune(groups, completed))
    ensures forall g | g in Prune(groups, completed) :: exists h | h in groups :: h.priority == g.priority
  {
    if groups != [] {
      PruneAscending(groups[1..], completed);
      var rest := Prune(groups[1..], completed);
      forall g | g in rest ensures groups[0].priority < g.priority && exists h | h in groups :: h.priority == g.priority {
        var h :| h in groups[1..] && h.priority == g.priority;
        assert h in groups;
      }
      assert groups[0] in groups;
      AscendingCons(Group(groups[0].priority, Without(groups[0].indices, completed)), rest);
    }
  }

  lemma {:induction false} PruneMembers(groups: seq<Group>, completed: set<NodeIndex>)
    ensures forall x :: InGroups(Prune(groups, completed), x) <==> InGroups(groups, x) && x !in completed
  {
    if groups != [] {
      PruneMembers(groups[1..], completed);
      InGroupsCons(groups);
      var pruned := Prune(groups, completed);
      if Without(groups[0].indices, completed) == [] {
        assert pruned == Prune(groups[1..], completed);
      } else {
        InGroupsCons(pruned);
        assert pruned[1..] == Prune(groups[1..], completed);
      }
    }
  }

  /** Nodes stay or go one by one, in their order. */
  lemma {:induction false} WithoutInOrder(before: seq<NodeIndex>, after: seq<NodeIndex>, completed: set<NodeIndex>)
    ensures Without(before + after, completed) == Without(before, completed) + Without(after, completed)
  {
    if before == [] {
      assert before + after == after;
    } else {
      assert (before + after)[0] == before[0] && (before + after)[1..] == before[1..] + after;
      WithoutInOrder(before[1..], after, completed);
      Associative(if before[0] in completed then [] else [before[0]], Without(before[1..], completed), Without(after, completed));
    }
  }

  lemma Associative<T>(a: seq<T>, b: seq<T>, c: seq<T>)
    ensures a + (b + c) == (a + b) + c
  {
  }

  lemma WithoutOne(x: NodeIndex, completed: set<NodeIndex>)
    ensures Without([x], completed) == if x in completed then [] else [x]
  {
  }

  /** Levels stay, with what is left of them, or go one by one, in their order. */
  lemma {:induction false} PruneInOrder(before: seq<Group>, after: seq<Group>, completed: set<NodeIndex>)
    ensures Prune(before + after, completed) == Prune(before, completed) + Prune(after, completed)
  {
    if before == [] {
      assert before + after == after;
    } else {
      assert (before + after)[0] == before[0] && (before + after)[1..] == before[1..] + after;
      PruneInOrder(before[1..], after, completed);
      var kept := Without(before[0].indices, completed);
      Associative(if kept == [] then [] else [Group(before[0].priority, kept)], Prune(before[1..], completed), Prune(after, completed));
    }
  }

  lemma PruneOne(g: Group, completed: set<NodeIndex>)
    ensures Prune([g], completed) ==
      if forall x | x in g.indices :: x in completed then [] else [Group(g.priority, Without(g.indices, completed))]
  {
    var kept := Without(g.indices, completed);
    assert kept == [] <==> forall x | x in g.indices :: x in completed by {
      assert kept != [] ==> kept[0] in kept;
    }
  }

  lemma InGroupsCons(groups: seq<Group>)
    requires groups != []
    ensures forall x :: InGroups(groups, x) <==> x in groups[0].indices || InGroups(groups[1..], x)
  {
  }
}
