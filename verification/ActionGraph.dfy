/**
 Action nodes and the finished action graph that the pipeline runs.
 */
module Actions {
  type NodeIndex = nat
  type Target = nat
  type ProjectId = nat

  datatype Option<+T> = None | Some(value: T)

  /** `config` stands for the arguments and environment a dependency passes on (0 when it passes none). */
  datatype ActionNode =
    | SyncWorkspace
    | SyncProject(project: ProjectId)
    | InstallDependencies(key: nat)
    | RunTask(target: Target, config: nat, interactive: bool, persistent: bool, priority: nat, id: nat)
  {
    function GetId(): nat {
      if RunTask? then id else 0
    }

    function GetPriority(): nat {
      if RunTask? then priority else 0
    }

    predicate IsInteractive() {
      RunTask? && interactive
    }

    predicate IsPersistent() {
      RunTask? && persistent
    }

    predicate IsStandard() {
      RunTask? ==> !interactive && !persistent
    }

    /** Nodes that never run beside another node with the same id. */
    predicate IsGuarded() {
      GetId() > 0 && IsStandard()
    }
  }
}

module ActionGraphs {
  import opened Actions
  import opened Digraph

  /** One priority level and the nodes in it; a `BTreeMap` lists its levels in ascending order. */
  datatype Group = Group(priority: nat, indices: seq<NodeIndex>) {
    /** The level with the node at one position only. */
    ghost function At(m: nat): Group
      requires m < |indices|
    {
      Group(priority, [indices[m]])
    }

    /** The level up to a position. */
    ghost function Before(m: nat): Group
      requires m <= |indices|
    {
      Group(priority, indices[..m])
    }
  }

  /** `out[a]` lists the nodes that `a` requires. */
  datatype ActionGraph = ActionGraph(out: map<NodeIndex, seq<NodeIndex>>, nodes: map<NodeIndex, ActionNode>) {
    ghost predicate Valid() {
      && nodes.Keys == out.Keys
      && forall a, b | a in out && b in out[a] :: b in out
    }

    function Indices(): set<NodeIndex> {
      out.Keys
    }

    ghost function Edges(): set<(NodeIndex, NodeIndex)> {
      set a, b | a in out && b in out[a] :: (a, b)
    }
  }

  ghost predicate InGroups(groups: seq<Group>, x: NodeIndex) {
    exists g | g in groups :: x in g.indices
  }

  ghost predicate Ascending(groups: seq<Group>) {
    forall i, j | 0 <= i < j < |groups| :: groups[i].priority < groups[j].priority
  }

  /** The nodes listed at a priority level, in order. */
  function Level(groups: seq<Group>, priority: nat): seq<NodeIndex> {
    if groups == [] then []
    else if groups[0].priority == priority then groups[0].indices
    else Level(groups[1..], priority)
  }

  /** `entry(priority).or_insert_with(Vec::new).push(x)` on the ordered map. */
  function Push(groups: seq<Group>, priority: nat, x: NodeIndex): seq<Group> {
    if groups == [] || priority < groups[0].priority then [Group(priority, [x])] + groups
    else if priority == groups[0].priority then [Group(priority, groups[0].indices + [x])] + groups[1..]
    else [groups[0]] + Push(groups[1..], priority, x)
  }

  lemma {:induction false} PushAbove(groups: seq<Group>, priority: nat, x: NodeIndex, low: nat)
    requires low < priority && forall g | g in groups :: low < g.priority
    ensures forall g | g in Push(groups, priority, x) :: low < g.priority
  {
    if groups != [] && groups[0].priority < priority {
      PushAbove(groups[1..], priority, x, low);
    }
  }

  lemma {:induction false} PushAscending(groups: seq<Group>, priority: nat, x: NodeIndex)
    requires Ascending(groups)
    ensures Ascending(Push(groups, priority, x))
  {
    if groups != [] && groups[0].priority < priority {
      PushAscending(groups[1..], priority, x);
      PushAbove(groups[1..], priority, x, groups[0].priority);
      AscendingCons(groups[0], Push(groups[1..], priority, x));
    }
  }

  lemma AscendingCons(head: Group, rest: seq<Group>)
    requires Ascending(rest) && forall g | g in rest :: head.priority < g.priority
    ensures Ascending([head] + rest)
  {
  }

  lemma {:induction false} PushLevel(groups: seq<Group>, priority: nat, x: NodeIndex, p: nat)
    requires Ascending(groups)
    ensures Level(Push(groups, priority, x), p) == Level(groups, p) + if p == priority then [x] else []
  {
    var pushed := Push(groups, priority, x);
    if groups == [] || priority < groups[0].priority {
      assert pushed[1..] == groups;
      LevelBelow(groups, priority);
    } else if priority == groups[0].priority {
      assert pushed[1..] == groups[1..];
    } else {
      assert pushed[1..] == Push(groups[1..], priority, x);
      PushLevel(groups[1..], priority, x, p);
    }
  }

  lemma LevelBelow(groups: seq<Group>, priority: nat)
    requires Ascending(groups) && (groups == [] || priority < groups[0].priority)
    ensures Level(groups, priority) == []
  {
  }

  /** The members of `order` with the given priority, in order. */
  function AtPriority(graph: ActionGraph, order: seq<NodeIndex>, priority: nat): seq<NodeIndex>
    requires forall x | x in order :: x in graph.nodes
  {
    if order == [] then []
    else
      var last := order[|order| - 1];
      AtPriority(graph, order[..|order| - 1], priority)
      + if graph.nodes[last].GetPriority() == priority then [last] else []
  }

  /** Splits a topological order into priority levels; every level keeps the order. */
  method GroupPriorities(graph: ActionGraph, order: seq<NodeIndex>) returns (groups: seq<Group>)
    requires forall x | x in order :: x in graph.nodes
    ensures Ascending(groups)
    ensures forall p: nat :: Level(groups, p) == AtPriority(graph, order, p)
    ensures forall x :: InGroups(groups, x) <==> x in order
    ensures forall g, x | g in groups && x in g.indices :: x in graph.nodes && g.priority == if graph.nodes[x].RunTask? then graph.nodes[x].priority else 0
  {
    groups := [];
    for i := 0 to |order|
      invariant Ascending(groups)
      invariant forall p: nat :: Level(groups, p) == AtPriority(graph, order[..i], p)
    {
      assert order[..i + 1][..i] == order[..i];
      var priority := graph.nodes[order[i]].GetPriority();
      PushAscending(groups, priority, order[i]);
      forall p: nat ensures Level(Push(groups, priority, order[i]), p) == AtPriority(graph, order[..i + 1], p) {
        PushLevel(groups, priority, order[i], p);
      }
      groups := Push(groups, priority, order[i]);
    }
    assert order[..|order|] == order;
    forall g, x | g in groups && x in g.indices ensures x in graph.nodes && g.priority == graph.nodes[x].GetPriority() {
      LevelOf(groups, g);
      AtPriorityMember(graph, order, g.priority, x);
    }
    forall x ensures InGroups(groups, x) <==> x in order {
      if InGroups(groups, x) {
        var g :| g in groups && x in g.indices;
        LevelOf(groups, g);
        AtPriorityMember(graph, order, g.priority, x);
      }
      if x in order {
        var p := graph.nodes[x].GetPriority();
        AtPriorityMember(graph, order, p, x);
        LevelInGroups(groups, p, x);
      }
    }
  }

  lemma {:induction false} AtPriorityMember(graph: ActionGraph, order: seq<NodeIndex>, p: nat, x: NodeIndex)
    requires forall y | y in order :: y in graph.nodes
    ensures x in AtPriority(graph, order, p) <==> x in order && graph.nodes[x].GetPriority() == p
  {
    if order != [] {
      AtPriorityMember(graph, order[..|order| - 1], p, x);
      assert order == order[..|order| - 1] + [order[|order| - 1]];
    }
  }

  lemma {:induction false} LevelOf(groups: seq<Group>, g: Group)
    requires Ascending(groups) && g in groups
    ensures Level(groups, g.priority) == g.indices
  {
    if groups[0] != g {
      assert g in groups[1..];
      LevelOf(groups[1..], g);
    }
  }

  lemma {:induction false} LevelInGroups(groups: seq<Group>, p: nat, x: NodeIndex)
    requires x in Level(groups, p)
    ensures InGroups(groups, x)
  {
    if groups[0].priority != p {
      LevelInGroups(groups[1..], p, x);
      var g :| g in groups[1..] && x in g.indices;
      assert g in groups;
    } else {
      assert groups[0] in groups;
    }
  }
}
