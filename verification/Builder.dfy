/**
 The action graph builder: fields updated in place by mutually recursive methods.
 */
module GraphBuilder {
  import opened Actions
  import opened Digraph
  import opened Requests
  import opened Workspaces
  import opened Builds
  import opened Wiring
  import opened BuildSteps
  import opened Delivery

  /** Failure is `ActionGraphError::WouldCycle`. */
  datatype Result<+T> = Success(value: T) | Failure

  /** Whether `a` reaches `b`, by closing `{a}` under the edges. */
  method HasPath(edges: set<Edge>, a: ActionNode, b: ActionNode) returns (r: bool)
    ensures r <==> Reaches(edges, a, b)
  {
    var seen, rest := {a}, edges;
    ReachesSelf(edges, a);
    while exists e :: e in rest && e.0 in seen
      invariant a in seen && rest <= edges
      invariant forall x | x in seen :: Reaches(edges, a, x)
      invariant forall e | e in edges && e !in rest :: e.1 in seen
      decreases rest
    {
      var e :| e in rest && e.0 in seen;
      ReachesSnoc(edges, a, e.0, e.1);
      seen, rest := seen + {e.1}, rest - {e};
    }
    r := b in seen;
    if Reaches(edges, a, b) {
      forall x, y | (x, y) in edges && x in seen ensures y in seen {
        assert (x, y).0 in seen;
      }
      ReachesStaysIn(edges, a, b, iset x | x in seen);
    }
  }

  method SetToSeq<T>(s: set<T>) returns (xs: seq<T>)
    ensures forall x :: x in xs <==> x in s
  {
    xs := [];
    var rest := s;
    while rest != {}
      invariant rest <= s && forall x :: x in xs <==> x in s && x !in rest
      decreases rest
    {
      var x :| x in rest;
      xs, rest := xs + [x], rest - {x};
    }
  }

  class ActionGraphBuilder {
    const w: Workspace
    ghost const requested: set<Target>
    var nodes: set<ActionNode>
    var edges: set<Edge>
    var serialEdges: set<Edge>
    var ignoredDependencies: set<Target>
    var ignoredDependents: set<Target>
    var passthrough: set<Target>
    ghost var ledger: Ledger

    ghost function State(): Build
      reads this
    {
      Build(nodes, edges, serialEdges, ignoredDependencies, ignoredDependents, passthrough)
    }

    constructor (w: Workspace, ghost requested: set<Target>)
      ensures this.w == w && this.requested == requested && State() == Nothing
      ensures Inv() && ledger == Ledger({}, {}, {}, {}, {})
    {
      this.w := w;
      this.requested := requested;
      nodes, edges, serialEdges, ignoredDependencies, ignoredDependents, passthrough := {}, {}, {}, {}, {}, {};
      ledger := Ledger({}, {}, {}, {}, {});
    }

    ghost predicate Inv()
      reads this
    {
      Holds(w, requested, State(), ledger)
    }

    /** What every part of the recursion keeps. */
    ghost predicate Steps(b: Build, l: Ledger)
      reads this
    {
      StepsTo(w, requested, b, l, State(), ledger)
    }

    /** Fails exactly when an edge that is missing would close a cycle. */
    method LinkRequirements(x: ActionNode, required: seq<ActionNode>) returns (ok: bool)
      modifies this`edges
      ensures ok <==> forall n | n in required :: (x, n) in old(edges) || !Reaches(old(edges), n, x)
      ensures ok ==> edges == old(edges) + OutOf(x, required)
      ensures Acyclic(old(edges)) ==> Acyclic(edges)
    {
      assert old(edges) + OutOf(x, required[..0]) == old(edges);
      for i := 0 to |required|
        invariant edges == old(edges) + OutOf(x, required[..i])
        invariant forall n | n in required[..i] :: (x, n) in old(edges) || !Reaches(old(edges), n, x)
        invariant Acyclic(old(edges)) ==> Acyclic(edges)
      {
        assert required[..i + 1] == required[..i] + [required[i]];
        assert OutOf(x, required[..i + 1]) == OutOf(x, required[..i]) + {(x, required[i])};
        OutEdgesKeepReach(old(edges), x, required[..i], required[i]);
        if (x, required[i]) !in edges {
          var cyclic := HasPath(edges, required[i], x);
          if cyclic {
            return false;
          }
          if Acyclic(edges) {
            AddEdgeKeepsAcyclic(edges, x, required[i]);
          }
          edges := edges + {(x, required[i])};
        }
      }
      assert required[..|required|] == required;
      ok := true;
    }

    /** Adds a serial edge unless it exists already or would close a cycle. */
    method TryLinkRequirements(y: ActionNode, previous: ActionNode)
      modifies this`edges, this`serialEdges
      ensures var added := if (y, previous) in old(edges) || Reaches(old(edges), previous, y) then {} else {(y, previous)};
        edges == old(edges) + added && serialEdges == old(serialEdges) + added
    {
      if (y, previous) !in edges {
        var cyclic := HasPath(edges, previous, y);
        if !cyclic {
          edges := edges + {(y, previous)};
          serialEdges := serialEdges + {(y, previous)};
        }
      }
    }

    /** The stack-driven walk: `ordered` lists the task subtree of `x`, each node once. */
    method CollectSubtree(x: ActionNode) returns (ordered: seq<ActionNode>)
      requires x in nodes && forall e | e in edges :: e.1 in nodes
      ensures forall y :: y in ordered <==> InSubtree(State(), x, y)
      ensures forall i, j | 0 <= i < j < |ordered| :: ordered[i] != ordered[j]
    {
      var visited: set<ActionNode> := {};
      var stack := [x];
      ordered := [];
      var walk := set e | e in edges && e !in serialEdges && e.1.RunTask?;
      assert walk == WalkEdges(State());
      ReachesSelf(walk, x);
      while stack != []
        invariant forall y :: y in visited <==> y in ordered
        invariant forall i, j | 0 <= i < j < |ordered| :: ordered[i] != ordered[j]
        invariant forall y | y in visited || y in stack :: y in nodes && Reaches(walk, x, y)
        invariant x in visited || x in stack
        invariant forall e | e in walk && e.0 in visited :: e.1 in visited || e.1 in stack
        decreases nodes - visited, |stack|
      {
        var y := stack[|stack| - 1];
        var rest := stack[..|stack| - 1];
        assert stack == rest + [y];
        if y in visited {
          stack := rest;
        } else {
          visited := visited + {y};
          ordered := ordered + [y];
          var children := set e | e in walk && e.0 == y :: e.1;
          var pushed := SetToSeq(children);
          forall z | z in children ensures z in nodes && Reaches(walk, x, z) {
            ReachesSnoc(walk, x, y, z);
          }
          stack := rest + pushed;
          assert forall e | e in walk && e.0 == y :: e.1 in children;
        }
      }
      forall y | Reaches(walk, x, y) ensures y in visited {
        ReachesStaysIn(walk, x, y, iset z | z in visited);
      }
    }

    /** Orders the whole task subtree of `x` after `previous`. */
    method LinkSerialRequirements(x: ActionNode, previous: ActionNode)
      requires WellFormed(w, State()) && x in nodes && previous in nodes && x.RunTask? && previous.RunTask?
      modifies this`edges, this`serialEdges
      ensures SeriallyLinked(old(State()), State(), x, previous) && WellFormed(w, State())
    {
      var ordered := CollectSubtree(x);
      ghost var b := State();
      ghost var from := TryLinkEach(ordered, previous);
      SerialKeepsShape(w, b, State(), x, previous, from);
    }

    /** Tries to link each node to `previous`; earlier links do not change the outcome of later ones. */
    method TryLinkEach(ordered: seq<ActionNode>, previous: ActionNode) returns (ghost from: set<ActionNode>)
      modifies this`edges, this`serialEdges
      ensures forall y :: y in from <==> y in ordered && (y, previous) !in old(edges) && !Reaches(old(edges), previous, y)
      ensures edges == old(edges) + Into(from, previous) && serialEdges == old(serialEdges) + Into(from, previous)
    {
      ghost var b := State();
      from := {};
      assert b.edges + Into({}, previous) == b.edges && b.serialEdges + Into({}, previous) == b.serialEdges;
      for i := 0 to |ordered|
        invariant forall y :: y in from <==> y in ordered[..i] && (y, previous) !in b.edges && !Reaches(b.edges, previous, y)
        invariant edges == b.edges + Into(from, previous) && serialEdges == b.serialEdges + Into(from, previous)
      {
        var y := ordered[i];
        EdgesIntoKeepAcyclic(b.edges, from, previous);
        TryLinkRequirements(y, previous);
        assert ordered[..i + 1] == ordered[..i] + [y];
        if (y, previous) !in b.edges && !Reaches(b.edges, previous, y) {
          assert Into(from + {y}, previous) == Into(from, previous) + {(y, previous)};
          from := from + {y};
        }
      }
      assert ordered[..|ordered|] == ordered;
    }

    /** Links a node that nothing requires yet to nodes that are no tasks, which cannot fail. */
    method LinkNew(x: ActionNode, required: seq<ActionNode>)
      requires WellFormed(w, State()) && x in nodes && NoIncoming(State(), x)
      requires x !in required && Placed(State(), required) && forall n | n in required :: !n.RunTask?
      modifies this`edges
      ensures WellFormed(w, State()) && edges == old(edges) + OutOf(x, required)
    {
      FreshLinks(State(), x, required);
      var ok := LinkRequirements(x, required);
      assert ok;
    }

    /** Inserts a node that is no task, if it is new. */
    method InsertNode(node: ActionNode)
      requires WellFormed(w, State()) && !node.RunTask?
      modifies this`nodes
      ensures WellFormed(w, State()) && nodes == old(nodes) + {node}
    {
      nodes := nodes + {node};
    }

    /** Syncs a project after the projects it depends on. Never fails, even if the project graph is cyclic. */
    method InternalSyncProject(p: ProjectId, skip: bool, cycle: set<ProjectId>) returns (r: Option<ActionNode>)
      requires WellFormed(w, State()) && p in w.projects
      modifies this`nodes, this`edges
      ensures WellFormed(w, State()) && Prepares(old(State()), State()) && OnlySettled(old(State()), State(), cycle)
      ensures r.Some? <==> p !in cycle && Syncs(w, p, skip)
      ensures r.Some? ==> r.value == SyncProject(p) && r.value in nodes
      ensures r.Some? && SyncProject(p) !in old(nodes) ==>
        forall n :: (SyncProject(p), n) in edges <==> n in SyncNeeds(w, p, skip, cycle + {p})
      decreases w.projects.Keys - cycle, 0
    {
      if p !in w.syncProjects || p in cycle || !w.ProjectAffected(p, skip) {
        return None;
      }
      ghost var b := State();
      var required := [];
      if w.syncWorkspace {
        InsertNode(SyncWorkspace);
        required := [SyncWorkspace];
      }
      if SyncProject(p) !in nodes {
        ghost var b1 := State();
        SyncNewProject(p, skip, cycle + {p}, required);
        SettledTrans(b, b1, State(), cycle, cycle + {p});
      }
      r := Some(SyncProject(p));
    }

    /** Creates the node of a project and links it after the projects it depends on. */
    method SyncNewProject(p: ProjectId, skip: bool, path: set<ProjectId>, first: seq<ActionNode>)
      requires WellFormed(w, State()) && p in w.projects && p in path && SyncProject(p) !in nodes
      requires Placed(State(), first) && forall n | n in first :: n == SyncWorkspace
      modifies this`nodes, this`edges
      ensures WellFormed(w, State()) && Prepares(old(State()), State()) && OnlySettled(old(State()), State(), path)
      ensures SyncProject(p) in nodes
      ensures forall n :: (SyncProject(p), n) in edges <==>
        n in first || (w.syncProjectDependencies && n in SyncsFirst(w, p, skip, path))
      decreases w.projects.Keys - path, 2
    {
      ghost var b := State();
      var node, required := SyncProject(p), first;
      InsertNode(node);
      if w.syncProjectDependencies {
        var synced := SyncProjectDependencies(p, skip, path);
        required := required + synced;
      }
      SettledMissesSelf(b, State(), p, path);
      LinkNew(node, required);
    }

    /** Syncs the dependencies of a project that are not being synced already. */
    method SyncProjectDependencies(p: ProjectId, skip: bool, path: set<ProjectId>) returns (required: seq<ActionNode>)
      requires WellFormed(w, State()) && p in w.projects && p in path
      modifies this`nodes, this`edges
      ensures WellFormed(w, State()) && Prepares(old(State()), State()) && OnlySettled(old(State()), State(), path)
      ensures Placed(State(), required) && forall n | n in required :: Settled(n, path)
      ensures forall n :: n in required <==> n in SyncsFirst(w, p, skip, path)
      decreases w.projects.Keys - path, 1
    {
      required := [];
      var deps := w.projects[p];
      for i := 0 to |deps|
        invariant WellFormed(w, State()) && Prepares(old(State()), State()) && OnlySettled(old(State()), State(), path)
        invariant Placed(State(), required) && forall n | n in required :: Settled(n, path)
        invariant forall n :: n in required <==> exists q | q in deps[..i] :: q !in path && Syncs(w, q, skip) && n == SyncProject(q)
      {
        if deps[i] !in path {
          ghost var b1 := State();
          var dep := InternalSyncProject(deps[i], skip, path);
          PreparesTrans(old(State()), b1, State(), path);
          if dep.Some? && dep.value != SyncProject(p) {
            required := required + [dep.value];
          }
        }
      }
    }

    /** The project sync and the install actions of a task, or else the workspace sync. */
    method PrepareTask(t: Target, skip: bool) returns (required: seq<ActionNode>)
      requires t in w.tasks && WellFormed(w, State())
      modifies this`nodes, this`edges
      ensures WellFormed(w, State()) && Prepares(old(State()), State()) && Placed(State(), required)
      ensures forall n :: n in required <==> n in Setup(w, t, skip)
      ensures forall n | n in required :: !n.RunTask?
    {
      var synced := InternalSyncProject(w.tasks[t].project, skip, {});
      ghost var b := State();
      var installs := InsertInstalls(w.tasks[t].leaves);
      PreparesMore(old(State()), b, State());
      required := (if synced.Some? then [synced.value] else []) + installs;
      assert forall n :: n in required <==> n in OwnSetup(w, t, skip);
      assert required == [] <==> OwnSetup(w, t, skip) == {} by {
        assert required != [] ==> required[0] in required;
      }
      if required == [] && w.syncWorkspace {
        InsertNode(SyncWorkspace);
        required := [SyncWorkspace];
      }
    }

    /** The install actions of a task. */
    method InsertInstalls(keys: seq<nat>) returns (installs: seq<ActionNode>)
      requires WellFormed(w, State())
      modifies this`nodes
      ensures WellFormed(w, State()) && Prepares(old(State()), State()) && Placed(State(), installs)
      ensures forall n :: n in installs <==> exists k | k in keys :: n == InstallDependencies(k)
    {
      installs := [];
      for i := 0 to |keys|
        invariant WellFormed(w, State()) && Prepares(old(State()), State()) && Placed(State(), installs)
        invariant forall n :: n in installs <==> exists k | k in keys[..i] :: n == InstallDependencies(k)
      {
        InsertNode(InstallDependencies(keys[i]));
        installs := installs + [InstallDependencies(keys[i])];
        assert keys[..i + 1] == keys[..i] + [keys[i]];
      }
      assert keys[..|keys|] == keys;
    }

    /** The dependents along which the request was passed on so far. */
    ghost function Follow(): set<(Target, Target)>
      reads this
    {
      From(w, ledger.down)
    }

    /** Visits start below what is open, and from scratch unless they run a dependency. */
    ghost predicate Ready(v: Visit)
      reads this
    {
      && Inv() && Allowed(w, requested, Follow(), v) && (!v.via ==> ledger.Idle())
      && (Lawful(w) ==> StrictlyAbove(w, ledger.open, v.t))
    }

    /**
     Runs one task. If task dependencies are acyclic, a cycle is reported exactly when the node was
     created without its dependencies and one of them has come after it since.
     */
    method InternalRunTask(v: Visit) returns (r: Result<Option<ActionNode>>)
      requires Ready(v)
      modifies this
      ensures Lawful(w) ==> (r.Failure? <==> Blocked(w, old(State()), v))
      ensures r.Success? ==> Visits(w, requested, v, old(State()), old(ledger), State(), ledger) && Found(w, v, State(), ledger, r.value)
      // A task that is filtered out in CI passes the request on to its dependents only when it is first met.
      ensures r.Success? && w.TaskAffected(v.t, v.skip) && !w.tasks[v.t].runs && v.t !in old(passthrough) ==>
        (v.t in ledger.down <==> Down(w, v))
      ensures r.Success? && w.TaskAffected(v.t, v.skip) && w.tasks[v.t].runs && !v.via && Up(w, v) && w.TaskNode(v.t, v.config) !in old(nodes) ==>
        LosesDependencies(w, v.t, old(ledger), ledger)
      decreases Missing(w, State()), Unmarked(w, State()), ignoredDependencies, ignoredDependents, 5
    {
      // Not affected, or marked as passthrough
      if !w.TaskAffected(v.t, v.skip) || v.t in passthrough {
        return Success(None);
      }
      // Filtered out in CI
      if !w.tasks[v.t].runs {
        r := BypassTask(v);
        return;
      }
      r := VisitTask(v);
    }

    /** Visits the node of a task that runs, creating it if need be. */
    method VisitTask(v: Visit) returns (r: Result<Option<ActionNode>>)
      requires Ready(v) && w.TaskAffected(v.t, v.skip) && w.tasks[v.t].runs
      modifies this
      ensures Lawful(w) ==> (r.Failure? <==> Blocked(w, old(State()), v))
      ensures r.Success? ==> Visits(w, requested, v, old(State()), old(ledger), State(), ledger) && Found(w, v, State(), ledger, r.value)
      ensures r.Success? && !v.via && Up(w, v) && w.TaskNode(v.t, v.config) !in old(nodes) ==> LosesDependencies(w, v.t, old(ledger), ledger)
      ensures r.Success? && w.TaskNode(v.t, v.config) !in old(nodes) ==>
        forall n | n in Setup(w, v.t, v.skip) :: (w.TaskNode(v.t, v.config), n) in edges
      decreases Missing(w, State()), Unmarked(w, State()), ignoredDependencies, ignoredDependents, 4
    {
      if w.TaskNode(v.t, v.config) in nodes {
        r := RevisitTask(v);
      } else {
        r := AddTask(v);
      }
    }

    /** Visits a node that exists. */
    method RevisitTask(v: Visit) returns (r: Result<Option<ActionNode>>)
      requires Ready(v) && w.TaskAffected(v.t, v.skip) && w.tasks[v.t].runs && w.TaskNode(v.t, v.config) in nodes
      modifies this
      ensures Lawful(w) ==> (r.Failure? <==> Blocked(w, old(State()), v))
      ensures r.Success? ==> Visits(w, requested, v, old(State()), old(ledger), State(), ledger) && Found(w, v, State(), ledger, r.value)
      decreases Missing(w, State()), Unmarked(w, State()), ignoredDependencies, ignoredDependents, 3
    {
      ghost var b, l := State(), ledger;
      var hadDependencies, hadDependents := TakeIgnored(v);
      RevisitOpens(w, requested, b, l, v, hadDependencies, hadDependents);
      ledger := Opened(l, w.TaskNode(v.t, v.config), v.t, hadDependencies, hadDependents);
      r := CatchUp(v, hadDependencies, hadDependents, b, l);
    }

    /** Visits a node that does not exist yet. */
    method AddTask(v: Visit) returns (r: Result<Option<ActionNode>>)
      requires Ready(v) && w.TaskAffected(v.t, v.skip) && w.tasks[v.t].runs && w.TaskNode(v.t, v.config) !in nodes
      modifies this
      ensures Lawful(w) ==> r.Success?
      ensures r.Success? ==> Visits(w, requested, v, old(State()), old(ledger), State(), ledger) && Found(w, v, State(), ledger, r.value)
      ensures r.Success? && !v.via && Up(w, v) ==> LosesDependencies(w, v.t, old(ledger), ledger)
      ensures r.Success? ==> forall n | n in Setup(w, v.t, v.skip) :: (w.TaskNode(v.t, v.config), n) in edges
      decreases Missing(w, State()), Unmarked(w, State()), ignoredDependencies, ignoredDependents, 3
    {
      ghost var b, l := State(), ledger;
      var hadDependencies, hadDependents := TakeIgnored(v);
      InsertOpens(w, requested, b, l, v);
      ledger := l.(open := l.open + {w.TaskNode(v.t, v.config)}, pending := l.pending + {v.t});
      r := InsertTask(v, b, l);
    }

    /** Takes the marks of a target whose dependencies or dependents are in scope now. */
    method TakeIgnored(v: Visit) returns (hadDependencies: bool, hadDependents: bool)
      modifies this`ignoredDependencies, this`ignoredDependents
      ensures State() == Consumed(w, old(State()), v)
      ensures hadDependencies <==> Up(w, v) && v.t in old(ignoredDependencies)
      ensures hadDependents <==> Down(w, v) && v.t in old(ignoredDependents)
    {
      var up := w.upstream.InScope(v.depth);
      var down := !v.via && w.downstream.InScope(v.depth);
      hadDependencies, hadDependents := up && v.t in ignoredDependencies, down && v.t in ignoredDependents;
      if up {
        ignoredDependencies := ignoredDependencies - {v.t};
      }
      if down {
        ignoredDependents := ignoredDependents - {v.t};
      }
    }

    /** A task that must not run itself; its dependents may still run. */
    method BypassTask(v: Visit) returns (r: Result<Option<ActionNode>>)
      requires Ready(v) && w.TaskAffected(v.t, v.skip) && !w.tasks[v.t].runs && v.t !in passthrough
      modifies this
      ensures Lawful(w) ==> r.Success?
      ensures r.Success? ==> r.value == None && Bypasses(w, requested, v, old(State()), old(ledger), State(), ledger)
      decreases Missing(w, State()), Unmarked(w, State()), ignoredDependencies, ignoredDependents, 2
    {
      ghost var b, l := State(), ledger;
      passthrough := passthrough + {v.t};
      BypassMarks(w, b, State(), v.t);
      BypassHolds(w, requested, b, State(), l, v);
      ledger := Bypassed(w, l, v);
      if !v.via && w.downstream.InScope(v.depth) {
        ghost var b1, l1 := State(), ledger;
        WantedMono(w, requested, From(w, l.down), Follow(), v.t);
        var ok := ResumeDependents(v, l.downOpen);
        if ok {
          BypassSteps(w, requested, b, l, v, b1, l1, State(), ledger);
        }
        r := if ok then Success(None) else Failure;
      } else {
        BypassLoses(w, requested, b, State(), l, v);
        r := Success(None);
      }
    }

    /** The node exists: runs what was ignored when it was created. */
    method CatchUp(v: Visit, hadDependencies: bool, hadDependents: bool, ghost b: Build, ghost l: Ledger) returns (r: Result<Option<ActionNode>>)
      requires Reopens(w, requested, v, hadDependencies, hadDependents, b, l)
      requires State() == Consumed(w, b, v) && ledger == Opened(l, w.TaskNode(v.t, v.config), v.t, hadDependencies, hadDependents)
      modifies this
      ensures Lawful(w) ==> (r.Failure? <==> hadDependencies && Reached(w, b.edges, w.TaskNode(v.t, v.config)))
      ensures r.Success? ==> Visits(w, requested, v, b, l, State(), ledger) && Found(w, v, State(), ledger, r.value)
      decreases Missing(w, b), Unmarked(w, b), b.ignoredDependencies, b.ignoredDependents, 2
    {
      var ok := ResumeDependencies(v, hadDependencies, l.open);
      r := Failure;
      if ok {
        r := CatchUpDependents(v, hadDependencies, hadDependents, b, l);
      }
    }

    /** The dependencies were run if need be: follows the dependents that were ignored. */
    method CatchUpDependents(v: Visit, ghost hadDependencies: bool, hadDependents: bool, ghost b: Build, ghost l: Ledger)
      returns (r: Result<Option<ActionNode>>)
      requires Revisits(w, requested, v, hadDependencies, hadDependents, b, l)
      requires Catches(w, requested, v, hadDependencies, l.open, Consumed(w, b, v),
        Opened(l, w.TaskNode(v.t, v.config), v.t, hadDependencies, hadDependents), State(), ledger)
      modifies this
      ensures Lawful(w) ==> r.Success?
      ensures r.Success? ==> Visits(w, requested, v, b, l, State(), ledger) && Found(w, v, State(), ledger, r.value)
      decreases Missing(w, b), Unmarked(w, b), b.ignoredDependencies, b.ignoredDependents, 1
    {
      ghost var b1, l1 := State(), ledger;
      var ok := true;
      if hadDependents {
        WantedMono(w, requested, From(w, l.down), Follow(), v.t);
        ok := ResumeDependents(v, l.downOpen);
      }
      if ok {
        CatchUpVisits(w, requested, v, hadDependencies, hadDependents, b, l, b1, l1, State(), ledger);
      }
      r := if ok then Success(Some(w.TaskNode(v.t, v.config))) else Failure;
    }

    /** Runs the dependencies that were ignored when the node was created. */
    method ResumeDependencies(v: Visit, hadDependencies: bool, ghost open: set<ActionNode>) returns (ok: bool)
      requires Inv() && Chosen(w, requested, Follow(), v) && w.TaskNode(v.t, v.config) in nodes && w.tasks[v.t].runs
      requires hadDependencies ==> Up(w, v) && !w.upstream.Deep? && (Lawful(w) ==> Above(w, ledger.open, v.t))
      requires ledger.open == if hadDependencies then open + {w.TaskNode(v.t, v.config)} else open
      modifies this
      ensures Lawful(w) ==> (ok <==> !(hadDependencies && Reached(w, old(State()).edges, w.TaskNode(v.t, v.config))))
      ensures ok ==> Catches(w, requested, v, hadDependencies, open, old(State()), old(ledger), State(), ledger)
      ensures !hadDependencies ==> ok
      decreases Missing(w, State()), Unmarked(w, State()), ignoredDependencies, ignoredDependents, if hadDependencies then 11 else 1
    {
      ghost var b, l := State(), ledger;
      ok := true;
      if hadDependencies {
        if w.tasks[v.t].deps != [] {
          ok := RequireDependencies(v, []);
        } else {
          NoDependencies(w, State(), w.TaskNode(v.t, v.config));
        }
        if ok {
          CatchesUp(w, requested, v, open, b, l, State(), ledger);
          ledger := ledger.(open := open);
        }
      }
    }

    /** The dependents of the target may be followed. */
    ghost predicate CanFollow(t: Target, depth: nat)
      reads this
    {
      && t in w.tasks && w.downstream.InScope(depth) && ledger.Idle() && t in ledger.down
      && Wanted(w, requested, Follow(), t) && (depth == 0 ==> Primary(w, requested, t))
    }

    /** Follows the dependents of a target that is noted as open. */
    method ResumeDependents(v: Visit, ghost downOpen: set<Target>) returns (ok: bool)
      requires Inv() && CanFollow(v.t, v.depth) && ledger.downOpen == downOpen + {v.t}
      modifies this
      ensures Lawful(w) ==> ok
      ensures ok ==> Resumes(w, requested, v.t, true, downOpen, old(State()), old(ledger), State(), ledger)
      decreases Missing(w, State()), Unmarked(w, State()), ignoredDependencies, ignoredDependents, 9
    {
      ok := RunTaskDependents(v.t, v.depth);
      if ok {
        CloseDown(w, State(), ledger, v.t, downOpen);
        ledger := ledger.(downOpen := downOpen);
      }
    }

    /** The node is new: creates it, links it, and follows its dependents. */
    method InsertTask(v: Visit, ghost b: Build, ghost l: Ledger) returns (r: Result<Option<ActionNode>>)
      requires Inv() && State() == Consumed(w, b, v) && Chosen(w, requested, Follow(), v) && (!v.via ==> l.Idle())
      requires ledger == l.(open := l.open + {w.TaskNode(v.t, v.config)}, pending := l.pending + {v.t})
      requires Lawful(w) ==> Above(w, ledger.open, v.t)
      requires w.TaskNode(v.t, v.config) !in nodes && w.TaskAffected(v.t, v.skip) && w.tasks[v.t].runs
      modifies this
      ensures Lawful(w) ==> r.Success?
      ensures r.Success? ==> Visits(w, requested, v, b, l, State(), ledger) && Found(w, v, State(), ledger, r.value)
      ensures r.Success? && !v.via && Up(w, v) ==> LosesDependencies(w, v.t, l, ledger)
      ensures r.Success? ==> forall n | n in Setup(w, v.t, v.skip) :: (w.TaskNode(v.t, v.config), n) in edges
      decreases Missing(w, b), Unmarked(w, b), b.ignoredDependencies, b.ignoredDependents, 2
    {
      var ok := EstablishTask(v);
      r := Failure;
      if ok {
        r := ConcludeTask(v, b, l);
      }
    }

    /** The node is in place and linked: follows its dependents. */
    method ConcludeTask(v: Visit, ghost b: Build, ghost l: Ledger) returns (r: Result<Option<ActionNode>>)
      requires Chosen(w, requested, From(w, l.down), v) && (!v.via ==> l.Idle()) && w.TaskAffected(v.t, v.skip) && w.tasks[v.t].runs
      requires w.TaskNode(v.t, v.config) !in b.nodes
      requires Establishes(w, requested, v, Consumed(w, b, v),
        l.(open := l.open + {w.TaskNode(v.t, v.config)}, pending := l.pending + {v.t}), State(), ledger)
      modifies this
      ensures Lawful(w) ==> r.Success?
      ensures r.Success? ==> Visits(w, requested, v, b, l, State(), ledger) && Found(w, v, State(), ledger, r.value)
      ensures r.Success? && !v.via && Up(w, v) ==> LosesDependencies(w, v.t, l, ledger)
      ensures r.Success? ==> old(edges) <= edges
      decreases Missing(w, b), Unmarked(w, b), b.ignoredDependencies, b.ignoredDependents, 1
    {
      ghost var b1, l1 := State(), ledger;
      assert w.TaskNode(v.t, v.config) in Missing(w, b) && w.TaskNode(v.t, v.config) !in Missing(w, b1);
      var ok := FollowTask(v, l);
      if ok {
        InsertVisits(w, requested, v, b, l, b1, l1, State(), ledger);
      }
      r := if ok then Success(Some(w.TaskNode(v.t, v.config))) else Failure;
    }

    /** Creates the node of a new task and links it to everything it requires. */
    method EstablishTask(v: Visit) returns (ok: bool)
      requires Inv() && Chosen(w, requested, Follow(), v) && w.tasks[v.t].runs
      requires w.TaskNode(v.t, v.config) !in nodes && w.TaskNode(v.t, v.config) in ledger.open && v.t in ledger.pending
      requires Lawful(w) ==> Above(w, ledger.open, v.t)
      modifies this
      ensures Lawful(w) ==> ok
      ensures ok ==> Establishes(w, requested, v, old(State()), old(ledger), State(), ledger)
      ensures ok ==> forall n | n in Setup(w, v.t, v.skip) :: (w.TaskNode(v.t, v.config), n) in edges
      decreases Missing(w, State()), Unmarked(w, State()), ignoredDependencies, ignoredDependents, 1
    {
      ghost var b := State();
      var required := PlaceTask(v);
      ghost var b1 := State();
      assert w.TaskNode(v.t, v.config) in Missing(w, b) && w.TaskNode(v.t, v.config) !in Missing(w, b1);
      ok := LinkTask(v, required);
      if ok {
        GrowsTrans(b, b1, State());
        if Up(w, v) {
          QuietRoots(w, b, b1, State(), w.TaskNode(v.t, v.config));
        }
      }
    }

    /** Inserts the node of a new task and prepares what it requires besides other tasks. */
    method PlaceTask(v: Visit) returns (required: seq<ActionNode>)
      requires Inv() && Chosen(w, requested, Follow(), v) && w.tasks[v.t].runs
      requires w.TaskNode(v.t, v.config) !in nodes && w.TaskNode(v.t, v.config) in ledger.open && v.t in ledger.pending
      modifies this`nodes, this`edges, this`ignoredDependencies
      ensures Inv() && Grows(old(State()), State()) && Quiet(old(State()), State())
      ensures w.TaskNode(v.t, v.config) in nodes && NoIncoming(State(), w.TaskNode(v.t, v.config))
      ensures Placed(State(), required) && (forall n | n in required :: !n.RunTask?)
      ensures forall n | n in Setup(w, v.t, v.skip) :: n in required
      ensures Up(w, v) || w.tasks[v.t].deps == [] || v.t in ignoredDependencies
    {
      ghost var b := State();
      required := PrepareTask(v.t, v.skip);
      ghost var b1 := State();
      TidyLink(w, b, b1, ledger.open);
      ReasonedMono(w, b.nodes, b1.nodes, b.serialEdges);
      HoldsKept(w, requested, b, b1, ledger);
      PlaceNode(v);
    }

    /** Inserts the node of a new task, and notes its dependencies as ignored if they are out of scope. */
    method PlaceNode(v: Visit)
      requires Inv() && Chosen(w, requested, Follow(), v) && w.tasks[v.t].runs
      requires w.TaskNode(v.t, v.config) !in nodes && w.TaskNode(v.t, v.config) in ledger.open && v.t in ledger.pending
      modifies this`nodes, this`ignoredDependencies
      ensures Inv() && nodes == old(nodes) + {w.TaskNode(v.t, v.config)} && NoIncoming(State(), w.TaskNode(v.t, v.config))
      ensures Up(w, v) || w.tasks[v.t].deps == [] || v.t in ignoredDependencies
    {
      ghost var b := State();
      nodes := nodes + {w.TaskNode(v.t, v.config)};
      if w.tasks[v.t].deps != [] && !w.upstream.InScope(v.depth) {
        ignoredDependencies := ignoredDependencies + {v.t};
      }
      PlaceHolds(w, requested, b, State(), ledger, v);
    }

    /** Links a task to what it requires and, in scope, to its dependencies. */
    method LinkTask(v: Visit, required: seq<ActionNode>) returns (ok: bool)
      requires Inv() && Chosen(w, requested, Follow(), v) && w.tasks[v.t].runs && w.TaskNode(v.t, v.config) in nodes
      requires Placed(State(), required) && (forall n | n in required :: !n.RunTask?)
      requires NoIncoming(State(), w.TaskNode(v.t, v.config)) && (Lawful(w) ==> Above(w, ledger.open, v.t))
      requires w.TaskNode(v.t, v.config) in ledger.open
      requires Up(w, v) || w.tasks[v.t].deps == [] || v.t in ignoredDependencies
      modifies this
      ensures Lawful(w) ==> ok
      ensures ok ==> Steps(old(State()), old(ledger)) && Closable(w, State(), w.TaskNode(v.t, v.config))
      ensures ok ==> ledger.down == old(ledger).down && Roots(w, old(State()), State(), w.TaskNode(v.t, v.config))
      ensures ok ==> forall n | n in required :: (w.TaskNode(v.t, v.config), n) in edges
      ensures ok && Up(w, v) ==> Expanded(w, State(), w.TaskNode(v.t, v.config))
      ensures ok && !Up(w, v) ==> Quiet(old(State()), State())
      ensures ok && Lawful(w) ==> OnlyBelow(w, v.t, old(State()), State())
      decreases Missing(w, State()), Unmarked(w, State()), ignoredDependencies, ignoredDependents, 11
    {
      var node := w.TaskNode(v.t, v.config);
      if Lawful(w) {
        FreshNotReached(w, State(), node);
      }
      if w.upstream.InScope(v.depth) {
        ok := RequireDependencies(v, required);
      } else {
        LinkSetup(node, required);
        NoDependencies(w, State(), node);
        ok := true;
      }
    }

    /** Links a new task to what it requires besides other tasks. */
    method LinkSetup(node: ActionNode, required: seq<ActionNode>)
      requires Inv() && w.IsTaskNode(node) && node in nodes && NoIncoming(State(), node)
      requires Placed(State(), required) && (forall n | n in required :: !n.RunTask?)
      modifies this`edges
      ensures Steps(old(State()), ledger) && Quiet(old(State()), State())
      ensures forall n | n in required :: (node, n) in edges
    {
      ghost var b := State();
      LinkNew(node, required);
      LinkHolds(w, requested, b, State(), ledger, node, required);
    }

    /** Runs the dependencies of a task and links its node to them. */
    method RequireDependencies(v: Visit, required: seq<ActionNode>) returns (ok: bool)
      requires Inv() && Chosen(w, requested, Follow(), v) && w.tasks[v.t].runs && Up(w, v) && w.TaskNode(v.t, v.config) in nodes
      requires Placed(State(), required) && (forall n | n in required :: !n.RunTask?)
      requires w.upstream.Deep? ==> NoIncoming(State(), w.TaskNode(v.t, v.config))
      requires Lawful(w) ==> Above(w, ledger.open, v.t)
      modifies this
      ensures Lawful(w) ==> (ok <==> !Reached(w, old(State()).edges, w.TaskNode(v.t, v.config)))
      ensures ok ==> Steps(old(State()), old(ledger)) && Expanded(w, State(), w.TaskNode(v.t, v.config))
      ensures ok ==> ledger.down == old(ledger).down && Roots(w, old(State()), State(), w.TaskNode(v.t, v.config))
      ensures ok ==> forall n | n in required :: (w.TaskNode(v.t, v.config), n) in edges
      ensures ok && Lawful(w) && w.upstream.Deep? ==> SerialDone(w, State(), w.TaskNode(v.t, v.config))
      ensures ok && Lawful(w) ==> OnlyBelow(w, v.t, old(State()), State())
      decreases Missing(w, State()), Unmarked(w, State()), ignoredDependencies, ignoredDependents, 10
    {
      var node := w.TaskNode(v.t, v.config);
      ghost var b, l := State(), ledger;
      assert HasTask(b, v.t);
      var deps := RunTaskDependencies(v.t, v.depth);
      ok := deps.Success?;
      if ok {
        ghost var b1, l1 := State(), ledger;
        if Lawful(w) {
          ReachedBefore(w, b, b1, node);
        }
        ok := LinkDependencies(v, required, deps.value);
        if ok {
          StepsTrans(w, requested, b, l, b1, l1, State(), ledger);
          ChainsRoots(w, b, b1, State(), node);
        }
      }
    }

    /** Links a task to its dependencies, once they are in place. Fails exactly when one of them comes after the task. */
    method LinkDependencies(v: Visit, required: seq<ActionNode>, deps: seq<ActionNode>) returns (ok: bool)
      requires Inv() && CanVisit(w, v) && w.TaskNode(v.t, v.config) in nodes
      requires Placed(State(), required) && (forall n | n in required :: !n.RunTask?)
      requires Ran(w, State(), v.t, |w.tasks[v.t].deps|, deps)
      modifies this`edges
      ensures ok <==> !Reached(w, old(State()).edges, w.TaskNode(v.t, v.config))
      ensures ok ==> Steps(old(State()), ledger) && Expanded(w, State(), w.TaskNode(v.t, v.config))
      ensures ok ==> edges == old(edges) + OutOf(w.TaskNode(v.t, v.config), required + deps)
      ensures ok && Lawful(w) && w.upstream.Deep? ==> SerialDone(w, State(), w.TaskNode(v.t, v.config))
      ensures ok ==> OnlyBelow(w, v.t, old(State()), State())
    {
      var node := w.TaskNode(v.t, v.config);
      ghost var b := State();
      RanAll(w, b, node, deps);
      LinkableIfNotReached(w, b, node, required);
      ok := LinkRequirements(node, required + deps);
      if ok {
        LinkSteps(w, requested, b, State(), ledger, node, required, deps);
      }
    }

    /** Runs the dependencies in order; serially, the whole subtree of each comes after the previous one. */
    method RunTaskDependencies(t: Target, depth: nat) returns (r: Result<seq<ActionNode>>)
      requires Inv() && t in w.tasks && HasTask(State(), t) && w.upstream.InScope(depth) && Expected(w, requested, Follow(), t)
      requires (depth == 0 ==> Primary(w, requested, t)) && (Lawful(w) ==> Above(w, ledger.open, t))
      modifies this
      ensures Lawful(w) ==> r.Success?
      ensures r.Success? ==> Supplies(w, requested, t, old(State()), old(ledger), State(), ledger)
      ensures r.Success? ==> Ran(w, State(), t, |w.tasks[t].deps|, r.value)
      decreases Missing(w, State()), Unmarked(w, State()), ignoredDependencies, ignoredDependents, 9
    {
      SuppliesNothing(w, requested, t, State(), ledger);
      RanNothing(w, State(), t);
      r := RunEachDependency(t, depth, State(), ledger);
    }

    /** The loop over the dependencies; `b` and `l` are what it started from. */
    method RunEachDependency(t: Target, depth: nat, ghost b: Build, ghost l: Ledger) returns (r: Result<seq<ActionNode>>)
      requires t in w.tasks && HasTask(b, t) && w.upstream.InScope(depth) && Expected(w, requested, From(w, l.down), t)
      requires (depth == 0 ==> Primary(w, requested, t)) && (Lawful(w) ==> Above(w, l.open, t))
      requires Supplies(w, requested, t, b, l, State(), ledger) && Ran(w, State(), t, 0, [])
      modifies this
      ensures Lawful(w) ==> r.Success?
      ensures r.Success? ==> Supplies(w, requested, t, b, l, State(), ledger) && Ran(w, State(), t, |w.tasks[t].deps|, r.value)
      decreases Missing(w, b), Unmarked(w, b), b.ignoredDependencies, b.ignoredDependents, 8
    {
      r := Success([]);
      var i := 0;
      while r.Success? && i < |w.tasks[t].deps|
        invariant i <= |w.tasks[t].deps| && (Lawful(w) ==> r.Success?)
        invariant r.Success? ==> Supplies(w, requested, t, b, l, State(), ledger) && Ran(w, State(), t, i, r.value)
      {
        r := RunTaskDependency(t, depth, i, r.value, b, l);
        i := i + 1;
      }
    }

    /** Runs the dependency at position `i`, after the ones already found. */
    method RunTaskDependency(t: Target, depth: nat, i: nat, found: seq<ActionNode>, ghost b: Build, ghost l: Ledger) returns (r: Result<seq<ActionNode>>)
      requires t in w.tasks && HasTask(b, t) && w.upstream.InScope(depth) && Expected(w, requested, From(w, l.down), t)
      requires (depth == 0 ==> Primary(w, requested, t)) && (Lawful(w) ==> Above(w, l.open, t))
      requires Supplies(w, requested, t, b, l, State(), ledger) && i < |w.tasks[t].deps| && Ran(w, State(), t, i, found)
      modifies this
      ensures Lawful(w) ==> r.Success?
      ensures r.Success? ==> Supplies(w, requested, t, b, l, State(), ledger) && Ran(w, State(), t, i + 1, r.value)
      decreases Missing(w, b), Unmarked(w, b), b.ignoredDependencies, b.ignoredDependents, 7
    {
      ghost var b1, l1 := State(), ledger;
      var dep := VisitDependency(t, depth, i);
      if dep.Failure? {
        r := Failure;
      } else {
        SuppliesTrans(w, requested, t, b, l, b1, l1, State(), ledger);
        RanMono(w, b1, State(), t, i, found);
        var more := KeepDependency(t, i, found, dep.value, b, l);
        r := Success(more);
      }
    }

    /** Adds the dependency that was run, if it has a node, to the ones already found. */
    method KeepDependency(t: Target, i: nat, found: seq<ActionNode>, dep: Option<ActionNode>, ghost b: Build, ghost l: Ledger) returns (more: seq<ActionNode>)
      requires t in w.tasks && HasTask(b, t) && i < |w.tasks[t].deps| && (Lawful(w) ==> Above(w, ledger.open, t))
      requires Supplies(w, requested, t, b, l, State(), ledger) && Ran(w, State(), t, i, found)
      requires var d := w.tasks[t].deps[i];
        if w.tasks[d.target].runs then dep == Some(w.TaskNode(d.target, d.config)) && dep.value in nodes
        else dep == None && d.target in passthrough
      modifies this`edges, this`serialEdges
      ensures Supplies(w, requested, t, b, l, State(), ledger) && Ran(w, State(), t, i + 1, more)
    {
      ghost var b1 := State();
      if dep.None? {
        RanSkip(w, State(), t, i, found);
        more := found;
      } else {
        OrderDependency(t, i, found, dep.value);
        SuppliesTrans(w, requested, t, b, l, b1, ledger, State(), ledger);
        more := found + [dep.value];
      }
    }

    /** Visits the dependency at position `i`. */
    method VisitDependency(t: Target, depth: nat, i: nat) returns (r: Result<Option<ActionNode>>)
      requires Inv() && t in w.tasks && w.upstream.InScope(depth) && Expected(w, requested, Follow(), t)
      requires (depth == 0 ==> Primary(w, requested, t)) && (Lawful(w) ==> Above(w, ledger.open, t)) && i < |w.tasks[t].deps|
      modifies this
      ensures Lawful(w) ==> r.Success?
      ensures r.Success? ==> Supplies(w, requested, t, old(State()), old(ledger), State(), ledger)
      ensures var d := w.tasks[t].deps[i];
        r.Success? ==> if w.tasks[d.target].runs then r.value == Some(w.TaskNode(d.target, d.config)) && r.value.value in nodes
                       else r.value == None && d.target in passthrough
      decreases Missing(w, State()), Unmarked(w, State()), ignoredDependencies, ignoredDependents, 6
    {
      ghost var b := State();
      DependencyAllowed(w, requested, Follow(), t, depth, i);
      var d := w.tasks[t].deps[i];
      if Lawful(w) {
        AboveDependency(w, ledger.open, t, d.target);
      }
      r := InternalRunTask(Visit(d.target, d.config, depth + 1, true, true));
      if r.Success? {
        if Lawful(w) {
          BelowDependency(w, t, d.target, b, State());
        }
        if !w.upstream.Deep? {
          QuietChains(w, b, State(), t);
        }
      }
    }

    /** Serially, orders a dependency that was run with its whole subtree after the last one. */
    method OrderDependency(t: Target, i: nat, found: seq<ActionNode>, x: ActionNode)
      requires Inv() && t in w.tasks && i < |w.tasks[t].deps| && Ran(w, State(), t, i, found) && x in nodes
      requires HasTask(State(), t) && (Lawful(w) ==> Above(w, ledger.open, t))
      requires var d := w.tasks[t].deps[i]; w.tasks[d.target].runs && x == w.TaskNode(d.target, d.config)
      modifies this`edges, this`serialEdges
      ensures Supplies(w, requested, t, old(State()), ledger, State(), ledger) && Ran(w, State(), t, i + 1, found + [x])
      ensures w.tasks[t].parallel ==> State() == old(State())
    {
      if !w.tasks[t].parallel && |found| > 0 {
        NextNeeded(w, t, i, found, x);
        assert found[|found| - 1] in found;
        OrderAfter(t, |found|, x, found[|found| - 1]);
        RanMore(w, old(State()), State(), t, i, found, x);
      } else {
        SuppliesNothing(w, requested, t, State(), ledger);
        RanSnoc(w, State(), t, i, found, x);
      }
    }

    /** Orders the subtree of the dependency at position `k` of those that run after the one before it. */
    method OrderAfter(t: Target, k: nat, x: ActionNode, previous: ActionNode)
      requires Inv() && t in w.tasks && !w.tasks[t].parallel && Consecutive(w, t, k, previous, x)
      requires x in nodes && previous in nodes && (Lawful(w) ==> Above(w, ledger.open, t)) && HasTask(State(), t)
      modifies this`edges, this`serialEdges
      ensures Supplies(w, requested, t, old(State()), ledger, State(), ledger) && OrderedAfter(State().edges, x, previous)
      ensures Lawful(w) && w.upstream.Deep? ==> SubtreeOrdered(w, State().edges, x, previous)
    {
      ghost var b := State();
      NeededIsBelow(w, t, x);
      NeededIsBelow(w, t, previous);
      LinkSerialRequirements(x, previous);
      SerialSupplies(w, requested, b, State(), ledger, t, k, x, previous);
    }

    /** Follows the dependents of a new task in scope, or notes that they were ignored. */
    method FollowTask(v: Visit, ghost l: Ledger) returns (ok: bool)
      requires Inv() && Chosen(w, requested, Follow(), v) && (!v.via ==> l.Idle()) && w.TaskAffected(v.t, v.skip) && w.tasks[v.t].runs
      requires ledger.open == l.open + {w.TaskNode(v.t, v.config)} && ledger.pending == l.pending + {v.t} && Closable(w, State(), w.TaskNode(v.t, v.config))
      modifies this
      ensures Lawful(w) ==> ok
      ensures ok ==> Concludes(w, requested, v, l, old(State()), old(ledger), State(), ledger)
      decreases Missing(w, State()), Unmarked(w, State()), ignoredDependencies, ignoredDependents, 10
    {
      ghost var b, l0 := State(), ledger;
      if !v.via && w.downstream.InScope(v.depth) {
        ledger := l0.(open := l.open, down := l0.down + {v.t}, downOpen := l0.downOpen + {v.t}, pending := l.pending);
        ghost var l1 := ledger;
        FollowOpens(w, requested, b, l0, ledger, w.TaskNode(v.t, v.config));
        ok := ResumeDependents(v, l0.downOpen);
        if ok {
          FollowConcludes(w, requested, v, l, b, l0, l1, State(), ledger);
        }
      } else {
        ignoredDependents := ignoredDependents + {v.t};
        ledger := l0.(open := l.open, pending := l.pending);
        IgnoreConcludes(w, requested, v, b, State(), l0, ledger);
        ok := true;
      }
    }

    /** Runs the dependents in order. */
    method RunTaskDependents(t: Target, depth: nat) returns (ok: bool)
      requires Inv() && CanFollow(t, depth)
      modifies this
      ensures Lawful(w) ==> ok
      ensures ok ==> Steps(old(State()), old(ledger)) && DownDone(w, State(), ledger, t)
      ensures ok ==> Trails(w, t, old(State()), old(ledger), State(), ledger)
      decreases Missing(w, State()), Unmarked(w, State()), ignoredDependencies, ignoredDependents, 8
    {
      ghost var b, l := State(), ledger;
      var i := 0;
      ok := true;
      while ok && i < |w.dependents[t]|
        invariant i <= |w.dependents[t]| && (Lawful(w) ==> ok)
        invariant ok ==> Steps(b, l) && Trails(w, t, b, l, State(), ledger)
        invariant ok ==> Followed(w, State(), ledger, t, i) && CanFollow(t, depth)
      {
        ok := RunTaskDependent(t, depth, i, b, l);
        i := i + 1;
      }
    }

    /** Runs the dependent at position `i`. */
    method RunTaskDependent(t: Target, depth: nat, i: nat, ghost b: Build, ghost l: Ledger) returns (ok: bool)
      requires Steps(b, l) && Trails(w, t, b, l, State(), ledger)
      requires CanFollow(t, depth) && Followed(w, State(), ledger, t, i) && i < |w.dependents[t]|
      modifies this
      ensures Lawful(w) ==> ok
      ensures ok ==> Steps(b, l) && Trails(w, t, b, l, State(), ledger)
      ensures ok ==> Followed(w, State(), ledger, t, i + 1) && CanFollow(t, depth)
      decreases Missing(w, b), Unmarked(w, b), b.ignoredDependencies, b.ignoredDependents, 7
    {
      ghost var b1, l1 := State(), ledger;
      ok := VisitDependent(t, depth, i);
      if ok {
        FollowedMore(w, b1, l1, State(), ledger, t, i);
        DependentTrails(w, requested, t, w.dependents[t][i], b, l, b1, l1, State(), ledger);
      }
    }

    /** Visits the dependent at position `i`. */
    method VisitDependent(t: Target, depth: nat, i: nat) returns (ok: bool)
      requires Inv() && CanFollow(t, depth) && i < |w.dependents[t]|
      modifies this
      ensures Lawful(w) ==> ok
      ensures ok ==> Steps(old(State()), old(ledger)) && CanFollow(t, depth) && FollowedOne(w, State(), ledger, w.dependents[t][i])
      ensures ok ==> Passes(w, t, w.dependents[t][i], old(State()), old(ledger), State(), ledger)
      decreases Missing(w, State()), Unmarked(w, State()), ignoredDependencies, ignoredDependents, 6
    {
      ghost var down := ledger.down;
      DependentAllowed(w, requested, down, t, depth, i);
      var dep := InternalRunTask(Visit(w.dependents[t][i], 0, depth + 1, false, false));
      ok := dep.Success?;
      if ok {
        WantedMono(w, requested, From(w, down), Follow(), t);
      }
    }

    /** Runs the requested targets, from scratch. */
    method RunTasks(targets: seq<Target>) returns (ok: bool)
      requires State() == Nothing && ledger == Ledger({}, {}, {}, {}, {})
      requires (forall t | t in targets :: t in w.tasks) && requested == SetOf(targets)
      modifies this
      ensures CyclesExplained(w, targets, ok)
      ensures ok ==> WellFormed(w, State()) && LinksExplained(w, targets, State())
      ensures ok ==> TasksExplained(w, targets, State(), ledger.lost) && LossesExplained(w, targets, State(), ledger.lost)
    {
      AfterNothing(w, targets);
      for i := 0 to |targets|
        invariant After(w, targets, i, State(), ledger)
      {
        ok := RunTarget(targets, i);
        if !ok {
          CycleReported(w, targets);
          return;
        }
      }
      Delivered(w, targets, State(), ledger);
      ok := true;
    }

    /** Runs the target at position `i`. */
    method RunTarget(targets: seq<Target>, i: nat) returns (ok: bool)
      requires (forall t | t in targets :: t in w.tasks) && requested == SetOf(targets)
      requires i < |targets| && After(w, targets, i, State(), ledger)
      modifies this
      ensures ok ==> After(w, targets, i + 1, State(), ledger)
      ensures !ok && Lawful(w) ==> BlockedAtTurn(w, targets)
    {
      ghost var b, l := State(), ledger;
      AfterProgresses(w, targets, i, b, l);
      RequestAllowed(w, requested, Follow(), targets[i]);
      var r := InternalRunTask(Root(w, targets[i]));
      ok := r.Success?;
      if ok {
        AfterMore(w, targets, i, b, l, State(), ledger);
      } else if Lawful(w) {
        assert Blocked(w, b, Root(w, targets[i]));
      }
    }
  }
}
