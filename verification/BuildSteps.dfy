/**
 What each part of the builder's recursion may do, on values: the invariant that holds between any
 two steps, and how the parts of a visit add up.
 */
module BuildSteps {
  import opened Actions
  import opened Digraph
  import opened Requests
  import opened Workspaces
  import opened Builds
  import opened Wiring

  ghost function OutOf(x: ActionNode, ys: seq<ActionNode>): set<Edge> {
    set y | y in ys :: (x, y)
  }

  /** Edges out of `x` do not help anyone to reach `x`. */
  lemma OutEdgesKeepReach(edges: set<Edge>, x: ActionNode, ys: seq<ActionNode>, n: ActionNode)
    ensures Reaches(edges + OutOf(x, ys), n, x) <==> Reaches(edges, n, x)
  {
    if Reaches(edges, n, x) {
      ReachesMono(edges, edges + OutOf(x, ys), n, x);
    } else if Reaches(edges + OutOf(x, ys), n, x) {
      var members := iset z | Reaches(edges, n, z);
      forall u, v | (u, v) in edges + OutOf(x, ys) && u in members ensures v in members {
        ReachesSnoc(edges, n, u, v);
      }
      ReachesSelf(edges, n);
      ReachesStaysIn(edges + OutOf(x, ys), n, x, members);
    }
  }

  /** A node that nothing requires can be linked to anything else. */
  lemma FreshLinks(b: Build, x: ActionNode, required: seq<ActionNode>)
    requires NoIncoming(b, x) && x !in required
    ensures forall n | n in required :: !Reaches(b.edges, n, x)
  {
    forall n | n in required && Reaches(b.edges, n, x) ensures false {
      var y := ReachedHasIncoming(b.edges, n, x);
    }
  }

  /** Only nodes that are no tasks, and edges out of new nodes, were added. */
  ghost predicate Prepares(b: Build, b': Build) {
    && b' == b.(nodes := b'.nodes, edges := b'.edges) && b.nodes <= b'.nodes && b.edges <= b'.edges
    && (forall n | n in b'.nodes && n !in b.nodes :: !n.RunTask?)
    && (forall e | e in b'.edges && e !in b.edges :: !e.1.RunTask? && e.0 !in b.nodes)
  }

  predicate Syncs(w: Workspace, p: ProjectId, skip: bool) {
    p in w.syncProjects && (skip || w.affectedProjects.None? || p in w.affectedProjects.value)
  }

  /** What the sync of a project requires: the workspace sync and the projects it depends on. */
  ghost function SyncNeeds(w: Workspace, p: ProjectId, skip: bool, path: set<ProjectId>): set<ActionNode>
    requires p in w.projects
  {
    (if w.syncWorkspace then {SyncWorkspace} else {}) +
    (if w.syncProjectDependencies then SyncsFirst(w, p, skip, path) else {})
  }

  /** The projects that the sync of a project comes after, except those that are being synced. */
  ghost function SyncsFirst(w: Workspace, p: ProjectId, skip: bool, path: set<ProjectId>): set<ActionNode>
    requires p in w.projects
  {
    set q | q in w.projects[p] && q !in path && Syncs(w, q, skip) :: SyncProject(q)
  }

  ghost function OwnSetup(w: Workspace, t: Target, skip: bool): set<ActionNode>
    requires t in w.tasks
  {
    (if Syncs(w, w.tasks[t].project, skip) then {SyncProject(w.tasks[t].project)} else {}) +
    (set k | k in w.tasks[t].leaves :: InstallDependencies(k))
  }

  /** What a task requires besides other tasks: its project sync and installs, or else the workspace sync. */
  ghost function Setup(w: Workspace, t: Target, skip: bool): set<ActionNode>
    requires t in w.tasks
  {
    if OwnSetup(w, t, skip) == {} && w.syncWorkspace then {SyncWorkspace} else OwnSetup(w, t, skip)
  }

  /** What a project sync may point new edges at: the workspace sync, or projects that are not being synced. */
  ghost predicate Settled(n: ActionNode, cycle: set<ProjectId>) {
    n == SyncWorkspace || (n.SyncProject? && n.project !in cycle)
  }

  ghost predicate OnlySettled(b: Build, b': Build, cycle: set<ProjectId>) {
    forall e | e in b'.edges && e !in b.edges :: Settled(e.1, cycle)
  }

  lemma PreparesTrans(b: Build, b1: Build, b2: Build, cycle: set<ProjectId>)
    requires Prepares(b, b1) && Prepares(b1, b2) && OnlySettled(b, b1, cycle) && OnlySettled(b1, b2, cycle)
    ensures Prepares(b, b2) && OnlySettled(b, b2, cycle)
  {
  }

  lemma PreparesMore(b: Build, b1: Build, b2: Build)
    requires Prepares(b, b1) && Prepares(b1, b2)
    ensures Prepares(b, b2)
  {
  }

  lemma SettledTrans(b: Build, b1: Build, b2: Build, cycle: set<ProjectId>, path: set<ProjectId>)
    requires Prepares(b, b1) && b1.edges == b.edges && Prepares(b1, b2) && OnlySettled(b1, b2, path) && cycle <= path
    ensures Prepares(b, b2) && OnlySettled(b, b2, cycle)
  {
  }

  /** Nothing comes to require a project that is being synced. */
  lemma SettledMissesSelf(b: Build, b': Build, p: ProjectId, cycle: set<ProjectId>)
    requires SyncProject(p) !in b.nodes && (forall e | e in b.edges :: e.1 in b.nodes) && p in cycle && OnlySettled(b, b', cycle)
    ensures NoIncoming(b', SyncProject(p))
  {
  }

  /** What holds of the build and of the ledger between any two steps of the recursion. */
  ghost predicate Holds(w: Workspace, targets: set<Target>, b: Build, l: Ledger)
  {
    && WellFormed(w, b) && Tidy(w, b, l.open) && Balanced(w, b, l)
    && Accounted(w, targets, b, l) && Justified(w, targets, b, l) && Reasoned(w, b.nodes, b.serialEdges)
  }

  /** What a part of the recursion may do to the build and to the ledger. */
  ghost predicate StepsTo(w: Workspace, targets: set<Target>, b: Build, l: Ledger, b': Build, l': Ledger)
  {
    Holds(w, targets, b', l') && Grows(b, b') && Descends(w, b, b') && Advances(l, l')
  }

  lemma StepsTrans(w: Workspace, targets: set<Target>, b: Build, l: Ledger, b1: Build, l1: Ledger, b2: Build, l2: Ledger)
    requires StepsTo(w, targets, b, l, b1, l1) && StepsTo(w, targets, b1, l1, b2, l2)
    ensures StepsTo(w, targets, b, l, b2, l2)
  {
    GrowsTrans(b, b1, b2);
    DescendsTrans(w, b, b1, b2);
  }

  /** What running dependencies of `t` may do: the request is not passed on, and links lead below `t`. */
  ghost predicate Supplies(w: Workspace, targets: set<Target>, t: Target, b: Build, l: Ledger, b': Build, l': Ledger)
    requires t in w.tasks
  {
    && StepsTo(w, targets, b, l, b', l') && l'.down == l.down && Chains(w, b, b', t)
    && (Lawful(w) ==> OnlyBelow(w, t, b, b'))
  }

  lemma SuppliesTrans(w: Workspace, targets: set<Target>, t: Target, b: Build, l: Ledger, b1: Build, l1: Ledger, b2: Build, l2: Ledger)
    requires t in w.tasks && Supplies(w, targets, t, b, l, b1, l1) && Supplies(w, targets, t, b1, l1, b2, l2)
    ensures Supplies(w, targets, t, b, l, b2, l2)
  {
    StepsTrans(w, targets, b, l, b1, l1, b2, l2);
    ChainsTrans(w, b, b1, b2, t);
    if Lawful(w) {
      OnlyBelowTrans(w, t, b, b1, b2);
    }
  }

  lemma SuppliesNothing(w: Workspace, targets: set<Target>, t: Target, b: Build, l: Ledger)
    requires t in w.tasks && Holds(w, targets, b, l)
    ensures Supplies(w, targets, t, b, l, b, l)
  {
  }

  /** The request was passed on from `t`, to what follows it. */
  ghost predicate PassedFrom(w: Workspace, t: Target, l: Ledger, l': Ledger) {
    forall x | x in l'.down && x !in l.down :: Reaches(w.Following(), t, x)
  }

  /** Dependents are followed from the visited target at most, unless they are in scope at every depth. */
  ghost predicate Follows(w: Workspace, v: Visit, l: Ledger, l': Ledger) {
    && (!Down(w, v) || !w.TaskAffected(v.t, v.skip) ==> l'.down == l.down)
    && (!w.downstream.Deep? ==> l'.down <= l.down + {v.t}) && PassedFrom(w, v.t, l, l')
  }

  /** What a visit may do. */
  ghost predicate Visits(w: Workspace, targets: set<Target>, v: Visit, b: Build, l: Ledger, b': Build, l': Ledger)
    requires v.t in w.tasks
  {
    && StepsTo(w, targets, b, l, b', l') && Wires(w, b, b', v) && Follows(w, v, l, l')
    && (v.via && Lawful(w) ==> OnlyBelow(w, v.t, b, b'))
  }

  /** What a visit returns: the node of a task that is affected and runs, with what is in scope of it. */
  ghost predicate Found(w: Workspace, v: Visit, b: Build, l: Ledger, o: Option<ActionNode>)
    requires v.t in w.tasks
  {
    && (o.Some? <==> w.TaskAffected(v.t, v.skip) && w.tasks[v.t].runs)
    && (o.Some? ==> o.value == w.TaskNode(v.t, v.config) && o.value in b.nodes)
    && (o.Some? && Up(w, v) && (w.upstream.Deep? || v.config == 0) ==> o.value in l.open || Expanded(w, b, o.value))
    && (o.Some? && Down(w, v) ==> v.t in l.down)
    && (w.TaskAffected(v.t, v.skip) && !w.tasks[v.t].runs ==> v.t in b.passthrough)
  }

  /** The node of a new task is in place, and linked if its dependencies are in scope. */
  ghost predicate Establishes(w: Workspace, targets: set<Target>, v: Visit, b: Build, l: Ledger, b': Build, l': Ledger)
    requires v.t in w.tasks
  {
    var node := w.TaskNode(v.t, v.config);
    && Holds(w, targets, b', l') && Grows(b, b') && node in b'.nodes && Unmarked(w, b') <= Unmarked(w, b)
    && Advances(l, l') && l'.down == l.down && Closable(w, b', node)
    && (if Up(w, v) then Expanded(w, b', node) && Roots(w, b, b', node) else Quiet(b, b'))
    && (Lawful(w) ==> OnlyBelow(w, v.t, b, b'))
  }

  /** The dependents of a new task were followed or ignored, and it is no longer open. */
  ghost predicate Concludes(w: Workspace, targets: set<Target>, v: Visit, outer: Ledger, b: Build, l: Ledger, b': Build, l': Ledger)
    requires v.t in w.tasks
  {
    && Holds(w, targets, b', l') && Grows(b, b') && Missing(w, b') <= Missing(w, b) && Unmarked(w, b') <= Unmarked(w, b)
    && Advances(l.(open := outer.open, pending := outer.pending), l') && (Down(w, v) ==> v.t in l'.down)
    && Follows(w, v, l, l') && (w.upstream.Deep? || Quiet(b, b')) && (v.via ==> b'.edges == b.edges)
  }

  /** A new task: its node is established, and then its dependents are followed. */
  lemma InsertVisits(w: Workspace, targets: set<Target>, v: Visit, b: Build, l: Ledger, b1: Build, l1: Ledger, b2: Build, l2: Ledger)
    requires CanVisit(w, v) && w.TaskAffected(v.t, v.skip) && w.tasks[v.t].runs && w.TaskNode(v.t, v.config) !in b.nodes
    requires var l0 := l.(open := l.open + {w.TaskNode(v.t, v.config)}, pending := l.pending + {v.t});
      Establishes(w, targets, v, Consumed(w, b, v), l0, b1, l1) && Concludes(w, targets, v, l, b1, l1, b2, l2)
    ensures Visits(w, targets, v, b, l, b2, l2) && Found(w, v, b2, l2, Some(w.TaskNode(v.t, v.config)))
    ensures Up(w, v) && l.Idle() ==> LosesDependencies(w, v.t, l, l2)
  {
    var node := w.TaskNode(v.t, v.config);
    InsertDescends(w, b, b1, b2, v);
    GrowsTrans(b, b1, b2);
    if Up(w, v) {
      RootsQuiet(w, b, b1, b2, node);
      ExpandedMono(w, b1, b2, node);
      if l.Idle() {
        LosesMarked(w, targets, b1, l1, node);
      }
    }
  }

  lemma InsertDescends(w: Workspace, b: Build, b1: Build, b2: Build, v: Visit)
    requires CanVisit(w, v) && w.TaskNode(v.t, v.config) !in b.nodes && w.TaskNode(v.t, v.config) in b1.nodes
    requires Grows(Consumed(w, b, v), b1) && Grows(b1, b2)
    ensures Descends(w, b, b2)
  {
    assert w.TaskNode(v.t, v.config) in Missing(w, b) && w.TaskNode(v.t, v.config) !in Missing(w, b2);
  }

  /** The dependencies of an existing node were run if need be, and it is no longer open. */
  ghost predicate Catches(w: Workspace, targets: set<Target>, v: Visit, had: bool, open: set<ActionNode>, b: Build, l: Ledger, b': Build, l': Ledger)
    requires v.t in w.tasks
  {
    && Holds(w, targets, b', l') && Grows(b, b') && Descends(w, b, b')
    && Advances(l.(open := open), l') && l'.down == l.down
    && (had ==> Expanded(w, b', w.TaskNode(v.t, v.config)) && Roots(w, b, b', w.TaskNode(v.t, v.config)))
    && (!had ==> b' == b)
  }

  /** The dependents of a target were followed if need be, and it is no longer open. */
  ghost predicate Resumes(w: Workspace, targets: set<Target>, t: Target, had: bool, downOpen: set<Target>, b: Build, l: Ledger, b': Build, l': Ledger)
  {
    && Holds(w, targets, b', l') && Grows(b, b') && Descends(w, b, b')
    && Advances(l.(downOpen := downOpen), l') && Trails(w, t, b, l, b', l')
    && (!had ==> b' == b && l' == l)
  }

  /** An existing node is visited, and `up` and `down` say what was ignored when it was created. */
  ghost predicate Revisits(w: Workspace, targets: set<Target>, v: Visit, up: bool, down: bool, b: Build, l: Ledger) {
    && Chosen(w, targets, From(w, l.down), v) && (!v.via ==> l.Idle()) && w.TaskAffected(v.t, v.skip) && w.tasks[v.t].runs
    && w.TaskNode(v.t, v.config) in b.nodes && (w.upstream.Deep? ==> b.ignoredDependencies == {})
    && (up <==> Up(w, v) && v.t in b.ignoredDependencies) && (down <==> Down(w, v) && v.t in b.ignoredDependents)
    && (Down(w, v) ==> v.t in l.down || down)
  }

  /** An existing node: what was ignored when it was created is run now. */
  lemma CatchUpVisits(w: Workspace, targets: set<Target>, v: Visit, up: bool, down: bool, b: Build, l: Ledger, b1: Build, l1: Ledger, b2: Build, l2: Ledger)
    requires Revisits(w, targets, v, up, down, b, l)
    requires var l0 := Opened(l, w.TaskNode(v.t, v.config), v.t, up, down);
      Catches(w, targets, v, up, l.open, Consumed(w, b, v), l0, b1, l1) && Resumes(w, targets, v.t, down, l.downOpen, b1, l1, b2, l2)
    ensures Visits(w, targets, v, b, l, b2, l2) && Found(w, v, b2, l2, Some(w.TaskNode(v.t, v.config)))
  {
    CatchUpSteps(w, b, b1, b2, v);
    RootsQuiet(w, b, b1, b2, w.TaskNode(v.t, v.config));
    CatchUpFollows(w, v, down, l, l1, l2);
    CatchUpFound(w, targets, v, up, down, b, l, b1, l1, b2, l2);
  }

  lemma CatchUpSteps(w: Workspace, b: Build, b1: Build, b2: Build, v: Visit)
    requires Grows(Consumed(w, b, v), b1) && Grows(b1, b2) && Descends(w, Consumed(w, b, v), b1) && Descends(w, b1, b2)
    ensures Grows(b, b2) && Descends(w, b, b2)
  {
    GrowsTrans(b, b1, b2);
    DescendsTrans(w, b, Consumed(w, b, v), b1);
    DescendsTrans(w, b, b1, b2);
  }

  lemma CatchUpFound(w: Workspace, targets: set<Target>, v: Visit, up: bool, down: bool, b: Build, l: Ledger, b1: Build, l1: Ledger, b2: Build, l2: Ledger)
    requires Revisits(w, targets, v, up, down, b, l) && Tidy(w, b1, l1.open) && Grows(b, b1) && Grows(b1, b2)
    requires l1.open == l.open && l2.open == l.open && l.down + (if down then {v.t} else {}) <= l2.down
    requires if up then Expanded(w, b1, w.TaskNode(v.t, v.config)) else b1 == Consumed(w, b, v)
    ensures Found(w, v, b2, l2, Some(w.TaskNode(v.t, v.config)))
  {
    ExpandedStays(w, b1, b2, w.TaskNode(v.t, v.config));
  }

  lemma CatchUpFollows(w: Workspace, v: Visit, down: bool, l: Ledger, l1: Ledger, l2: Ledger)
    requires l1.down == (if down then l.down + {v.t} else l.down) && (down ==> Down(w, v) && w.TaskAffected(v.t, v.skip))
    requires PassedFrom(w, v.t, l1, l2) && ((w.downstream.Deep? && down) || l2.down == l1.down)
    ensures Follows(w, v, l, l2)
  {
    ReachesSelf(w.Following(), v.t);
  }

  /** Running dependents neither links tasks nor follows further dependents, unless `Deep` scope asks for it. */
  ghost predicate Trails(w: Workspace, t: Target, b: Build, l: Ledger, b': Build, l': Ledger) {
    (w.upstream.Deep? || Quiet(b, b')) && (w.downstream.Deep? || l'.down == l.down) && PassedFrom(w, t, l, l')
  }

  /** What a dependent of `t` passed on came from `t`. */
  lemma PassedFromDependent(w: Workspace, t: Target, d: Target, l: Ledger, l1: Ledger, l2: Ledger)
    requires PassedFrom(w, t, l, l1) && PassedFrom(w, d, l1, l2) && ((t, d) in w.Following() || l2.down == l1.down)
    ensures PassedFrom(w, t, l, l2)
  {
    forall x | x in l2.down && x !in l.down ensures Reaches(w.Following(), t, x) {
      if x !in l1.down {
        ReachesCons(w.Following(), t, d, x);
      }
    }
  }

  /** Filtered tasks that are met as dependencies were followed before, or are lost. */
  ghost predicate LosesDependencies(w: Workspace, t: Target, l: Ledger, l': Ledger) {
    forall x: Target | Filtered(w, x) && MetBelow(w, t, x) :: x in l.down || x in l'.lost
  }

  /** The state after the ignored marks of a visited task were taken. */
  ghost function Consumed(w: Workspace, b: Build, v: Visit): Build {
    b.(ignoredDependencies := if Up(w, v) then b.ignoredDependencies - {v.t} else b.ignoredDependencies,
       ignoredDependents := if Down(w, v) then b.ignoredDependents - {v.t} else b.ignoredDependents)
  }

  ghost function Opened(l: Ledger, node: ActionNode, t: Target, up: bool, down: bool): Ledger {
    l.(open := if up then l.open + {node} else l.open,
       down := if down then l.down + {t} else l.down, downOpen := if down then l.downOpen + {t} else l.downOpen)
  }

  /** The ledger stays balanced while no new task appears and no mark is lost. */
  lemma BalancedKept(w: Workspace, b: Build, b': Build, l: Ledger, l': Ledger)
    requires Balanced(w, b, l) && b.nodes <= b'.nodes && b.passthrough <= b'.passthrough
    requires l.down <= l'.down && l.downOpen <= l'.downOpen
    requires forall n | n in b'.nodes && n !in b.nodes && n.RunTask? :: n.target in l'.pending
    requires forall t | t in l.pending && t !in l'.pending :: t in l'.down || t in b'.ignoredDependents
    requires forall t | t in b.ignoredDependents && t !in b'.ignoredDependents :: t in l'.down
    requires l'.down - l.down <= l'.downOpen
    ensures Balanced(w, b', l')
  {
  }

  lemma CloseDown(w: Workspace, b: Build, l: Ledger, t: Target, downOpen: set<Target>)
    requires Balanced(w, b, l) && l.downOpen <= downOpen + {t} && (t in l.downOpen && t !in downOpen ==> DownDone(w, b, l, t))
    ensures Balanced(w, b, l.(downOpen := downOpen))
  {
  }

  /** Links, and nodes that are no tasks, leave the ledger as it is. */
  lemma HoldsKept(w: Workspace, targets: set<Target>, b: Build, b': Build, l: Ledger)
    requires Holds(w, targets, b, l) && WellFormed(w, b') && Tidy(w, b', l.open)
    requires b.nodes <= b'.nodes && forall n | n in b'.nodes && n !in b.nodes :: !n.RunTask?
    requires b'.passthrough == b.passthrough && b.ignoredDependents <= b'.ignoredDependents
    requires Reasoned(w, b'.nodes, b'.serialEdges)
    ensures Holds(w, targets, b', l)
  {
    BalancedKept(w, b, b', l, l);
    JustifiedMono(w, targets, b, b', l, l);
  }

  /** A task that runs is never lost, so its dependents may be followed. */
  lemma AccountedDown(w: Workspace, targets: set<Target>, b: Build, l: Ledger, t: Target, l': Ledger)
    requires WellFormed(w, b) && Accounted(w, targets, b, l) && t in w.tasks && w.tasks[t].runs
    requires l'.lost == l.lost && l.down <= l'.down <= l.down + {t}
    ensures Accounted(w, targets, b, l')
  {
  }

  /** Edges out of a task to what it needs, or to nodes that are no tasks, keep the shape of the graph. */
  lemma LinkKeepsShape(w: Workspace, b: Build, b': Build, x: ActionNode, all: seq<ActionNode>)
    requires WellFormed(w, b) && b' == b.(edges := b.edges + OutOf(x, all)) && Acyclic(b'.edges)
    requires x in b.nodes && Placed(b, all) && forall n | n in all && n.RunTask? :: x.RunTask? && n in Needed(w, x.target)
    ensures WellFormed(w, b') && Grows(b, b') && Descends(w, b, b')
  {
  }

  /** Links of a task whose dependencies were run. */
  lemma LinkSteps(w: Workspace, targets: set<Target>, b: Build, b': Build, l: Ledger, node: ActionNode, required: seq<ActionNode>, deps: seq<ActionNode>)
    requires Holds(w, targets, b, l) && w.IsTaskNode(node) && node in b.nodes
    requires Ran(w, b, node.target, |w.tasks[node.target].deps|, deps) && Placed(b, required) && forall n | n in required :: !n.RunTask?
    requires b' == b.(edges := b.edges + OutOf(node, required + deps)) && Acyclic(b'.edges)
    ensures StepsTo(w, targets, b, l, b', l) && Expanded(w, b', node) && OnlyBelow(w, node.target, b, b')
    ensures Lawful(w) && w.upstream.Deep? ==> SerialDone(w, b', node)
  {
    RanAll(w, b, node, deps);
    LowerNeeded(w, node.target, deps);
    LinkHolds(w, targets, b, b', l, node, required + deps);
    RanMono(w, b, b', node.target, |w.tasks[node.target].deps|, deps);
    RanAll(w, b', node, deps);
  }

  lemma LinkHolds(w: Workspace, targets: set<Target>, b: Build, b': Build, l: Ledger, x: ActionNode, all: seq<ActionNode>)
    requires Holds(w, targets, b, l) && b' == b.(edges := b.edges + OutOf(x, all)) && Acyclic(b'.edges)
    requires x in b.nodes && Placed(b, all) && forall n | n in all && n.RunTask? :: x.RunTask? && n in Needed(w, x.target)
    ensures StepsTo(w, targets, b, l, b', l)
  {
    LinkKeepsShape(w, b, b', x, all);
    TidyLink(w, b, b', l.open);
    HoldsKept(w, targets, b, b', l);
  }

  lemma SerialBelow(w: Workspace, t: Target, b: Build, b': Build, x: ActionNode, previous: ActionNode)
    requires SeriallyLinked(b, b', x, previous) && previous.RunTask? && StrictlyReaches(w.Upward(), t, previous.target)
    ensures OnlyBelow(w, t, b, b') && b'.serialEdges * b.edges <= b.serialEdges
  {
  }

  /** Serial links have the task whose dependencies they order as their reason. */
  lemma SerialReasons(w: Workspace, b: Build, b': Build, t: Target, k: nat, x: ActionNode, previous: ActionNode)
    requires WellFormed(w, b) && Reasoned(w, b.nodes, b.serialEdges) && t in w.tasks && !w.tasks[t].parallel && HasTask(b, t)
    requires Consecutive(w, t, k, previous, x) && SeriallyLinked(b, b', x, previous)
    ensures Reasoned(w, b'.nodes, b'.serialEdges)
  {
    var n :| n in b.nodes && n.RunTask? && n.target == t;
    forall e | e in b'.serialEdges ensures exists n, k :: Reason(w, b'.nodes, e, n, k) {
      if e !in b.serialEdges {
        WalkIsNeeds(w, b, x, e.0);
        assert Reason(w, b'.nodes, e, n, k);
      }
    }
  }

  /** Serial links to the last of the dependencies. */
  lemma SerialSupplies(w: Workspace, targets: set<Target>, b: Build, b': Build, l: Ledger, t: Target, k: nat, x: ActionNode, previous: ActionNode)
    requires Holds(w, targets, b, l) && t in w.tasks && !w.tasks[t].parallel && HasTask(b, t)
    requires Consecutive(w, t, k, previous, x) && x in b.nodes
    requires SeriallyLinked(b, b', x, previous) && WellFormed(w, b') && (Lawful(w) ==> Above(w, l.open, t))
    ensures Supplies(w, targets, t, b, l, b', l) && OrderedAfter(b'.edges, x, previous)
    ensures Lawful(w) && w.upstream.Deep? ==> SubtreeOrdered(w, b'.edges, x, previous)
  {
    SerialHolds(w, targets, b, b', l, t, k, x, previous);
    SerialGrows(w, b, b', t, k, x, previous);
  }

  lemma SerialGrows(w: Workspace, b: Build, b': Build, t: Target, k: nat, x: ActionNode, previous: ActionNode)
    requires b.serialEdges <= b.edges && t in w.tasks && !w.tasks[t].parallel
    requires Consecutive(w, t, k, previous, x) && SeriallyLinked(b, b', x, previous)
    ensures Grows(b, b') && Descends(w, b, b') && Chains(w, b, b', t) && OnlyBelow(w, t, b, b')
  {
    LowerNeeded(w, t, Needed(w, t));
    assert previous in Needed(w, t);
    SerialBelow(w, t, b, b', x, previous);
    SerialChains(w, b, b', t, k);
  }

  lemma SerialHolds(w: Workspace, targets: set<Target>, b: Build, b': Build, l: Ledger, t: Target, k: nat, x: ActionNode, previous: ActionNode)
    requires Holds(w, targets, b, l) && t in w.tasks && !w.tasks[t].parallel && HasTask(b, t)
    requires Consecutive(w, t, k, previous, x) && x in b.nodes
    requires SeriallyLinked(b, b', x, previous) && WellFormed(w, b') && (Lawful(w) ==> Above(w, l.open, t))
    ensures Holds(w, targets, b', l) && OrderedAfter(b'.edges, x, previous)
    ensures Lawful(w) && w.upstream.Deep? ==> SubtreeOrdered(w, b'.edges, x, previous)
  {
    assert previous in Needed(w, t) && x in Needed(w, t);
    SerialTidies(w, b, b', l.open, t, x, previous);
    SerialReasons(w, b, b', t, k, x, previous);
    HoldsKept(w, targets, b, b', l);
  }

  lemma SerialTidies(w: Workspace, b: Build, b': Build, open: set<ActionNode>, t: Target, x: ActionNode, previous: ActionNode)
    requires WellFormed(w, b) && Tidy(w, b, open) && WellFormed(w, b') && x in b.nodes && SeriallyLinked(b, b', x, previous)
    requires x in Needed(w, t) && previous in Needed(w, t) && (Lawful(w) ==> Above(w, open, t))
    ensures Tidy(w, b', open) && OrderedAfter(b'.edges, x, previous)
    ensures Lawful(w) && w.upstream.Deep? ==> SubtreeOrdered(w, b'.edges, x, previous)
  {
    NeededIsBelow(w, t, x);
    NeededIsBelow(w, t, previous);
    if Lawful(w) {
      AboveDependency(w, open, t, x.target);
    }
    TidySerial(w, b, b', open, x, previous);
    ReachesSelf(WalkEdges(b), x);
    SerialOrder(b, b', x, previous, x);
  }

  lemma OpenAbove(w: Workspace, open: set<ActionNode>, node: ActionNode)
    requires node.RunTask? && StrictlyAbove(w, open, node.target)
    ensures Above(w, open + {node}, node.target)
  {
    ReachesSelf(w.Upward(), node.target);
    forall n | n in open ensures Reaches(w.Upward(), n.target, node.target) {
      var c :| (n.target, c) in w.Upward() && Reaches(w.Upward(), c, node.target);
      ReachesCons(w.Upward(), n.target, c, node.target);
    }
  }

  /** What is needed lies below. */
  lemma LowerNeeded(w: Workspace, t: Target, found: seq<ActionNode>)
    requires t in w.tasks && forall x | x in found :: x in Needed(w, t)
    ensures Lower(w, t, found) && forall x | x in found :: x.RunTask?
  {
    forall x | x in found ensures x.RunTask? && StrictlyReaches(w.Upward(), t, x.target) {
      NeededIsBelow(w, t, x);
      ReachesSelf(w.Upward(), x.target);
    }
  }

  /** The node of a new task may take the ignored marks of its target. */
  lemma InsertOpens(w: Workspace, targets: set<Target>, b: Build, l: Ledger, v: Visit)
    requires Holds(w, targets, b, l) && CanVisit(w, v) && (v.depth == 0 ==> !v.via)
    requires w.TaskNode(v.t, v.config) !in b.nodes
    ensures var l' := l.(open := l.open + {w.TaskNode(v.t, v.config)}, pending := l.pending + {v.t});
      Holds(w, targets, Consumed(w, b, v), l') && (StrictlyAbove(w, l.open, v.t) ==> Above(w, l'.open, v.t))
  {
    var node, b' := w.TaskNode(v.t, v.config), Consumed(w, b, v);
    if StrictlyAbove(w, l.open, v.t) {
      OpenAbove(w, l.open, node);
    }
    var l' := l.(open := l.open + {node}, pending := l.pending + {v.t});
    TidyOpen(w, b, b', l.open, node);
    forall n | n in b'.nodes && n.RunTask? ensures Remembered(b', l', n) {
      assert Remembered(b, l, n);
    }
    Rebalance(w, b, b', l, l');
    JustifiedMono(w, targets, b, b', l, l');
  }

  /** The dependents of an existing node were followed, or ignored. */
  lemma RevisitIsRemembered(w: Workspace, targets: set<Target>, b: Build, l: Ledger, v: Visit)
    requires Balanced(w, b, l) && Chosen(w, targets, From(w, l.down), v) && (!v.via ==> l.Idle()) && w.TaskNode(v.t, v.config) in b.nodes
    ensures Down(w, v) ==> v.t in l.down || v.t in b.ignoredDependents
  {
    assert Remembered(b, l, w.TaskNode(v.t, v.config));
  }

  /** An existing node takes the ignored marks of its target by catching up. */
  lemma CatchUpOpens(w: Workspace, targets: set<Target>, b: Build, l: Ledger, v: Visit, up: bool, down: bool)
    requires Holds(w, targets, b, l) && Revisits(w, targets, v, up, down, b, l)
    ensures Holds(w, targets, Consumed(w, b, v), Opened(l, w.TaskNode(v.t, v.config), v.t, up, down))
  {
    var node, b' := w.TaskNode(v.t, v.config), Consumed(w, b, v);
    var l' := Opened(l, node, v.t, up, down);
    if up {
      TidyOpen(w, b, b', l.open, node);
    } else {
      assert b'.ignoredDependencies == b.ignoredDependencies;
      TidyLink(w, b.(ignoredDependents := b'.ignoredDependents), b', l.open);
    }
    assert Balanced(w, b', l') by {
      BalancedKept(w, b, b', l, l');
    }
    AccountedDown(w, targets, b, l, v.t, l');
    JustifiedMono(w, targets, b, b', l, l');
  }

  lemma OpenedStays(w: Workspace, targets: set<Target>, l: Ledger, v: Visit, up: bool, down: bool)
    requires Chosen(w, targets, From(w, l.down), v)
    ensures var l' := Opened(l, w.TaskNode(v.t, v.config), v.t, up, down);
      Chosen(w, targets, From(w, l'.down), v) && (up && StrictlyAbove(w, l.open, v.t) ==> Above(w, l'.open, v.t))
  {
    var l' := Opened(l, w.TaskNode(v.t, v.config), v.t, up, down);
    ChosenMono(w, targets, From(w, l.down), From(w, l'.down), v);
    if StrictlyAbove(w, l.open, v.t) {
      OpenAbove(w, l.open, w.TaskNode(v.t, v.config));
    }
  }

  /** What is known once a visit of an existing node has taken its marks. */
  ghost predicate Reopens(w: Workspace, targets: set<Target>, v: Visit, up: bool, down: bool, b: Build, l: Ledger) {
    && Revisits(w, targets, v, up, down, b, l)
    && var l' := Opened(l, w.TaskNode(v.t, v.config), v.t, up, down);
       && Holds(w, targets, Consumed(w, b, v), l') && Chosen(w, targets, From(w, l'.down), v)
       && (up && Lawful(w) ==> Above(w, l'.open, v.t))
  }

  /** A visit of an existing node begins by taking its marks. */
  lemma RevisitOpens(w: Workspace, targets: set<Target>, b: Build, l: Ledger, v: Visit, up: bool, down: bool)
    requires Holds(w, targets, b, l) && Chosen(w, targets, From(w, l.down), v) && (!v.via ==> l.Idle())
    requires w.TaskAffected(v.t, v.skip) && w.tasks[v.t].runs && w.TaskNode(v.t, v.config) in b.nodes
    requires (up <==> Up(w, v) && v.t in b.ignoredDependencies) && (down <==> Down(w, v) && v.t in b.ignoredDependents)
    requires Lawful(w) ==> StrictlyAbove(w, l.open, v.t)
    ensures Reopens(w, targets, v, up, down, b, l)
  {
    RevisitIsRemembered(w, targets, b, l, v);
    CatchUpOpens(w, targets, b, l, v, up, down);
    OpenedStays(w, targets, l, v, up, down);
  }

  /** The node of an existing task whose dependencies were run is no longer open. */
  lemma CatchesUp(w: Workspace, targets: set<Target>, v: Visit, open: set<ActionNode>, b: Build, l: Ledger, b': Build, l': Ledger)
    requires v.t in w.tasks && StepsTo(w, targets, b, l, b', l') && l'.down == l.down && l.open == open + {w.TaskNode(v.t, v.config)}
    requires !w.upstream.Deep? && Expanded(w, b', w.TaskNode(v.t, v.config)) && Roots(w, b, b', w.TaskNode(v.t, v.config))
    ensures Catches(w, targets, v, true, open, b, l, b', l'.(open := open))
  {
    TidyClose(w, b', open, w.TaskNode(v.t, v.config));
    BalancedKept(w, b', b', l', l'.(open := open));
  }

  /** What running the dependent `d` of `t` passes on, and links. */
  ghost predicate Passes(w: Workspace, t: Target, d: Target, b: Build, l: Ledger, b': Build, l': Ledger) {
    && PassedFrom(w, d, l, l') && ((t, d) in w.Following() || l'.down == l.down)
    && (w.upstream.Deep? || Quiet(b, b')) && (w.downstream.Deep? || l'.down == l.down)
  }

  /** One more dependent of `t` was run. */
  lemma DependentTrails(w: Workspace, targets: set<Target>, t: Target, d: Target, b: Build, l: Ledger, b1: Build, l1: Ledger, b2: Build, l2: Ledger)
    requires StepsTo(w, targets, b, l, b1, l1) && Trails(w, t, b, l, b1, l1)
    requires StepsTo(w, targets, b1, l1, b2, l2) && Passes(w, t, d, b1, l1, b2, l2)
    ensures StepsTo(w, targets, b, l, b2, l2) && Trails(w, t, b, l, b2, l2)
  {
    PassedFromDependent(w, t, d, l, l1, l2);
    StepsTrans(w, targets, b, l, b1, l1, b2, l2);
  }

  /** The dependents of a task that runs may be followed once its node is closed. */
  lemma FollowOpens(w: Workspace, targets: set<Target>, b: Build, l: Ledger, l': Ledger, node: ActionNode)
    requires Holds(w, targets, b, l) && w.IsTaskNode(node) && w.tasks[node.target].runs && Closable(w, b, node)
    requires var t := node.target;
      && l' == l.(open := l'.open, down := l.down + {t}, downOpen := l.downOpen + {t}, pending := l'.pending)
      && l.open == l'.open + {node} && l'.pending <= l.pending <= l'.pending + {t} && Wanted(w, targets, From(w, l.down), t)
    ensures Holds(w, targets, b, l') && Wanted(w, targets, From(w, l'.down), node.target)
  {
    var t := node.target;
    TidyClose(w, b, l'.open, node);
    BalancedKept(w, b, b, l, l');
    AccountedDown(w, targets, b, l, t, l');
    JustifiedMono(w, targets, b, b, l, l');
    WantedMono(w, targets, From(w, l.down), From(w, l'.down), t);
  }

  /** Dependents that are in scope were followed. */
  lemma FollowConcludes(w: Workspace, targets: set<Target>, v: Visit, outer: Ledger, b: Build, l: Ledger, l1: Ledger, b2: Build, l2: Ledger)
    requires v.t in w.tasks && Down(w, v) && w.TaskAffected(v.t, v.skip)
    requires l1 == l.(open := outer.open, down := l.down + {v.t}, downOpen := l.downOpen + {v.t}, pending := outer.pending)
    requires Resumes(w, targets, v.t, true, l.downOpen, b, l1, b2, l2)
    ensures Concludes(w, targets, v, outer, b, l, b2, l2)
  {
    ReachesSelf(w.Following(), v.t);
  }

  /** Dependents that are out of scope are noted as ignored. */
  lemma IgnoreConcludes(w: Workspace, targets: set<Target>, v: Visit, b: Build, b': Build, l: Ledger, l': Ledger)
    requires v.t in w.tasks && Holds(w, targets, b, l) && Closable(w, b, w.TaskNode(v.t, v.config)) && !Down(w, v)
    requires b' == b.(ignoredDependents := b.ignoredDependents + {v.t}) && l' == l.(open := l'.open, pending := l'.pending)
    requires l.open == l'.open + {w.TaskNode(v.t, v.config)} && l'.pending <= l.pending <= l'.pending + {v.t}
    ensures Concludes(w, targets, v, l', b, l, b', l')
  {
    TidyClose(w, b, l'.open, w.TaskNode(v.t, v.config));
    BalancedKept(w, b, b', l, l');
    JustifiedMono(w, targets, b, b', l, l');
  }

  /** A task that is filtered out is marked, and its dependents are followed or it is lost. */
  ghost function Bypassed(w: Workspace, l: Ledger, v: Visit): Ledger {
    if Down(w, v) then l.(down := l.down + {v.t}, downOpen := l.downOpen + {v.t}) else l.(lost := l.lost + {v.t})
  }

  /** What visiting a task that is filtered out may do, the first time. */
  ghost predicate Bypasses(w: Workspace, targets: set<Target>, v: Visit, b: Build, l: Ledger, b': Build, l': Ledger)
  {
    && StepsTo(w, targets, b, l, b', l') && v.t in b'.passthrough && (w.upstream.Deep? || Quiet(b, b'))
    && (v.via ==> b'.edges == b.edges) && Follows(w, v, l, l') && (v.t in l'.down <==> Down(w, v))
  }

  lemma BypassHolds(w: Workspace, targets: set<Target>, b: Build, b': Build, l: Ledger, v: Visit)
    requires Holds(w, targets, b, l) && Chosen(w, targets, From(w, l.down), v)
    requires Filtered(w, v.t) && v.t !in b.passthrough && v.t !in l.down && b' == b.(passthrough := b.passthrough + {v.t})
    ensures Holds(w, targets, b', Bypassed(w, l, v))
  {
    var l' := Bypassed(w, l, v);
    TidyLink(w, b, b', l.open);
    BalancedKept(w, b, b', l, l');
    JustifiedMono(w, targets, b, b', l, l');
    BypassAccounted(w, targets, b, b', l, v);
  }

  lemma BypassAccounted(w: Workspace, targets: set<Target>, b: Build, b': Build, l: Ledger, v: Visit)
    requires Accounted(w, targets, b, l) && Chosen(w, targets, From(w, l.down), v)
    requires Filtered(w, v.t) && v.t !in b.passthrough && v.t !in l.down && b' == b.(passthrough := b.passthrough + {v.t})
    ensures Accounted(w, targets, b', Bypassed(w, l, v))
  {
    if !Down(w, v) {
      ChosenIsLosable(w, targets, l.down, v);
    }
  }

  lemma BypassMarks(w: Workspace, b: Build, b': Build, t: Target)
    requires Filtered(w, t) && t !in b.passthrough && b' == b.(passthrough := b.passthrough + {t})
    ensures Grows(b, b') && Descends(w, b, b') && Quiet(b, b') && t in Unmarked(w, b) && t !in Unmarked(w, b')
  {
  }

  /** A filtered task whose dependents are out of scope is lost. */
  lemma BypassLoses(w: Workspace, targets: set<Target>, b: Build, b': Build, l: Ledger, v: Visit)
    requires !Down(w, v) && Filtered(w, v.t) && v.t !in b.passthrough && v.t !in l.down && b' == b.(passthrough := b.passthrough + {v.t})
    requires Holds(w, targets, b', Bypassed(w, l, v))
    ensures Bypasses(w, targets, v, b, l, b', Bypassed(w, l, v))
  {
    BypassMarks(w, b, b', v.t);
  }

  lemma BypassSteps(w: Workspace, targets: set<Target>, b: Build, l: Ledger, v: Visit, b1: Build, l1: Ledger, b2: Build, l2: Ledger)
    requires Down(w, v) && w.TaskAffected(v.t, v.skip) && b1 == b.(passthrough := b.passthrough + {v.t}) && l1 == Bypassed(w, l, v)
    requires Filtered(w, v.t) && v.t !in b.passthrough && Resumes(w, targets, v.t, true, l.downOpen, b1, l1, b2, l2)
    ensures Bypasses(w, targets, v, b, l, b2, l2)
  {
    BypassMarks(w, b, b1, v.t);
    ReachesSelf(w.Following(), v.t);
    GrowsTrans(b, b1, b2);
    DescendsTrans(w, b, b1, b2);
  }

  /** A new task is expected, and its dependents are yet to be considered. */
  lemma PlaceHolds(w: Workspace, targets: set<Target>, b: Build, b': Build, l: Ledger, v: Visit)
    requires Holds(w, targets, b, l) && Chosen(w, targets, From(w, l.down), v) && w.tasks[v.t].runs
    requires w.TaskNode(v.t, v.config) !in b.nodes && w.TaskNode(v.t, v.config) in l.open && v.t in l.pending
    requires b' == b.(nodes := b.nodes + {w.TaskNode(v.t, v.config)}, ignoredDependencies := b'.ignoredDependencies)
    requires b'.ignoredDependencies == b.ignoredDependencies
          || (!Up(w, v) && b'.ignoredDependencies == b.ignoredDependencies + {v.t})
    ensures Holds(w, targets, b', l)
  {
    PlaceShape(w, b, b', l, v);
    BalancedKept(w, b, b', l, l);
    ReasonedMono(w, b.nodes, b'.nodes, b.serialEdges);
  }

  lemma PlaceShape(w: Workspace, b: Build, b': Build, l: Ledger, v: Visit)
    requires WellFormed(w, b) && Tidy(w, b, l.open) && CanVisit(w, v) && w.tasks[v.t].runs
    requires w.TaskNode(v.t, v.config) !in b.nodes && w.TaskNode(v.t, v.config) in l.open
    requires b' == b.(nodes := b.nodes + {w.TaskNode(v.t, v.config)}, ignoredDependencies := b'.ignoredDependencies)
    requires b'.ignoredDependencies == b.ignoredDependencies
          || (!Up(w, v) && b'.ignoredDependencies == b.ignoredDependencies + {v.t})
    ensures WellFormed(w, b') && Tidy(w, b', l.open)
  {
    assert l.open + {w.TaskNode(v.t, v.config)} == l.open;
    TidyOpen(w, b, b', l.open, w.TaskNode(v.t, v.config));
  }

  /** Filtered dependencies of an expanded node are followed or lost. */
  lemma MarkedIsAccounted(w: Workspace, targets: set<Target>, b: Build, l: Ledger, n: ActionNode, x: Target)
    requires Expanded(w, b, n) && Accounted(w, targets, b, l) && Filtered(w, x) && (n.target, x) in w.Upward()
    ensures x in l.down || x in l.lost
  {
    var d :| d in w.tasks[n.target].deps && d.target == x;
    var i :| 0 <= i < |w.tasks[n.target].deps| && w.tasks[n.target].deps[i] == d;
  }

  /** When the dependencies of a node were run and nothing else is open, all below it were. */
  lemma BelowIsExpanded(w: Workspace, b: Build, node: ActionNode, a: Target)
    requires WellFormed(w, b) && node in b.nodes && node.RunTask? && Reaches(w.Running(), node.target, a)
    requires forall n | n in b.nodes && n.RunTask? :: Expanded(w, b, n)
    ensures HasTask(b, a)
  {
    forall u, v | (u, v) in w.Running() && HasTask(b, u) ensures HasTask(b, v) {
      var n :| n in b.nodes && n.RunTask? && n.target == u;
      LinkedInPlace(w, b, n, v);
    }
    assert HasTask(b, node.target);
    ReachesStaysIn(w.Running(), node.target, a, iset y | HasTask(b, y));
  }

  lemma LosesMarked(w: Workspace, targets: set<Target>, b: Build, l: Ledger, node: ActionNode)
    requires Holds(w, targets, b, l) && l.open == {node} && node in b.nodes && Expanded(w, b, node)
    ensures LosesDependencies(w, node.target, l, l)
  {
    forall x: Target | Filtered(w, x) && MetBelow(w, node.target, x) ensures x in l.down || x in l.lost {
      if w.upstream.Direct? {
        MarkedIsAccounted(w, targets, b, l, node, x);
      } else {
        var a: Target :| Reaches(w.Running(), node.target, a) && (a, x) in w.Upward();
        assert forall n | n in b.nodes && n.RunTask? :: n in l.open || Expanded(w, b, n);
        BelowIsExpanded(w, b, node, a);
        var n :| n in b.nodes && n.RunTask? && n.target == a;
        MarkedIsAccounted(w, targets, b, l, n, x);
      }
    }
  }

  lemma SerialKeepsShape(w: Workspace, b: Build, b': Build, x: ActionNode, previous: ActionNode, from: set<ActionNode>)
    requires WellFormed(w, b) && x in b.nodes && previous in b.nodes && x.RunTask? && previous.RunTask?
    requires b' == b.(edges := b.edges + Into(from, previous), serialEdges := b.serialEdges + Into(from, previous))
    requires forall y :: y in from <==> InSubtree(b, x, y) && (y, previous) !in b.edges && !Reaches(b.edges, previous, y)
    ensures SeriallyLinked(b, b', x, previous) && WellFormed(w, b')
  {
    EdgesIntoKeepAcyclic(b.edges, from, previous);
    forall y | y in from ensures y in b.nodes && y.RunTask? {
      SubtreeInNodes(b, x, y);
    }
  }

  lemma SubtreeInNodes(b: Build, x: ActionNode, y: ActionNode)
    requires InSubtree(b, x, y) && x in b.nodes && x.RunTask? && forall e | e in b.edges :: e.0 in b.nodes && e.1 in b.nodes
    ensures y in b.nodes && y.RunTask?
  {
    if x != y {
      var z := ReachedHasIncoming(WalkEdges(b), x, y);
      assert (z, y) in b.edges;
    }
  }

  lemma ExpandedStays(w: Workspace, b: Build, b': Build, node: ActionNode)
    requires Grows(b, b')
    ensures Expanded(w, b, node) ==> Expanded(w, b', node)
  {
    if Expanded(w, b, node) {
      ExpandedMono(w, b, b', node);
    }
  }

  /** A task without dependencies has nothing to link. */
  lemma NoDependencies(w: Workspace, b: Build, node: ActionNode)
    requires w.IsTaskNode(node)
    ensures w.tasks[node.target].deps == [] ==> Expanded(w, b, node) && SerialDone(w, b, node)
  {
  }

  /** The links of a task close no cycle exactly when it is not reached. */
  lemma LinkableIfNotReached(w: Workspace, b: Build, node: ActionNode, required: seq<ActionNode>)
    requires WellFormed(w, b) && w.IsTaskNode(node) && forall n | n in required :: !n.RunTask?
    ensures !Reached(w, b.edges, node) <==>
      forall n | n in required + Needed(w, node.target) :: (node, n) in b.edges || !Reaches(b.edges, n, node)
  {
    assert !StrictlyReaches(b.edges, node, node);
    forall n | n in required ensures !Reaches(b.edges, n, node) {
      if Reaches(b.edges, n, node) {
        OtherReachesNoTask(w, b, n, node);
      }
    }
    forall n | n in Needed(w, node.target) ensures n in required + Needed(w, node.target) {
    }
  }

  /** `x` comes right after `previous` in what the task needs. */
  ghost predicate Consecutive(w: Workspace, t: Target, k: nat, previous: ActionNode, x: ActionNode)
  {
    0 < k < |Needed(w, t)| && Needed(w, t)[k - 1] == previous && Needed(w, t)[k] == x
  }

  /** The node of the next dependency that runs follows those found in what the task needs. */
  lemma NextNeeded(w: Workspace, t: Target, i: nat, found: seq<ActionNode>, x: ActionNode)
    requires t in w.tasks && i < |w.tasks[t].deps| && found == RunnableNodes(w, w.tasks[t].deps, i) && |found| > 0
    requires var d := w.tasks[t].deps[i]; w.tasks[d.target].runs && x == w.TaskNode(d.target, d.config)
    ensures Consecutive(w, t, |found|, found[|found| - 1], x)
  {
    var deps := w.tasks[t].deps;
    assert RunnableNodes(w, deps, i + 1) == found + [x];
    RunnablePrefix(w, deps, i + 1, |deps|);
    assert found + [x] <= Needed(w, t);
    assert (found + [x])[|found| - 1] == found[|found| - 1];
  }
}
