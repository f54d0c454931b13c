/**
 The targets of a request one after the other: what is known after each, and what the build
 promises in the end.
 */
module Delivery {
  import opened Actions
  import opened Digraph
  import opened Requests
  import opened Workspaces
  import opened Builds
  import opened Wiring
  import opened DirectScope
  import opened BuildSteps

  /** What the first of `i` targets is sure to lose. */
  ghost function SurelyLost(w: Workspace, targets: seq<Target>, i: nat): set<Target>
    requires i <= |targets|
  {
    set t | t in w.tasks && i > 0 && LostBehind(w, SetOf(targets), targets[0], t)
  }

  /** The first of `i` targets, if its dependents are followed. */
  ghost function SurelyFollowed(w: Workspace, targets: seq<Target>, i: nat): set<Target>
    requires i <= |targets|
  {
    set t | t in w.tasks && i > 0 && t == targets[0] && Primary(w, SetOf(targets), t) && w.downstream.InScope(0)
  }

  /** What is known after the first `i` targets of a request. */
  ghost predicate Progress(w: Workspace, targets: seq<Target>, i: nat, b: Build, l: Ledger)
    requires i <= |targets|
  {
    && Holds(w, SetOf(targets), b, l) && l.Idle() && l.downOpen == {}
    && (forall k | 0 <= k < i :: Landed(w, b, l, targets[k]))
    && (Lawful(w) && w.upstream.Direct? ==> Traced(w, SetOf(targets), targets[..i], b) && PlansKept(w, targets, i, b))
    && (i == 0 ==> b == Nothing && l == Ledger({}, {}, {}, {}, {}))
    && SurelyLost(w, targets, i) <= l.lost && SurelyFollowed(w, targets, i) <= l.down
  }

  /** What the first target leads to is in place, and its own dependents were followed. */
  lemma LeadsInPlace(w: Workspace, b: Build, l: Ledger, first: Target, d: Target)
    requires Balanced(w, b, l) && l.downOpen == {} && first in l.down && Leads(w, first, d) && d in w.tasks && w.tasks[d].runs
    requires w.tasks[d].runs && d == first ==> w.TaskNode(d, 0) in b.nodes
    ensures w.TaskNode(d, 0) in b.nodes
  {
    assert DownDone(w, b, l, first);
    if w.downstream.Deep? {
      var members := iset y | y == first || (y in w.tasks && (w.tasks[y].runs ==> w.TaskNode(y, 0) in b.nodes && y in l.down));
      forall u, v | (u, v) in Passing(w, first) && u in members ensures v in members {
        assert DownDone(w, b, l, u);
      }
      ReachesStaysIn(Passing(w, first), first, d, members);
    }
  }

  ghost predicate AllExpanded(w: Workspace, b: Build) {
    forall n | n in b.nodes && n.RunTask? :: Expanded(w, b, n)
  }

  lemma AllIsExpanded(w: Workspace, b: Build)
    requires WellFormed(w, b) && Tidy(w, b, {})
    ensures w.upstream.Deep? ==> AllExpanded(w, b)
  {
  }

  /** With a deep scope, filtered tasks that are met below a node in place were followed or are lost. */
  lemma MetIsAccounted(w: Workspace, targets: set<Target>, b: Build, l: Ledger, node: ActionNode, x: Target)
    requires w.upstream.Deep? && WellFormed(w, b) && AllExpanded(w, b) && Accounted(w, targets, b, l)
    requires node in b.nodes && node.RunTask? && Filtered(w, x) && MetBelow(w, node.target, x)
    ensures x in l.down || x in l.lost
  {
    var a: Target :| Reaches(w.Running(), node.target, a) && (a, x) in w.Upward();
    BelowIsExpanded(w, b, node, a);
    var n :| n in b.nodes && n.RunTask? && n.target == a;
    MarkedIsAccounted(w, targets, b, l, n, x);
  }

  /** Only the dependents of the first target, and of what it leads to, were followed. */
  ghost predicate FollowedFrom(w: Workspace, first: Target, down: set<Target>) {
    (!w.downstream.Deep? ==> down <= {first}) && forall x | x in down :: Reaches(w.Following(), first, x)
  }

  lemma NotFollowed(w: Workspace, first: Target, down: set<Target>, d: Target, t: Target)
    requires FollowedFrom(w, first, down) && Leads(w, first, d) && Unfollowed(w, first, t)
    ensures t !in down
  {
  }

  /** Filtered tasks that are met below a dependent of the first target, and not followed, are lost. */
  lemma LosesBehind(w: Workspace, targets: set<Target>, first: Target, b: Build, l: Ledger, t: Target)
    requires WellFormed(w, b) && (w.upstream.Deep? ==> AllExpanded(w, b)) && Accounted(w, targets, b, l)
    requires Balanced(w, b, l) && l.downOpen == {} && first in l.down
    requires first in w.tasks && (w.tasks[first].runs ==> w.TaskNode(first, 0) in b.nodes)
    requires FollowedFrom(w, first, l.down) && Filtered(w, t) && MetBehind(w, first, t)
    ensures t in l.lost
  {
    var d: Target :| Leads(w, first, d) && d in w.tasks && w.tasks[d].runs && MetBelow(w, d, t);
    LeadsInPlace(w, b, l, first, d);
    MetIsAccounted(w, targets, b, l, w.TaskNode(d, 0), t);
    NotFollowed(w, first, l.down, d, t);
  }

  /** What the first target leaves behind: filtered tasks that it met are lost. */
  lemma Starts(w: Workspace, targets: set<Target>, first: Target, b: Build, l: Ledger)
    requires first in w.tasks && first in targets && WellFormed(w, b) && (w.upstream.Deep? ==> AllExpanded(w, b))
    requires Accounted(w, targets, b, l) && Balanced(w, b, l) && l.downOpen == {}
    requires Landed(w, b, l, first) && FollowedFrom(w, first, l.down)
    requires Primary(w, targets, first) && Filtered(w, first) && w.downstream.InScope(0) ==> first in l.down
    requires RunsAsPrimary(w, targets, first) ==> forall x: Target | Filtered(w, x) && MetBelow(w, first, x) :: x in l.lost
    ensures forall t | LostBehind(w, targets, first, t) :: t in l.lost
    ensures Primary(w, targets, first) && w.downstream.InScope(0) ==> first in l.down
  {
    forall t | LostBehind(w, targets, first, t) ensures t in l.lost {
      if RunsAsPrimary(w, targets, first) && MetBelow(w, first, t) {
      } else if MetBehind(w, first, t) {
        LosesBehind(w, targets, first, b, l, t);
      } else {
        assert DownDone(w, b, l, first);
      }
    }
  }

  /** What running a target does. */
  ghost predicate Takes(w: Workspace, targets: set<Target>, t: Target, b: Build, l: Ledger, b': Build, l': Ledger) {
    && t in w.tasks && Visits(w, targets, Root(w, t), b, l, b', l') && Landed(w, b', l', t)
    && (Primary(w, targets, t) && Filtered(w, t) && t !in b.passthrough ==> (t in l'.down <==> Down(w, Root(w, t))))
    && (RunsAsPrimary(w, targets, t) && w.upstream.InScope(0) && w.TaskNode(t, 0) !in b.nodes ==> LosesDependencies(w, t, l, l'))
  }

  /** Where a build came to: the graph, and what it owes. */
  datatype Moment = Moment(b: Build, l: Ledger)

  /** The moments before and after each of the first targets. */
  ghost predicate History(w: Workspace, targets: seq<Target>, h: seq<Moment>) {
    && 0 < |h| <= |targets| + 1 && h[0] == Moment(Nothing, Ledger({}, {}, {}, {}, {}))
    && forall k | 0 <= k < |h| - 1 :: TakesAt(w, targets, h, k)
  }

  ghost predicate TakesAt(w: Workspace, targets: seq<Target>, h: seq<Moment>, k: nat)
    requires k < |targets| && k + 1 < |h|
  {
    Takes(w, SetOf(targets), targets[k], h[k].b, h[k].l, h[k + 1].b, h[k + 1].l)
  }

  /** The build came here by running the first `i` targets one after the other. */
  ghost predicate After(w: Workspace, targets: seq<Target>, i: nat, b: Build, l: Ledger)
    requires i <= |targets|
  {
    exists h :: History(w, targets, h) && |h| == i + 1 && h[i] == Moment(b, l)
  }

  lemma AfterNothing(w: Workspace, targets: seq<Target>)
    ensures After(w, targets, 0, Nothing, Ledger({}, {}, {}, {}, {}))
  {
    assert History(w, targets, [Moment(Nothing, Ledger({}, {}, {}, {}, {}))]);
  }

  lemma AfterMore(w: Workspace, targets: seq<Target>, i: nat, b: Build, l: Ledger, b': Build, l': Ledger)
    requires i < |targets| && After(w, targets, i, b, l) && Takes(w, SetOf(targets), targets[i], b, l, b', l')
    ensures After(w, targets, i + 1, b', l')
  {
    var h :| History(w, targets, h) && |h| == i + 1 && h[i] == Moment(b, l);
    var h' := h + [Moment(b', l')];
    forall k | 0 <= k < |h'| - 1 ensures TakesAt(w, targets, h', k) {
      assert k < i ==> TakesAt(w, targets, h, k);
    }
    assert History(w, targets, h');
  }

  /** What is known wherever the build came to. */
  lemma AfterProgresses(w: Workspace, targets: seq<Target>, i: nat, b: Build, l: Ledger)
    requires i <= |targets| && After(w, targets, i, b, l)
    ensures Progress(w, targets, i, b, l)
  {
    var h :| History(w, targets, h) && |h| == i + 1 && h[i] == Moment(b, l);
    HistoryProgresses(w, targets, h, i);
  }

  ghost predicate ProgressAt(w: Workspace, targets: seq<Target>, h: seq<Moment>, i: nat)
    requires i < |h| <= |targets| + 1
  {
    Progress(w, targets, i, h[i].b, h[i].l)
  }

  lemma {:induction false} HistoryProgresses(w: Workspace, targets: seq<Target>, h: seq<Moment>, i: nat)
    requires History(w, targets, h) && i < |h|
    ensures ProgressAt(w, targets, h, i)
  {
    if i == 0 {
      HistoryBegins(w, targets, h);
    } else {
      HistoryProgresses(w, targets, h, i - 1);
      HistoryStep(w, targets, h, i - 1, i);
    }
  }

  lemma HistoryBegins(w: Workspace, targets: seq<Target>, h: seq<Moment>)
    requires 0 < |h| <= |targets| + 1 && h[0] == Moment(Nothing, Ledger({}, {}, {}, {}, {}))
    ensures ProgressAt(w, targets, h, 0)
  {
    ProgressNothing(w, targets);
  }

  lemma HistoryStep(w: Workspace, targets: seq<Target>, h: seq<Moment>, k: nat, i: nat)
    requires History(w, targets, h) && i == k + 1 < |h| && ProgressAt(w, targets, h, k)
    ensures ProgressAt(w, targets, h, i)
  {
    assert TakesAt(w, targets, h, k);
    ProgressMore(w, targets, k, h[k].b, h[k].l, h[i].b, h[i].l);
  }

  lemma ProgressNothing(w: Workspace, targets: seq<Target>)
    ensures Progress(w, targets, 0, Nothing, Ledger({}, {}, {}, {}, {}))
  {
    PlannedNothing(w, SetOf(targets));
    assert targets[..0] == [];
  }

  /** One more target was run. */
  lemma ProgressMore(w: Workspace, targets: seq<Target>, i: nat, b: Build, l: Ledger, b': Build, l': Ledger)
    requires i < |targets| && Progress(w, targets, i, b, l) && Takes(w, SetOf(targets), targets[i], b, l, b', l')
    ensures Progress(w, targets, i + 1, b', l')
  {
    if i == 0 {
      AllIsExpanded(w, b');
      Starts(w, SetOf(targets), targets[0], b', l');
    } else {
      assert SurelyLost(w, targets, i + 1) == SurelyLost(w, targets, i);
      assert SurelyFollowed(w, targets, i + 1) == SurelyFollowed(w, targets, i);
    }
    LandedMore(w, targets, i, b, l, b', l');
    if Lawful(w) && w.upstream.Direct? {
      TracedNext(w, targets, i, b, b');
      PlansMore(w, targets, i, b, b');
    }
  }

  lemma LandedMore(w: Workspace, targets: seq<Target>, i: nat, b: Build, l: Ledger, b': Build, l': Ledger)
    requires i < |targets| && Grows(b, b') && Advances(l, l') && Landed(w, b', l', targets[i])
    requires forall k | 0 <= k < i :: Landed(w, b, l, targets[k])
    ensures forall k | 0 <= k < i + 1 :: Landed(w, b', l', targets[k])
  {
    forall k | 0 <= k < i ensures Landed(w, b', l', targets[k]) {
      ExpandedStays(w, b, b', w.TaskNode(targets[k], 0));
    }
  }

  // ---- What a build promises ----

  /** No target clashes with those before it. */
  ghost predicate NoneClashes(w: Workspace, targets: seq<Target>) {
    forall i | 0 <= i < |targets| :: !Clashes(w, SetOf(targets), targets[..i], targets[i])
  }

  /** The target does not clash with the first `i` targets, if they are simple. */
  ghost predicate NotClashed(w: Workspace, targets: seq<Target>, i: nat, t: Target)
    requires i <= |targets|
  {
    Simple(w, targets, i) ==> !Clashes(w, SetOf(targets), targets[..i], t)
  }

  /** Some target was blocked when its turn came. */
  ghost predicate BlockedAtTurn(w: Workspace, targets: seq<Target>) {
    exists i, b, l | 0 <= i < |targets| && After(w, targets, i, b, l) && targets[i] in w.tasks :: Blocked(w, b, Root(w, targets[i]))
  }

  /**
   Which requests report a cycle, if task dependencies have none. With a direct scope an orderly
   request does not, a simple one does exactly if a target clashes, and any that does not has no
   target that clashes with a simple beginning of it.
   */
  ghost predicate CyclesExplained(w: Workspace, targets: seq<Target>, ok: bool) {
    Lawful(w) ==>
      && (!w.upstream.Direct? || Orderly(w, targets) ==> ok)
      && (w.upstream.Direct? && Simple(w, targets, |targets|) ==> (ok <==> NoneClashes(w, targets)))
      && (w.upstream.Direct? && ok ==> forall i, t | 0 <= i <= |targets| && t in targets :: NotClashed(w, targets, i, t))
      && (!ok ==> BlockedAtTurn(w, targets))
  }

  /** The node says of its task what the pipeline needs to know. */
  ghost predicate CarriesTask(w: Workspace, n: ActionNode) {
    && n.RunTask? && n.target in w.tasks && n.interactive == w.tasks[n.target].interactive && n.persistent == w.tasks[n.target].persistent
    && n.priority == w.tasks[n.target].priority && n.id == w.tasks[n.target].id
  }

  /**
   Which tasks are in the graph: exactly those expected without passing a lost one. So it has at
   least those expected without passing a losable one, at most those expected at all, and in an
   unhindered request exactly those.
   */
  ghost predicate TasksExplained(w: Workspace, targets: seq<Target>, b: Build, lost: set<Target>) {
    var all := SetOf(targets);
    && (forall t | t in lost :: Filtered(w, t) && Losable(w, all, t))
    && (forall n | n in b.nodes && n.RunTask? :: CarriesTask(w, n))
    && (forall x :: HasTask(b, x) <==> Expected(w, all, Avoiding(w, lost), x))
    && (forall x :: Expected(w, all, Avoiding(w, LosableTasks(w, all)), x) ==> HasTask(b, x))
    && (forall x :: HasTask(b, x) ==> Expected(w, all, w.Following(), x))
    && (Unhindered(w, all) ==> forall x :: HasTask(b, x) <==> Expected(w, all, w.Following(), x))
  }

  /**
   What depends on the first target: what it is sure to lose is lost, so that nothing expected only
   through that is in the graph, and it is not lost itself if its dependents are in scope.
   */
  ghost predicate LossesExplained(w: Workspace, targets: seq<Target>, b: Build, lost: set<Target>) {
    targets != [] ==>
      var all, first := SetOf(targets), targets[0];
      && (forall t | LostBehind(w, all, first, t) :: t in lost)
      && (forall t, x | LostBehind(w, all, first, t) && HasTask(b, x) :: Expected(w, all, Avoiding(w, {t}), x))
      && (Primary(w, all, first) && w.downstream.InScope(0) ==> first !in lost)
  }

  /** Every edge between tasks is a dependency, or orders the dependencies of a task that is not parallel. */
  ghost predicate EdgesExplained(w: Workspace, b: Build) {
    && (forall e | e in b.edges && e.1.RunTask? :: e in Needs(w) || e in b.serialEdges)
    && (forall e | e in b.serialEdges :: exists n, k :: Reason(w, b.nodes, e, n, k))
    && ((forall n | n in b.nodes && n.RunTask? :: n.target in w.tasks && w.tasks[n.target].parallel) ==> b.serialEdges == {})
  }

  /** How tasks are linked and serial dependencies ordered: what must be in the graph, and what may be. */
  ghost predicate LinksExplained(w: Workspace, targets: seq<Target>, b: Build) {
    && EdgesExplained(w, b)
    && (w.upstream.Deep? ==> forall n | n in b.nodes && n.RunTask? :: Linked(w, b, n))
    && (w.upstream.Deep? && Lawful(w) ==> forall n | n in b.nodes && n.RunTask? :: SerialDone(w, b, n))
    && (w.upstream.Direct? ==> forall t: Target | RunsAsPrimary(w, SetOf(targets), t) :: Linked(w, b, w.TaskNode(t, 0)))
  }

  /** With a deep scope and parallel tasks only, the edges between tasks are exactly their dependencies. */
  lemma ParallelIsExact(w: Workspace, targets: seq<Target>, b: Build, e: Edge)
    requires WellFormed(w, b) && LinksExplained(w, targets, b) && w.upstream.Deep?
    requires forall n | n in b.nodes && n.RunTask? :: w.tasks[n.target].parallel
    ensures e in b.edges && e.1.RunTask? <==> e in Needs(w) && e.0 in b.nodes
  {
    if e in Needs(w) && e.0 in b.nodes {
      NeededIsBelow(w, e.0.target, e.1);
    }
  }

  lemma TasksDelivered(w: Workspace, targets: seq<Target>, b: Build, l: Ledger)
    requires (forall t | t in targets :: t in w.tasks) && Progress(w, targets, |targets|, b, l)
    ensures TasksExplained(w, targets, b, l.lost)
  {
    var all := SetOf(targets);
    forall x
      ensures HasTask(b, x) <==> Expected(w, all, Avoiding(w, l.lost), x)
      ensures Expected(w, all, Avoiding(w, LosableTasks(w, all)), x) ==> HasTask(b, x)
      ensures HasTask(b, x) ==> Expected(w, all, w.Following(), x)
      ensures Unhindered(w, all) ==> (HasTask(b, x) <==> Expected(w, all, w.Following(), x))
    {
      ExactTasks(w, b, l, all, x);
      if Expected(w, all, Avoiding(w, LosableTasks(w, all)), x) {
        SurelyExpected(w, all, l.lost, x);
      }
      if HasTask(b, x) {
        ExpectedMono(w, all, Avoiding(w, l.lost), w.Following(), x);
      }
    }
  }

  lemma LossesDelivered(w: Workspace, targets: seq<Target>, b: Build, l: Ledger)
    requires (forall t | t in targets :: t in w.tasks) && l.down !! l.lost
    requires SurelyLost(w, targets, |targets|) <= l.lost && SurelyFollowed(w, targets, |targets|) <= l.down
    requires forall x | HasTask(b, x) :: Expected(w, SetOf(targets), Avoiding(w, l.lost), x)
    ensures LossesExplained(w, targets, b, l.lost)
  {
    if targets != [] {
      var all, first := SetOf(targets), targets[0];
      forall t | LostBehind(w, all, first, t)
        ensures t in l.lost
        ensures forall x | HasTask(b, x) :: Expected(w, all, Avoiding(w, {t}), x)
      {
        assert t in SurelyLost(w, targets, |targets|);
        LossAvoided(w, all, b, l.lost, t);
      }
    }
  }

  lemma LossAvoided(w: Workspace, targets: set<Target>, b: Build, lost: set<Target>, t: Target)
    requires t in lost && forall x | HasTask(b, x) :: Expected(w, targets, Avoiding(w, lost), x)
    ensures forall x | HasTask(b, x) :: Expected(w, targets, Avoiding(w, {t}), x)
  {
    forall x | HasTask(b, x) ensures Expected(w, targets, Avoiding(w, {t}), x) {
      ExpectedMono(w, targets, Avoiding(w, lost), Avoiding(w, {t}), x);
    }
  }

  lemma EdgesDelivered(w: Workspace, b: Build)
    requires WellFormed(w, b) && Reasoned(w, b.nodes, b.serialEdges)
    ensures EdgesExplained(w, b)
  {
    if e :| e in b.serialEdges {
      var n, k :| Reason(w, b.nodes, e, n, k);
    }
  }

  lemma LinksDelivered(w: Workspace, targets: seq<Target>, b: Build, l: Ledger)
    requires WellFormed(w, b) && Reasoned(w, b.nodes, b.serialEdges) && Tidy(w, b, {})
    requires forall k | 0 <= k < |targets| :: Landed(w, b, l, targets[k])
    ensures LinksExplained(w, targets, b)
  {
    EdgesDelivered(w, b);
  }

  /** A build that ran all targets had no clash with a simple beginning. */
  lemma CyclesDelivered(w: Workspace, targets: seq<Target>, b: Build, l: Ledger)
    requires (forall t | t in targets :: t in w.tasks) && Progress(w, targets, |targets|, b, l)
    ensures CyclesExplained(w, targets, true)
  {
    if Lawful(w) && w.upstream.Direct? {
      forall i, t | 0 <= i <= |targets| && t in targets ensures NotClashed(w, targets, i, t) {
        if Simple(w, targets, i) && RunsAsPrimary(w, SetOf(targets), t) {
          LinkedNeverClashed(w, targets, |targets|, b, i, t);
        }
      }
      if Simple(w, targets, |targets|) {
        forall i | 0 <= i < |targets| ensures !Clashes(w, SetOf(targets), targets[..i], targets[i]) {
          assert NotClashed(w, targets, i, targets[i]);
        }
      }
    }
  }

  /** What a build that ran all targets promises. */
  lemma Delivered(w: Workspace, targets: seq<Target>, b: Build, l: Ledger)
    requires (forall t | t in targets :: t in w.tasks) && After(w, targets, |targets|, b, l)
    ensures CyclesExplained(w, targets, true) && WellFormed(w, b) && LinksExplained(w, targets, b)
    ensures TasksExplained(w, targets, b, l.lost) && LossesExplained(w, targets, b, l.lost)
  {
    AfterProgresses(w, targets, |targets|, b, l);
    CyclesDelivered(w, targets, b, l);
    LinksDelivered(w, targets, b, l);
    TasksDelivered(w, targets, b, l);
    LossesDelivered(w, targets, b, l);
  }

  /** A build reports a cycle only if the request explains it. */
  lemma CycleReported(w: Workspace, targets: seq<Target>)
    requires (forall t | t in targets :: t in w.tasks) && (Lawful(w) ==> BlockedAtTurn(w, targets))
    ensures CyclesExplained(w, targets, false)
  {
    if Lawful(w) {
      var i, b, l :| 0 <= i < |targets| && After(w, targets, i, b, l) && targets[i] in w.tasks && Blocked(w, b, Root(w, targets[i]));
      AfterProgresses(w, targets, i, b, l);
      NotBlocked(w, targets, i, b, l);
    }
  }

  /** No target of an orderly request is blocked when its turn comes, and one of a simple request only if it clashes. */
  lemma NotBlocked(w: Workspace, targets: seq<Target>, i: nat, b: Build, l: Ledger)
    requires WellFormed(w, b) && Lawful(w) && i < |targets| && forall t | t in targets :: t in w.tasks
    requires forall k | 0 <= k < i :: Landed(w, b, l, targets[k])
    requires w.upstream.Direct? ==> Traced(w, SetOf(targets), targets[..i], b) && PlansKept(w, targets, i, b)
    ensures !w.upstream.Direct? || Orderly(w, targets) ==> !Blocked(w, b, Root(w, targets[i]))
    ensures Simple(w, targets, |targets|) && !Clashes(w, SetOf(targets), targets[..i], targets[i]) ==>
      !Blocked(w, b, Root(w, targets[i]))
  {
    var all, node := SetOf(targets), w.TaskNode(targets[i], 0);
    if w.upstream.Direct? && RunsAsPrimary(w, all, targets[i]) {
      if targets[i] in targets[..i] {
        assert Landed(w, b, l, targets[i]);
        LinkedNotReached(w, b, node);
      } else {
        if Orderly(w, targets) {
          OrderlyNotReached(w, targets, i, b);
        }
        if Simple(w, targets, |targets|) {
          SimpleUpTo(w, targets, 0, |targets|);
          ReachedAsPlanned(w, all, targets[..i], b, node);
        }
      }
    }
  }
}
