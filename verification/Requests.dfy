/**
 What a request asks for: which tasks are wanted along dependents, which are expected with what
 they depend on, and which visits the recursion can make for it.
 */
module Requests {
  import opened Actions
  import opened Digraph
  import opened Workspaces

  /** What one call of the recursion is about: `via` says that the task was reached as a dependency. */
  datatype Visit = Visit(t: Target, config: nat, depth: nat, via: bool, skip: bool)

  function SetOf(targets: seq<Target>): set<Target> {
    set t | t in targets
  }

  predicate Up(w: Workspace, v: Visit) {
    w.upstream.InScope(v.depth)
  }

  /** Dependents are followed from requested tasks and their dependents, never from dependencies. */
  predicate Down(w: Workspace, v: Visit) {
    !v.via && w.downstream.InScope(v.depth)
  }

  ghost predicate CanVisit(w: Workspace, v: Visit) {
    v.t in w.tasks && w.TaskNode(v.t, v.config) in w.TaskNodes() && (!v.via ==> v.config == 0)
  }

  /** A requested task that is affected, or need not be. */
  ghost predicate Primary(w: Workspace, targets: set<Target>, t: Target) {
    t in targets && (w.skipAffected || w.affectedTasks.None? || t in w.affectedTasks.value)
  }

  /** A primary that is not filtered out in CI. */
  ghost predicate RunsAsPrimary(w: Workspace, targets: set<Target>, t: Target) {
    Primary(w, targets, t) && t in w.tasks && w.tasks[t].runs
  }

  /** A task that is filtered out in CI. */
  ghost predicate Filtered(w: Workspace, t: Target) {
    t in w.tasks && !w.tasks[t].runs
  }

  /** The dependents that are followed out of some tasks only. */
  ghost function From(w: Workspace, down: set<Target>): set<(Target, Target)> {
    set e | e in w.Following() && e.0 in down
  }

  /** The dependents that are followed when some tasks do not pass the request on. */
  ghost function Avoiding(w: Workspace, lost: set<Target>): set<(Target, Target)> {
    set e | e in w.Following() && e.0 !in lost
  }

  /** The tasks that a request for `targets` leads to along the dependents in `follow`. */
  ghost predicate Wanted(w: Workspace, targets: set<Target>, follow: set<(Target, Target)>, t: Target) {
    match w.downstream
    case NoScope => Primary(w, targets, t)
    case Direct => Primary(w, targets, t) || FollowsPrimary(w, targets, follow, t)
    case Deep => exists p: Target :: Primary(w, targets, p) && Reaches(follow, p, t)
  }

  ghost predicate FollowsPrimary(w: Workspace, targets: set<Target>, follow: set<(Target, Target)>, t: Target) {
    exists p: Target :: Primary(w, targets, p) && (p, t) in follow
  }

  /**
   The tasks that a request for `targets` asks to run: the wanted ones and, by scope, what they
   depend on. A task that is filtered out in CI does not run, and its dependencies need not.
   */
  ghost predicate Expected(w: Workspace, targets: set<Target>, follow: set<(Target, Target)>, t: Target) {
    t in w.tasks && w.tasks[t].runs &&
    match w.upstream
    case NoScope => Wanted(w, targets, follow, t)
    case Direct => Wanted(w, targets, follow, t) || exists p: Target :: Primary(w, targets, p) && (p, t) in w.Running()
    case Deep => exists d: Target :: Wanted(w, targets, follow, d) && Reaches(w.Running(), d, t)
  }

  /** The task is met as a dependency of an expected one. */
  ghost predicate MetAsDependency(w: Workspace, targets: set<Target>, follow: set<(Target, Target)>, t: Target) {
    exists a: Target :: Expected(w, targets, follow, a) && (a, t) in w.Upward()
      && (w.upstream.Deep? || (w.upstream.Direct? && Primary(w, targets, a)))
  }

  lemma WantedMono(w: Workspace, targets: set<Target>, follow: set<(Target, Target)>, more: set<(Target, Target)>, t: Target)
    requires follow <= more && Wanted(w, targets, follow, t)
    ensures Wanted(w, targets, more, t)
  {
    if w.downstream.Deep? {
      var p: Target :| Primary(w, targets, p) && Reaches(follow, p, t);
      ReachesMono(follow, more, p, t);
    }
  }

  lemma ExpectedMono(w: Workspace, targets: set<Target>, follow: set<(Target, Target)>, more: set<(Target, Target)>, t: Target)
    requires follow <= more && Expected(w, targets, follow, t)
    ensures Expected(w, targets, more, t)
  {
    if Wanted(w, targets, follow, t) {
      WantedMono(w, targets, follow, more, t);
    }
    if w.upstream.Deep? {
      var d: Target :| Wanted(w, targets, follow, d) && Reaches(w.Running(), d, t);
      WantedMono(w, targets, follow, more, d);
    }
  }

  lemma WantedIsExpected(w: Workspace, targets: set<Target>, follow: set<(Target, Target)>, t: Target)
    requires Wanted(w, targets, follow, t) && t in w.tasks && w.tasks[t].runs
    ensures Expected(w, targets, follow, t)
  {
    if w.upstream.Deep? {
      ReachesSelf(w.Running(), t);
    }
  }

  /** A visit of a task that the request for `targets` asks for. */
  ghost predicate Chosen(w: Workspace, targets: set<Target>, follow: set<(Target, Target)>, v: Visit) {
    && CanVisit(w, v)
    && (w.tasks[v.t].runs ==> Expected(w, targets, follow, v.t))
    && (if v.via then MetAsDependency(w, targets, follow, v.t) else Wanted(w, targets, follow, v.t))
    && (v.depth == 0 ==> Primary(w, targets, v.t) && !v.via)
    && (!v.via && v.depth > 0 && w.downstream.Direct? ==> FollowsPrimary(w, targets, follow, v.t))
  }

  lemma ChosenMono(w: Workspace, targets: set<Target>, follow: set<(Target, Target)>, more: set<(Target, Target)>, v: Visit)
    requires follow <= more && Chosen(w, targets, follow, v)
    ensures Chosen(w, targets, more, v)
  {
    if w.tasks[v.t].runs {
      ExpectedMono(w, targets, follow, more, v.t);
    }
    if v.via {
      var a: Target :| Expected(w, targets, follow, a) && (a, v.t) in w.Upward()
        && (w.upstream.Deep? || (w.upstream.Direct? && Primary(w, targets, a)));
      ExpectedMono(w, targets, follow, more, a);
    } else {
      WantedMono(w, targets, follow, more, v.t);
    }
  }

  /** A visit that the request for `targets` can lead to. */
  ghost predicate Allowed(w: Workspace, targets: set<Target>, follow: set<(Target, Target)>, v: Visit) {
    CanVisit(w, v) && (w.TaskAffected(v.t, v.skip) ==> Chosen(w, targets, follow, v))
  }

  /** The visit that a requested target starts with. */
  function Root(w: Workspace, t: Target): Visit {
    Visit(t, 0, 0, false, w.skipAffected)
  }

  lemma RequestAllowed(w: Workspace, targets: set<Target>, follow: set<(Target, Target)>, t: Target)
    requires t in targets && t in w.tasks
    ensures Allowed(w, targets, follow, Root(w, t))
  {
    if Primary(w, targets, t) {
      if w.downstream.Deep? {
        ReachesSelf(follow, t);
      }
      if w.tasks[t].runs {
        WantedIsExpected(w, targets, follow, t);
      }
    }
  }

  lemma DependencyAllowed(w: Workspace, targets: set<Target>, follow: set<(Target, Target)>, t: Target, depth: nat, i: nat)
    requires t in w.tasks && i < |w.tasks[t].deps| && w.upstream.InScope(depth)
    requires Expected(w, targets, follow, t) && (depth == 0 ==> Primary(w, targets, t))
    ensures var d := w.tasks[t].deps[i];
      (t, d.target) in w.Upward() && Allowed(w, targets, follow, Visit(d.target, d.config, depth + 1, true, true))
  {
    var d := w.tasks[t].deps[i];
    assert (t, d.target) in w.Upward();
    assert w.TaskNode(d.target, d.config) in w.TaskNodes();
    assert MetAsDependency(w, targets, follow, d.target);
    if w.tasks[d.target].runs {
      assert (t, d.target) in w.Running();
      if w.upstream.Deep? {
        var x: Target :| Wanted(w, targets, follow, x) && Reaches(w.Running(), x, t);
        ReachesSnoc(w.Running(), x, t, d.target);
      }
    }
  }

  lemma DependentAllowed(w: Workspace, targets: set<Target>, down: set<Target>, t: Target, depth: nat, i: nat)
    requires t in w.tasks && i < |w.dependents[t]| && w.downstream.InScope(depth) && t in down
    requires Wanted(w, targets, From(w, down), t) && (depth == 0 ==> Primary(w, targets, t))
    ensures Allowed(w, targets, From(w, down), Visit(w.dependents[t][i], 0, depth + 1, false, false))
  {
    var d := w.dependents[t][i];
    if w.TaskAffected(d, false) {
      assert (t, d) in From(w, down);
      if w.downstream.Deep? {
        var p: Target :| Primary(w, targets, p) && Reaches(From(w, down), p, t);
        ReachesSnoc(From(w, down), p, t, d);
      }
      if w.tasks[d].runs {
        WantedIsExpected(w, targets, From(w, down), d);
      }
    }
  }

  // ---- Tasks that are filtered out in CI ----

  /**
   A filtered task passes the request on to its dependents only when it is first met, so it may be
   lost if it can be met, other than through itself, in a way that does not follow dependents.
   */
  ghost predicate Losable(w: Workspace, targets: set<Target>, t: Target) {
    || MetAsDependency(w, targets, Avoiding(w, {t}), t)
    || (w.downstream.Direct? && FollowsPrimary(w, targets, Avoiding(w, {t}), t))
    || w.downstream.NoScope?
  }

  /** A visit that marks a task without following its dependents. */
  lemma ChosenIsLosable(w: Workspace, targets: set<Target>, down: set<Target>, v: Visit)
    requires Chosen(w, targets, From(w, down), v) && !Down(w, v) && v.t !in down
    ensures Losable(w, targets, v.t)
  {
    if v.via {
      var a: Target :| Expected(w, targets, From(w, down), a) && (a, v.t) in w.Upward()
        && (w.upstream.Deep? || (w.upstream.Direct? && Primary(w, targets, a)));
      ExpectedMono(w, targets, From(w, down), Avoiding(w, {v.t}), a);
    }
  }

  /** A filtered task that has dependents to pass the request on to. */
  ghost predicate PassesOn(w: Workspace, targets: set<Target>, t: Target) {
    match w.downstream
    case NoScope => false
    case Direct => Primary(w, targets, t)
    case Deep => Wanted(w, targets, w.Following(), t)
  }

  /** No task that must pass the request on can be lost, whatever the order of the request. */
  ghost predicate Unhindered(w: Workspace, targets: set<Target>) {
    forall t | Filtered(w, t) && PassesOn(w, targets, t) :: !Losable(w, targets, t)
  }

  lemma WantedUnhindered(w: Workspace, targets: set<Target>, lost: set<Target>, t: Target)
    requires Unhindered(w, targets) && (forall x | x in lost :: Filtered(w, x) && Losable(w, targets, x))
    requires Wanted(w, targets, w.Following(), t)
    ensures Wanted(w, targets, Avoiding(w, lost), t)
  {
    if w.downstream.Deep? {
      var p: Target :| Primary(w, targets, p) && Reaches(w.Following(), p, t);
      var members := iset y | Reaches(w.Following(), p, y) && Reaches(Avoiding(w, lost), p, y);
      forall u, v | (u, v) in w.Following() && u in members ensures v in members {
        assert PassesOn(w, targets, u) && u !in lost;
        ReachesSnoc(w.Following(), p, u, v);
        ReachesSnoc(Avoiding(w, lost), p, u, v);
      }
      ReachesSelf(w.Following(), p);
      ReachesSelf(Avoiding(w, lost), p);
      ReachesStaysIn(w.Following(), p, t, members);
    }
  }

  /** In an unhindered request nothing is missed on account of lost tasks. */
  lemma UnhinderedExact(w: Workspace, targets: set<Target>, lost: set<Target>, t: Target)
    requires Unhindered(w, targets) && (forall x | x in lost :: Filtered(w, x) && Losable(w, targets, x))
    ensures Expected(w, targets, Avoiding(w, lost), t) <==> Expected(w, targets, w.Following(), t)
  {
    if Expected(w, targets, Avoiding(w, lost), t) {
      ExpectedMono(w, targets, Avoiding(w, lost), w.Following(), t);
    }
    if Expected(w, targets, w.Following(), t) {
      if Wanted(w, targets, w.Following(), t) {
        WantedUnhindered(w, targets, lost, t);
      }
      if w.upstream.Deep? {
        var d: Target :| Wanted(w, targets, w.Following(), d) && Reaches(w.Running(), d, t);
        WantedUnhindered(w, targets, lost, d);
      }
    }
  }

  /** The filtered tasks that can be lost. */
  ghost function LosableTasks(w: Workspace, targets: set<Target>): set<Target> {
    set t | t in w.tasks && !w.tasks[t].runs && Losable(w, targets, t)
  }

  /** What is expected without passing any task that can be lost is expected whichever of them are. */
  lemma SurelyExpected(w: Workspace, targets: set<Target>, lost: set<Target>, t: Target)
    requires (forall x | x in lost :: Filtered(w, x) && Losable(w, targets, x))
    requires Expected(w, targets, Avoiding(w, LosableTasks(w, targets)), t)
    ensures Expected(w, targets, Avoiding(w, lost), t)
  {
    ExpectedMono(w, targets, Avoiding(w, LosableTasks(w, targets)), Avoiding(w, lost), t);
  }

  /** A request for the only filtered task is unhindered. */
  lemma OnlyFilteredUnhindered(w: Workspace, t: Target)
    requires Filtered(w, t) && forall x | Filtered(w, x) :: x == t
    ensures Unhindered(w, {t})
  {
    var follow := Avoiding(w, {t});
    forall a: Target | Wanted(w, {t}, follow, a) ensures a == t {
      if w.downstream.Deep? {
        var p: Target :| Primary(w, {t}, p) && Reaches(follow, p, a);
        ReachesSplit(follow, p, a);
      }
    }
    forall a: Target ensures !Expected(w, {t}, follow, a) {
      if Expected(w, {t}, follow, a) && w.upstream.Deep? {
        var d: Target :| Wanted(w, {t}, follow, d) && Reaches(w.Running(), d, a);
        RunningRuns(w, d, a);
      }
    }
  }

  // ---- Tasks that are sure to be lost ----

  /** What leads to a task that runs, along tasks that run, runs itself. */
  lemma RunningRuns(w: Workspace, d: Target, x: Target)
    requires Reaches(w.Running(), d, x) && x in w.tasks && w.tasks[x].runs
    ensures d in w.tasks && w.tasks[d].runs
  {
    ReachesSplit(w.Running(), d, x);
  }

  /** What a task that runs leads to, along tasks that run, runs itself. */
  lemma RunningLeads(w: Workspace, d: Target, x: Target)
    requires Reaches(w.Running(), d, x) && d in w.tasks && w.tasks[d].runs
    ensures x in w.tasks && w.tasks[x].runs
  {
    if d != x {
      var y := ReachedHasIncoming(w.Running(), d, x);
    }
  }

  /** Running `first` with its dependencies meets `t` as one of them, by scope. */
  ghost predicate MetBelow(w: Workspace, first: Target, t: Target) {
    match w.upstream
    case NoScope => false
    case Direct => (first, t) in w.Upward()
    case Deep => exists a: Target :: Reaches(w.Running(), first, a) && (a, t) in w.Upward()
  }

  /** Dependents that are followed out of `first` and of tasks that run. */
  ghost function Passing(w: Workspace, first: Target): set<(Target, Target)> {
    set e | e in w.Following() && (e.0 == first || (e.0 in w.tasks && w.tasks[e.0].runs))
  }

  /** Running `first` follows dependents to `d`. */
  ghost predicate Leads(w: Workspace, first: Target, d: Target) {
    match w.downstream
    case NoScope => false
    case Direct => (first, d) in w.Following()
    case Deep => Reaches(Passing(w, first), first, d)
  }

  /** Running `first` does not follow the dependents of `t`. */
  ghost predicate Unfollowed(w: Workspace, first: Target, t: Target) {
    match w.downstream
    case NoScope => true
    case Direct => t != first
    case Deep => !Reaches(w.Following(), first, t)
  }

  /** Running `first` meets `t` as a dependency of one of its dependents. */
  ghost predicate MetBehind(w: Workspace, first: Target, t: Target) {
    w.upstream.Deep? && Unfollowed(w, first, t)
      && exists d: Target :: Leads(w, first, d) && d in w.tasks && w.tasks[d].runs && MetBelow(w, d, t)
  }

  /** Tasks that a request is sure to lose by starting with `first`. */
  ghost predicate LostBehind(w: Workspace, targets: set<Target>, first: Target, t: Target) {
    Filtered(w, t) &&
    (|| (RunsAsPrimary(w, targets, first) && MetBelow(w, first, t))
     || (Primary(w, targets, first) && MetBehind(w, first, t))
     || (Primary(w, targets, first) && w.downstream.Direct? && (first, t) in w.Following() && t != first))
  }

  /** What the dependencies of a wanted task lead to is met as a dependency. */
  lemma MetBelowWanted(w: Workspace, targets: set<Target>, follow: set<(Target, Target)>, d: Target, t: Target)
    requires Wanted(w, targets, follow, d) && d in w.tasks && w.tasks[d].runs && MetBelow(w, d, t)
    requires w.upstream.Direct? ==> Primary(w, targets, d)
    ensures MetAsDependency(w, targets, follow, t)
  {
    if w.upstream.Direct? {
      assert Expected(w, targets, follow, d);
    } else {
      var a: Target :| Reaches(w.Running(), d, a) && (a, t) in w.Upward();
      RunningLeads(w, d, a);
      assert Expected(w, targets, follow, a);
    }
  }

  lemma PrimaryIsWanted(w: Workspace, targets: set<Target>, follow: set<(Target, Target)>, p: Target)
    requires Primary(w, targets, p)
    ensures Wanted(w, targets, follow, p)
  {
    ReachesSelf(follow, p);
  }

  /** What `first` leads to without following `t` is wanted without passing `t`. */
  lemma LeadsIsWanted(w: Workspace, targets: set<Target>, first: Target, d: Target, t: Target)
    requires Primary(w, targets, first) && Leads(w, first, d) && Unfollowed(w, first, t)
    ensures Wanted(w, targets, Avoiding(w, {t}), d)
  {
    if w.downstream.Deep? {
      var members := iset y | Reaches(w.Following(), first, y) && Reaches(Avoiding(w, {t}), first, y);
      forall u, v | (u, v) in Passing(w, first) && u in members ensures v in members {
        ReachesSnoc(w.Following(), first, u, v);
        ReachesSnoc(Avoiding(w, {t}), first, u, v);
      }
      ReachesSelf(w.Following(), first);
      ReachesSelf(Avoiding(w, {t}), first);
      ReachesStaysIn(Passing(w, first), first, d, members);
    }
  }

  /** What is sure to be lost in some order can be lost. */
  lemma LostIsLosable(w: Workspace, targets: set<Target>, first: Target, t: Target)
    requires LostBehind(w, targets, first, t)
    ensures Losable(w, targets, t)
  {
    if RunsAsPrimary(w, targets, first) && MetBelow(w, first, t) {
      PrimaryIsWanted(w, targets, Avoiding(w, {t}), first);
      MetBelowWanted(w, targets, Avoiding(w, {t}), first, t);
    } else if Primary(w, targets, first) && MetBehind(w, first, t) {
      var d: Target :| Leads(w, first, d) && d in w.tasks && w.tasks[d].runs && MetBelow(w, d, t);
      LeadsIsWanted(w, targets, first, d, t);
      MetBelowWanted(w, targets, Avoiding(w, {t}), d, t);
    }
  }

  /** With a direct downstream scope, what can be lost is sure to be lost in some order. */
  lemma LosableIsLost(w: Workspace, targets: set<Target>, t: Target) returns (first: Target)
    requires w.downstream.Direct? && Filtered(w, t) && Losable(w, targets, t)
    ensures Primary(w, targets, first) && LostBehind(w, targets, first, t)
  {
    var follow := Avoiding(w, {t});
    if FollowsPrimary(w, targets, follow, t) {
      first :| Primary(w, targets, first) && (first, t) in follow;
    } else {
      var a: Target :| Expected(w, targets, follow, a) && (a, t) in w.Upward()
        && (w.upstream.Deep? || (w.upstream.Direct? && Primary(w, targets, a)));
      if w.upstream.Direct? {
        first := a;
      } else {
        var d: Target :| Wanted(w, targets, follow, d) && Reaches(w.Running(), d, a);
        RunningRuns(w, d, a);
        assert MetBelow(w, d, t);
        if Primary(w, targets, d) {
          first := d;
        } else {
          first :| Primary(w, targets, first) && (first, d) in follow;
          assert Leads(w, first, d);
        }
      }
    }
  }

  /**
   With a direct downstream scope the condition is exact: a request is unhindered if and only if it
   has no order that is sure to lose a task which must pass the request on.
   */
  lemma UnhinderedIff(w: Workspace, targets: set<Target>)
    requires w.downstream.Direct?
    ensures Unhindered(w, targets) <==>
      forall first, t | Primary(w, targets, first) && PassesOn(w, targets, t) :: !LostBehind(w, targets, first, t)
  {
    if Unhindered(w, targets) {
      forall first, t | Primary(w, targets, first) && PassesOn(w, targets, t) ensures !LostBehind(w, targets, first, t) {
        if LostBehind(w, targets, first, t) {
          LostIsLosable(w, targets, first, t);
        }
      }
    } else {
      var t :| Filtered(w, t) && PassesOn(w, targets, t) && Losable(w, targets, t);
      var first := LosableIsLost(w, targets, t);
    }
  }
}
