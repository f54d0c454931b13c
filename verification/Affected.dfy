/**
 Which projects and tasks are affected, and by what. Projects and tasks are walked by the same
 code along dependencies and along dependents, so one walk over items stands for all four.
 */
module AffectedTracking {
  import opened Actions
  import opened Digraph
  import opened Pool
  import opened Workspaces

  datatype Item = ProjectItem(id: ProjectId) | TaskItem(target: Target)

  /** The way a walk goes: `Upstream` along dependencies, `Downstream` along dependents. */
  datatype Direction = Upstream | Downstream

  /** `Related(Upstream, u)` is the mark that `u` is downstream of the item, and the other way around. */
  datatype Mark = ByItself(reason: nat) | Related(way: Direction, item: Item) | ByTask(task: Item)

  /** What the look at files and environment says of an item on its own. */
  datatype Check = CheckFails | Unaffected | AffectedBy(reason: nat)

  type Marks = map<Item, set<Mark>>

  datatype World = World(
    dependencies: map<Item, seq<Item>>,
    dependents: map<Item, seq<Item>>,
    owner: map<Item, Item>,
    checks: map<Item, Check>,
    projectUpstream: Scope, projectDownstream: Scope,
    taskUpstream: Scope, taskDownstream: Scope)
  {
    ghost predicate Valid() {
      && dependencies.Keys == dependents.Keys == checks.Keys
      && (forall x, y | x in dependencies && y in dependencies[x] :: y in dependencies && y.ProjectItem? == x.ProjectItem?)
      && (forall x, y | x in dependents && y in dependents[x] :: y in dependents && y.ProjectItem? == x.ProjectItem?)
      && (forall x | x in owner :: x.TaskItem? && owner[x].ProjectItem?)
    }

    function Next(way: Direction, x: Item): seq<Item>
      requires x in (if way.Upstream? then dependencies else dependents)
    {
      if way.Upstream? then dependencies[x] else dependents[x]
    }

    function Reach(way: Direction, x: Item): Scope {
      match (way, x)
      case (Upstream, ProjectItem(_)) => projectUpstream
      case (Downstream, ProjectItem(_)) => projectDownstream
      case (Upstream, TaskItem(_)) => taskUpstream
      case (Downstream, TaskItem(_)) => taskDownstream
    }

    ghost function Edges(way: Direction): set<(Item, Item)>
      requires Valid()
    {
      set x, y | x in dependencies && y in Next(way, x) :: (x, y)
    }

    ghost predicate Affected(x: Item) {
      x in checks && checks[x].AffectedBy?
    }
  }

  predicate Has(marks: Marks, v: Item, m: Mark) {
    v in marks && m in marks[v]
  }

  // ---- What should be marked ----

  /** `u` is visited on the way from `x`: every item that `x` reaches, only `x`, or none, by scope. */
  ghost predicate OnTheWay(g: World, way: Direction, x: Item, u: Item)
    requires g.Valid()
  {
    match g.Reach(way, x)
    case NoScope => false
    case Direct => u == x
    case Deep => Reaches(g.Edges(way), x, u)
  }

  /** The marks that an item which is affected by itself gives rise to. */
  ghost predicate DueTo(g: World, x: Item, v: Item, m: Mark)
    requires g.Valid()
  {
    g.Affected(x) &&
    match m
    case ByItself(reason) => v == x && reason == g.checks[x].reason
    case Related(way, u) => (u, v) in g.Edges(way) && OnTheWay(g, way, x, u)
    case ByTask(task) => task == x && x in g.owner && v == g.owner[x]
  }

  ghost predicate Due(g: World, items: set<Item>, v: Item, m: Mark)
    requires g.Valid()
  {
    exists x | x in items :: DueTo(g, x, v, m)
  }

  /** `after` holds the marks of `before` and those that are due, and no others. */
  ghost predicate Tracks(g: World, before: Marks, items: set<Item>, after: Marks)
    requires g.Valid()
  {
    forall v, m :: Has(after, v, m) <==> Has(before, v, m) || Due(g, items, v, m)
  }

  ghost predicate NoneEmpty(marks: Marks) {
    forall v | v in marks :: marks[v] != {}
  }

  /** Marks are determined by the set of tracked items, not by their order or by who tracked them. */
  lemma TrackingAgrees(g: World, before: Marks, items: set<Item>, a: Marks, b: Marks)
    requires g.Valid() && Tracks(g, before, items, a) && Tracks(g, before, items, b) && NoneEmpty(a) && NoneEmpty(b)
    ensures a == b
  {
    forall v ensures v in a <==> v in b {
      if v in a {
        var m :| m in a[v];
        assert Has(a, v, m) && Has(b, v, m);
      }
      if v in b {
        var m :| m in b[v];
        assert Has(b, v, m) && Has(a, v, m);
      }
    }
    forall v | v in a ensures a[v] == b[v] {
      forall m ensures m in a[v] <==> m in b[v] {
        assert Has(a, v, m) <==> Has(b, v, m);
      }
    }
  }

  // ---- The same in terms of the workspace ----

  /** Which items a map of lists leads to. */
  ghost function Arrows(next: map<Item, seq<Item>>): set<(Item, Item)> {
    set x, y | x in next && y in next[x] :: (x, y)
  }

  /** A walk from `x` gets to `u`: with a direct scope only at its start, with a deep one wherever the arrows lead. */
  ghost predicate GetsTo(scope: Scope, next: map<Item, seq<Item>>, x: Item, u: Item) {
    (scope == Direct && u == x) || (scope == Deep && Reaches(Arrows(next), x, u))
  }

  /** Some tracked item of the kind is affected by itself, and the walk from it gets to `u`. */
  ghost predicate Walks(g: World, items: set<Item>, project: bool, scope: Scope, next: map<Item, seq<Item>>, u: Item) {
    exists x | x in items && x in g.checks && g.checks[x].AffectedBy? && x.ProjectItem? == project :: GetsTo(scope, next, x, u)
  }

  /** Arrows lead from projects to projects and from tasks to tasks. */
  lemma KindStays(next: map<Item, seq<Item>>, x: Item, u: Item)
    requires (forall x, y | x in next && y in next[x] :: y.ProjectItem? == x.ProjectItem?) && Reaches(Arrows(next), x, u)
    ensures u.ProjectItem? == x.ProjectItem?
  {
    ReachesStaysIn(Arrows(next), x, u, iset z: Item | z.ProjectItem? == x.ProjectItem?);
  }

  lemma EdgesAreArrows(g: World)
    requires g.Valid()
    ensures g.Edges(Upstream) == Arrows(g.dependencies) && g.Edges(Downstream) == Arrows(g.dependents)
  {
  }

  /** `u` lists `v` as a dependency, and a walk along dependencies gets to `u`. */
  ghost predicate DownstreamOf(g: World, items: set<Item>, v: Item, u: Item) {
    && u in g.dependencies && v in g.dependencies[u]
    && Walks(g, items, u.ProjectItem?, if u.ProjectItem? then g.projectUpstream else g.taskUpstream, g.dependencies, u)
  }

  /** `u` lists `v` as a dependent, and a walk along dependents gets to `u`. */
  ghost predicate UpstreamOf(g: World, items: set<Item>, v: Item, u: Item) {
    && u in g.dependents && v in g.dependents[u]
    && Walks(g, items, u.ProjectItem?, if u.ProjectItem? then g.projectDownstream else g.taskDownstream, g.dependents, u)
  }

  lemma DownstreamIsDue(g: World, items: set<Item>, v: Item, u: Item)
    requires g.Valid()
    ensures Due(g, items, v, Related(Upstream, u)) <==> DownstreamOf(g, items, v, u)
  {
    EdgesAreArrows(g);
    forall x | Reaches(Arrows(g.dependencies), x, u) ensures u.ProjectItem? == x.ProjectItem? {
      KindStays(g.dependencies, x, u);
    }
    forall x | x in items
      ensures DueTo(g, x, v, Related(Upstream, u)) <==>
        && u in g.dependencies && v in g.dependencies[u] && g.Affected(x) && x.ProjectItem? == u.ProjectItem?
        && GetsTo(if u.ProjectItem? then g.projectUpstream else g.taskUpstream, g.dependencies, x, u)
    {
    }
  }

  lemma UpstreamIsDue(g: World, items: set<Item>, v: Item, u: Item)
    requires g.Valid()
    ensures Due(g, items, v, Related(Downstream, u)) <==> UpstreamOf(g, items, v, u)
  {
    EdgesAreArrows(g);
    forall x | Reaches(Arrows(g.dependents), x, u) ensures u.ProjectItem? == x.ProjectItem? {
      KindStays(g.dependents, x, u);
    }
    forall x | x in items
      ensures DueTo(g, x, v, Related(Downstream, u)) <==>
        && u in g.dependents && v in g.dependents[u] && g.Affected(x) && x.ProjectItem? == u.ProjectItem?
        && GetsTo(if u.ProjectItem? then g.projectDownstream else g.taskDownstream, g.dependents, x, u)
    {
    }
  }

  /** Why tracking marks an item, in terms of the workspace. */
  ghost predicate Explains(g: World, items: set<Item>, v: Item, m: Mark) {
    match m
    case ByItself(reason) => v in items && v in g.checks && g.checks[v] == AffectedBy(reason)
    case ByTask(t) => t in items && t in g.checks && g.checks[t].AffectedBy? && t in g.owner && g.owner[t] == v
    case Related(Upstream, u) => DownstreamOf(g, items, v, u)
    case Related(Downstream, u) => UpstreamOf(g, items, v, u)
  }

  /**
   Tracking adds to an item exactly the marks that the workspace explains: the reason of its own check, a
   mark of each task it owns that was affected, and one of each item that a walk got to and that lists it.
   Walks along dependencies and along dependents, of projects and of tasks, each have their own scope.
   */
  lemma MarksExplained(g: World, before: Marks, items: set<Item>, after: Marks, v: Item, m: Mark)
    requires g.Valid() && Tracks(g, before, items, after)
    ensures Has(after, v, m) <==> Has(before, v, m) || Explains(g, items, v, m)
  {
    assert Has(after, v, m) <==> Has(before, v, m) || Due(g, items, v, m);
    match m
    case Related(Upstream, u) => DownstreamIsDue(g, items, v, u);
    case Related(Downstream, u) => UpstreamIsDue(g, items, v, u);
    case ByItself(reason) => assert DueTo(g, v, v, m) <==> g.Affected(v) && g.checks[v].reason == reason;
    case ByTask(t) => assert DueTo(g, t, v, m) <==> g.Affected(t) && t in g.owner && v == g.owner[t];
  }

  lemma TracksMore(g: World, before: Marks, items: set<Item>, mid: Marks, x: Item, after: Marks)
    requires g.Valid() && Tracks(g, before, items, mid)
    requires forall v, m :: Has(after, v, m) <==> Has(mid, v, m) || DueTo(g, x, v, m)
    ensures Tracks(g, before, items + {x}, after)
  {
  }

  /** The marks of a tracker that tracked only `x`. */
  ghost predicate OwnMarks(g: World, x: Item, marks: Marks)
    requires g.Valid()
  {
    NoneEmpty(marks) && forall v, m :: Has(marks, v, m) <==> DueTo(g, x, v, m)
  }

  /** A tracker fails exactly if the check of its item does. */
  ghost predicate OwnOutcome(g: World, x: Item, outcome: Outcome<Marks>)
    requires g.Valid() && x in g.dependencies
  {
    (outcome.Bad? <==> g.checks[x].CheckFails?) && (outcome.Good? ==> OwnMarks(g, x, outcome.value))
  }

  /** A direct mark is the one its check gives, and a task that has one is marked on its project. */
  ghost predicate Consistent(g: World, marks: Marks) {
    && NoneEmpty(marks)
    && forall x, r | Has(marks, x, ByItself(r)) ::
         x in g.checks && g.checks[x] == AffectedBy(r) && (x in g.owner ==> Has(marks, g.owner[x], ByTask(x)))
  }

  /** The marks that a walk which visited `walked` puts. */
  ghost predicate Walked(g: World, way: Direction, walked: set<Item>, v: Item, m: Mark)
    requires g.Valid()
  {
    m.Related? && m.way == way && m.item in walked && (m.item, v) in g.Edges(way)
  }

  /** `entry(v).or_default().insert(m)`. */
  function Insert(marks: Marks, v: Item, m: Mark): Marks {
    marks[v := (if v in marks then marks[v] else {}) + {m}]
  }

  lemma InsertAdds(marks: Marks, v: Item, m: Mark)
    ensures forall v', m' :: Has(Insert(marks, v, m), v', m') <==> Has(marks, v', m') || (v' == v && m' == m)
  {
  }

  /** The marks while `x` is being walked from: `walked` was visited, and `done` of its neighbours were marked. */
  ghost predicate Progress(g: World, way: Direction, before: Marks, x: Item, walked: set<Item>, done: seq<Item>, marks: Marks)
    requires g.Valid()
  {
    forall v, m :: Has(marks, v, m) <==>
      Has(before, v, m) || Walked(g, way, walked, v, m) || (m == Related(way, x) && v in done)
  }

  lemma ProgressInsert(
      g: World, way: Direction, before: Marks, x: Item, walked: set<Item>, done: seq<Item>, marks: Marks, y: Item)
    requires g.Valid() && Progress(g, way, before, x, walked, done, marks)
    ensures Progress(g, way, before, x, walked, done + [y], Insert(marks, y, Related(way, x)))
  {
  }

  lemma ProgressWalk(
      g: World, way: Direction, before: Marks, x: Item, walked: set<Item>, done: seq<Item>, more: set<Item>, mid: Marks, marks: Marks)
    requires g.Valid() && Progress(g, way, before, x, walked, done, mid)
    requires forall v, m :: Has(marks, v, m) <==> Has(mid, v, m) || Walked(g, way, more, v, m)
    ensures Progress(g, way, before, x, walked + more, done, marks)
  {
  }

  lemma ProgressDone(g: World, way: Direction, before: Marks, x: Item, walked: set<Item>, marks: Marks)
    requires g.Valid() && x in g.dependencies && Progress(g, way, before, x, walked, g.Next(way, x), marks)
    ensures forall v, m :: Has(marks, v, m) <==> Has(before, v, m) || Walked(g, way, walked + {x}, v, m)
  {
  }

  class AffectedTracker {
    const g: World
    var marks: Marks

    constructor (g: World)
      ensures this.g == g && marks == map[]
    {
      this.g := g;
      marks := map[];
    }

    predicate IsMarkedIgnoringRelations(x: Item)
      reads this
    {
      x in marks && exists m | m in marks[x] :: m.ByItself?
    }

    /**
     One walk: `cycle` are the items visited before it, `seen` those visited after it. The marks it
     adds are exactly those of the items it visited, and in a deep walk these are closed under `Next`.
     */
    method Walk(way: Direction, x: Item, depth: nat, cycle: set<Item>) returns (seen: set<Item>)
      requires g.Valid() && x in g.dependencies && (g.Reach(way, x).Direct? ==> depth == 0) && NoneEmpty(marks)
      modifies this`marks
      ensures cycle + {x} <= seen && NoneEmpty(marks)
      ensures forall u | u in seen - cycle :: Reaches(g.Edges(way), x, u)
      ensures !g.Reach(way, x).Deep? ==> seen == cycle + {x}
      ensures g.Reach(way, x).Deep? ==> forall e | e in g.Edges(way) && e.0 in seen - cycle :: e.1 in seen
      ensures forall v, m :: Has(marks, v, m) <==>
        Has(old(marks), v, m) || (!g.Reach(way, x).NoScope? && Walked(g, way, seen - cycle, v, m))
      decreases g.dependencies.Keys - cycle
    {
      seen := cycle;
      if x in cycle {
        return;
      }
      seen := cycle + {x};
      ReachesSelf(g.Edges(way), x);
      if g.Reach(way, x).NoScope? {
        return;
      }
      var next := g.Next(way, x);
      ghost var before, walked := marks, {};
      for i := 0 to |next|
        invariant cycle + {x} <= seen && walked == seen - cycle - {x} && NoneEmpty(marks)
        invariant forall u | u in seen - cycle :: Reaches(g.Edges(way), x, u)
        invariant !g.Reach(way, x).Deep? ==> seen == cycle + {x}
        invariant g.Reach(way, x).Deep? ==> forall e | e in g.Edges(way) && e.0 in seen - cycle && e.0 != x :: e.1 in seen
        invariant g.Reach(way, x).Deep? ==> forall y | y in next[..i] :: y in seen
        invariant Progress(g, way, before, x, walked, next[..i], marks)
      {
        var y := next[i];
        assert (x, y) in g.Edges(way) && next[..i + 1] == next[..i] + [y];
        ProgressInsert(g, way, before, x, walked, next[..i], marks, y);
        marks := Insert(marks, y, Related(way, x));
        if depth == 0 && g.Reach(way, x).Direct? {
          continue;
        }
        ghost var earlier, mid := seen, marks;
        seen := Walk(way, y, depth + 1, seen);
        ProgressWalk(g, way, before, x, walked, next[..i + 1], seen - earlier, mid, marks);
        walked := walked + (seen - earlier);
        forall u | u in seen - earlier ensures Reaches(g.Edges(way), x, u) {
          ReachesCons(g.Edges(way), x, y, u);
        }
      }
      assert next[..|next|] == next && seen - cycle == walked + {x};
      ProgressDone(g, way, before, x, walked, marks);
    }

    /** A walk from scratch visits exactly what is on the way. */
    method WalkFrom(way: Direction, x: Item)
      requires g.Valid() && x in g.dependencies && NoneEmpty(marks)
      modifies this`marks
      ensures NoneEmpty(marks)
      ensures forall v, m :: Has(marks, v, m) <==>
        Has(old(marks), v, m) || (m.Related? && m.way == way && (m.item, v) in g.Edges(way) && OnTheWay(g, way, x, m.item))
    {
      var seen := Walk(way, x, 0, {});
      if g.Reach(way, x).Deep? {
        forall u ensures u in seen <==> OnTheWay(g, way, x, u) {
          if OnTheWay(g, way, x, u) {
            assert forall a, b | (a, b) in g.Edges(way) && a in seen :: (a, b).1 in seen;
            ReachesStaysIn(g.Edges(way), x, u, iset z | z in seen);
          } else {
            assert u !in seen - {};
          }
        }
      }
    }

    /** Walks both ways from an item that is affected by itself. */
    method WalkBoth(x: Item)
      requires g.Valid() && x in g.dependencies && NoneEmpty(marks)
      modifies this`marks
      ensures NoneEmpty(marks)
      ensures g.Affected(x) ==> forall v, m ::
        Has(marks, v, m) <==> Has(old(marks), v, m) || (m.Related? && DueTo(g, x, v, m))
    {
      WalkFrom(Upstream, x);
      WalkFrom(Downstream, x);
    }

    /** Marks an item with the reason of its own check. */
    method MarkAffected(x: Item, reason: nat)
      requires g.Valid() && x in g.dependencies && NoneEmpty(marks) && g.checks[x] == AffectedBy(reason)
      modifies this`marks
      ensures NoneEmpty(marks)
      ensures forall v, m :: Has(marks, v, m) <==> Has(old(marks), v, m) || DueTo(g, x, v, m)
    {
      InsertAdds(marks, x, ByItself(reason));
      marks := Insert(marks, x, ByItself(reason));
      WalkBoth(x);
      if x in g.owner {
        InsertAdds(marks, g.owner[x], ByTask(x));
        marks := Insert(marks, g.owner[x], ByTask(x));
      }
    }

    /** The sequential form: an item that has a direct mark is only walked from. */
    method TrackItem(x: Item) returns (ok: bool)
      requires g.Valid() && x in g.dependencies && Consistent(g, marks)
      modifies this`marks
      ensures ok <==> !g.checks[x].CheckFails?
      ensures ok ==> Consistent(g, marks) && forall v, m :: Has(marks, v, m) <==> Has(old(marks), v, m) || DueTo(g, x, v, m)
    {
      if IsMarkedIgnoringRelations(x) {
        var m :| m in marks[x] && m.ByItself?;
        assert Has(marks, x, ByItself(m.reason));
        WalkBoth(x);
        return true;
      }
      match g.checks[x]
      case CheckFails => ok := false;
      case Unaffected => ok := true;
      case AffectedBy(reason) =>
        MarkAffected(x, reason);
        ok := true;
    }

    /** Tracks items one after the other. */
    method Track(items: seq<Item>) returns (ok: bool)
      requires g.Valid() && Consistent(g, marks) && forall x | x in items :: x in g.dependencies
      modifies this`marks
      ensures ok <==> forall x | x in items :: !g.checks[x].CheckFails?
      ensures ok ==> Consistent(g, marks) && Tracks(g, old(marks), (set x | x in items), marks)
    {
      ghost var done: set<Item> := {};
      for i := 0 to |items|
        invariant Consistent(g, marks) && Tracks(g, old(marks), done, marks) && done == set x | x in items[..i]
        invariant forall x | x in items[..i] :: !g.checks[x].CheckFails?
      {
        ghost var mid := marks;
        ok := TrackItem(items[i]);
        if !ok {
          return;
        }
        TracksMore(g, old(marks), done, mid, items[i], marks);
        done := done + {items[i]};
      }
      ok := true;
    }

    /** The tracker of one item on its own, as it runs in the pool: it reads the world only. */
    method TrackAlone(x: Item) returns (outcome: Outcome<Marks>)
      requires g.Valid() && x in g.dependencies
      ensures OwnOutcome(g, x, outcome)
    {
      match g.checks[x]
      case CheckFails => outcome := Bad;
      case Unaffected => outcome := Good(map[]);
      case AffectedBy(reason) =>
        var own := new AffectedTracker(g);
        own.MarkAffected(x, reason);
        outcome := Good(own.marks);
    }

    method TrackEachAlone(items: seq<Item>) returns (outcomes: map<Item, Outcome<Marks>>)
      requires g.Valid() && forall x | x in items :: x in g.dependencies
      ensures forall x | x in items :: x in outcomes && OwnOutcome(g, x, outcomes[x])
    {
      outcomes := map[];
      for i := 0 to |items|
        invariant forall x | x in items[..i] :: x in outcomes
        invariant forall x | x in outcomes :: x in g.dependencies && OwnOutcome(g, x, outcomes[x])
      {
        var outcome := TrackAlone(items[i]);
        outcomes := outcomes[items[i] := outcome];
      }
    }

    /**
     The pooled form: every item has a tracker of its own, whose marks are its output, and the
     outputs are merged in input order, in whatever order the pool completes them. If an item
     fails, those before it may have been merged.
     */
    method TrackPooled(items: seq<Item>, concurrency: nat) returns (ok: bool, ghost merged: nat)
      requires g.Valid() && NoneEmpty(marks) && (forall x | x in items :: x in g.dependencies) && concurrency > 0
      modifies this`marks
      ensures ok <==> forall x | x in items :: !g.checks[x].CheckFails?
      ensures ok ==> merged == |items|
      ensures merged <= |items| && NoneEmpty(marks) && Tracks(g, old(marks), (set x | x in items[..merged]), marks)
    {
      var outcomes := TrackEachAlone(items);
      var work := Work((_: Item) => true, (x: Item) => if x in outcomes then outcomes[x] else Bad, (_: Marks) => true);
      var outputs: seq<Marks>;
      ghost var peak;
      ok, outputs, peak := RunPooledTasks(items, work, concurrency);
      assert ok <==> forall x | x in items :: Fine(work, x);
      merged := |outputs|;
      forall i | 0 <= i < merged ensures OwnMarks(g, items[..merged][i], outputs[i]) {
        assert Fine(work, items[i]) && work.output(items[i]).value == outputs[i];
      }
      Merge(items[..merged], outputs);
    }

    /** Merges the marks that the trackers of items put out. */
    method Merge(ghost items: seq<Item>, outputs: seq<Marks>)
      requires g.Valid() && NoneEmpty(marks) && |outputs| == |items|
      requires forall i | 0 <= i < |items| :: OwnMarks(g, items[i], outputs[i])
      modifies this`marks
      ensures NoneEmpty(marks) && Tracks(g, old(marks), (set x | x in items), marks)
    {
      ghost var done: set<Item> := {};
      for i := 0 to |outputs|
        invariant NoneEmpty(marks) && Tracks(g, old(marks), done, marks) && done == set x | x in items[..i]
      {
        ghost var mid := marks;
        assert OwnMarks(g, items[i], outputs[i]);
        Extend(outputs[i]);
        TracksMore(g, old(marks), done, mid, items[i], marks);
        done := done + {items[i]};
      }
    }

    /** Merges the marks of another tracker. */
    method Extend(other: Marks)
      requires NoneEmpty(marks) && NoneEmpty(other)
      modifies this`marks
      ensures NoneEmpty(marks) && forall v, m :: Has(marks, v, m) <==> Has(old(marks), v, m) || Has(other, v, m)
    {
      var rest := other.Keys;
      while rest != {}
        invariant rest <= other.Keys && NoneEmpty(marks)
        invariant forall v, m :: Has(marks, v, m) <==> Has(old(marks), v, m) || (v !in rest && Has(other, v, m))
        decreases rest
      {
        var v :| v in rest;
        marks := marks[v := (if v in marks then marks[v] else {}) + other[v]];
        rest := rest - {v};
      }
    }
  }
}
