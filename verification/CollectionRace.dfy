/**
 Garbage collections beside persists: every look at a file, write and removal is one step, and
 the steps of different processes interleave freely.
 */
module CollectionRace {
  import opened Actions
  import opened Collection
  import opened Eviction

  /**
   A collection under way. It reads manifests, decides which survive, removes the others, and then
   looks at blobs; a doomed blob was found old and not kept, and is yet to be removed.
   */
  datatype Collecting =
    | Reading(read: map<nat, set<nat>>)
    | Evicting(keep: set<nat>, evicted: set<nat>)
    | Sweeping(keep: set<nat>, now: nat, doomed: set<nat>)

  /** A persist under way: the blobs of its manifest, and those it found present or wrote so far. */
  datatype Persisting = Persisting(blobs: set<nat>, seen: set<nat>)

  /** Manifests by id with the hashes of their blobs; blobs by hash with the time they were written. */
  datatype State = State(
    time: nat, manifests: map<nat, set<nat>>, blobs: map<nat, nat>,
    persists: map<nat, Persisting>, collections: map<nat, Collecting>)

  datatype Step =
    | Wait(seconds: nat)
    | BeginPersist(id: nat, hs: set<nat>)
    | FindBlob(id: nat, h: nat)
    | WriteBlob(id: nat, h: nat)
    | StoreManifest(id: nat)
    | BeginCollection(c: nat)
    | ReadManifest(c: nat, id: nat)
    | Decide(c: nat, survivors: set<nat>)
    | Evict(c: nat, id: nat)
    | BeginSweep(c: nat)
    | Inspect(c: nat, h: nat)
    | Remove(c: nat, h: nat)
    | EndCollection(c: nat)

  const Empty := State(0, map[], map[], map[], map[])

  predicate Sweeps(s: State, c: nat) {
    c in s.collections && s.collections[c].Sweeping?
  }

  predicate Enabled(s: State, step: Step) {
    match step
    case Wait(_) => true
    case BeginPersist(id, _) => id !in s.persists && id !in s.manifests
    case FindBlob(id, h) => id in s.persists && h in s.persists[id].blobs && h in s.blobs
    case WriteBlob(id, h) => id in s.persists && h in s.persists[id].blobs
    case StoreManifest(id) => id in s.persists && s.persists[id].seen == s.persists[id].blobs
    case BeginCollection(c) => c !in s.collections
    case ReadManifest(c, id) => c in s.collections && s.collections[c].Reading? && id in s.manifests
    case Decide(c, survivors) => c in s.collections && s.collections[c].Reading? && survivors <= s.collections[c].read.Keys
    case Evict(c, id) => c in s.collections && s.collections[c].Evicting? && id in s.collections[c].evicted
    case BeginSweep(c) => c in s.collections && s.collections[c].Evicting? && s.collections[c].evicted == {}
    case Inspect(c, h) => Sweeps(s, c) && h in s.blobs
    case Remove(c, h) => Sweeps(s, c) && h in s.collections[c].doomed
    case EndCollection(c) => Sweeps(s, c) && s.collections[c].doomed == {}
  }

  ghost function Union(manifests: map<nat, set<nat>>, ids: set<nat>): set<nat> {
    set id, h | id in manifests && id in ids && h in manifests[id] :: h
  }

  function Seen(p: Persisting, h: nat): Persisting {
    p.(seen := p.seen + {h})
  }

  /** Looking at a blob dooms it unless it is kept or recent. */
  function Inspected(k: Collecting, h: nat, mtime: nat): Collecting
    requires k.Sweeping?
  {
    if Spared(h, mtime, k.keep, k.now) then k else k.(doomed := k.doomed + {h})
  }

  function WithCollecting(s: State, c: nat, k: Collecting): State {
    s.(collections := s.collections[c := k])
  }

  ghost function Apply(s: State, step: Step): State
    requires Enabled(s, step)
  {
    match step
    case Wait(seconds) => s.(time := s.time + seconds)
    case BeginPersist(id, hs) => s.(persists := s.persists[id := Persisting(hs, {})])
    case FindBlob(id, h) => s.(persists := s.persists[id := Seen(s.persists[id], h)])
    case WriteBlob(id, h) => s.(persists := s.persists[id := Seen(s.persists[id], h)], blobs := s.blobs[h := s.time])
    case StoreManifest(id) =>
      s.(manifests := s.manifests[id := s.persists[id].blobs], persists := s.persists - {id})
    case BeginCollection(c) => WithCollecting(s, c, Reading(map[]))
    case ReadManifest(c, id) => WithCollecting(s, c, Reading(s.collections[c].read[id := s.manifests[id]]))
    case Decide(c, survivors) =>
      WithCollecting(s, c, Evicting(Union(s.collections[c].read, survivors), s.collections[c].read.Keys - survivors))
    case Evict(c, id) =>
      WithCollecting(s.(manifests := s.manifests - {id}), c, s.collections[c].(evicted := s.collections[c].evicted - {id}))
    case BeginSweep(c) => WithCollecting(s, c, Sweeping(s.collections[c].keep, s.time, {}))
    case Inspect(c, h) => WithCollecting(s, c, Inspected(s.collections[c], h, s.blobs[h]))
    case Remove(c, h) =>
      WithCollecting(s.(blobs := s.blobs - {h}), c, s.collections[c].(doomed := s.collections[c].doomed - {h}))
    case EndCollection(c) => s.(collections := s.collections - {c})
  }

  /** A manifest refers to the blob, or a persist counts on it. */
  ghost predicate Claimed(s: State, h: nat) {
    || (exists id | id in s.manifests :: h in s.manifests[id])
    || (exists id | id in s.persists :: h in s.persists[id].seen)
  }

  ghost predicate Sound(s: State) {
    forall h | Claimed(s, h) :: h in s.blobs
  }

  /** No manifest refers to a blob that is not there. */
  ghost predicate Complete(s: State) {
    forall id | id in s.manifests :: s.manifests[id] <= s.blobs.Keys
  }

  lemma SoundIsComplete(s: State)
    requires Sound(s)
    ensures Complete(s)
  {
  }

  /** The blob is in the keep set or was written within the grace window. */
  predicate SparedIn(s: State, h: nat, keep: set<nat>, now: nat) {
    h in s.blobs ==> Spared(h, s.blobs[h], keep, now)
  }

  ghost predicate ClaimsSpared(s: State, keep: set<nat>, now: nat) {
    forall h | Claimed(s, h) :: SparedIn(s, h, keep, now)
  }

  /** No sweep is about to remove the blob. */
  ghost predicate NotDoomed(s: State, h: nat) {
    forall c | Sweeps(s, c) :: h !in s.collections[c].doomed
  }

  /**
   What persists beside collections must observe: the blobs counted on are kept or recent when a
   sweep begins and whenever one is found present during a sweep, and a blob that is found or
   written is not about to be removed.
   */
  ghost predicate Careful(s: State, step: Step) {
    match step
    case FindBlob(_, h) =>
      NotDoomed(s, h) && forall c | Sweeps(s, c) :: SparedIn(s, h, s.collections[c].keep, s.collections[c].now)
    case WriteBlob(_, h) => NotDoomed(s, h)
    case BeginSweep(c) => c in s.collections && s.collections[c].Evicting? ==> ClaimsSpared(s, s.collections[c].keep, s.time)
    case _ => true
  }

  /** A sweep leaves every claimed blob alone. */
  ghost predicate SweepsAround(s: State, k: Collecting)
    requires k.Sweeping?
  {
    k.now <= s.time && ClaimsSpared(s, k.keep, k.now) && forall h | Claimed(s, h) :: h !in k.doomed
  }

  /** What every careful step keeps: no claimed blob is missing, or in reach of a sweep. */
  ghost predicate Inv(s: State) {
    && Sound(s)
    && (forall id | id in s.persists :: s.persists[id].seen <= s.persists[id].blobs)
    && (forall c | Sweeps(s, c) :: SweepsAround(s, s.collections[c]))
  }

  lemma StepInv(s: State, step: Step)
    requires Inv(s) && Enabled(s, step) && Careful(s, step)
    ensures Inv(Apply(s, step))
  {
    var s' := Apply(s, step);
    forall h | Claimed(s', h) ensures h in s'.blobs && (Claimed(s, h) || ((step.FindBlob? || step.WriteBlob?) && h == step.h)) {
      ClaimsGrow(s, step, h);
    }
    forall c | Sweeps(s', c) ensures SweepsAround(s', s'.collections[c]) {
      SweepStays(s, step, c);
    }
  }

  /** Only a find or a write adds a claim. */
  lemma ClaimsGrow(s: State, step: Step, h: nat)
    requires Inv(s) && Enabled(s, step) && Claimed(Apply(s, step), h)
    ensures Claimed(s, h) || ((step.FindBlob? || step.WriteBlob?) && h == step.h)
    ensures h in Apply(s, step).blobs
  {
  }

  lemma SweepStays(s: State, step: Step, c: nat)
    requires Inv(s) && Enabled(s, step) && Careful(s, step) && Sweeps(Apply(s, step), c)
    ensures SweepsAround(Apply(s, step), Apply(s, step).collections[c])
  {
    var s' := Apply(s, step);
    forall h | Claimed(s', h)
      ensures SparedIn(s', h, s'.collections[c].keep, s'.collections[c].now) && h !in s'.collections[c].doomed
    {
      ClaimsGrow(s, step, h);
    }
  }

  // ---- Runs ----

  ghost function RunFrom(s: State, steps: seq<Step>): Option<State>
    decreases |steps|
  {
    if steps == [] then Some(s)
    else if Enabled(s, steps[0]) then RunFrom(Apply(s, steps[0]), steps[1..])
    else None
  }

  /** Every step is careful in the state it is taken in. */
  ghost predicate CarefulFrom(s: State, steps: seq<Step>)
    decreases |steps|
  {
    steps != [] && Enabled(s, steps[0]) ==> Careful(s, steps[0]) && CarefulFrom(Apply(s, steps[0]), steps[1..])
  }

  /** Careful steps, however they interleave, keep every manifest complete. */
  lemma {:induction false} CarefulRunsStayComplete(s: State, steps: seq<Step>)
    requires Inv(s) && RunFrom(s, steps).Some? && CarefulFrom(s, steps)
    ensures Inv(RunFrom(s, steps).value) && Complete(RunFrom(s, steps).value)
    decreases |steps|
  {
    if steps == [] {
      SoundIsComplete(s);
    } else {
      StepInv(s, steps[0]);
      CarefulRunsStayComplete(Apply(s, steps[0]), steps[1..]);
    }
  }

  /** In every careful run from an empty cache all manifests stay complete. */
  lemma CarefulFromEmpty(steps: seq<Step>)
    requires RunFrom(Empty, steps).Some? && CarefulFrom(Empty, steps)
    ensures Complete(RunFrom(Empty, steps).value)
  {
    assert Inv(Empty);
    CarefulRunsStayComplete(Empty, steps);
  }

  /** The careful steps lead from one state to the other. */
  ghost predicate Leads(s: State, steps: seq<Step>, s': State) {
    RunFrom(s, steps) == Some(s') && CarefulFrom(s, steps)
  }

  lemma LeadsCons(s: State, step: Step, steps: seq<Step>, s': State)
    requires Enabled(s, step) && Careful(s, step) && Leads(Apply(s, step), steps, s')
    ensures Leads(s, [step] + steps, s')
  {
    assert ([step] + steps)[1..] == steps;
  }

  lemma {:induction false} LeadsTrans(s: State, steps: seq<Step>, s1: State, more: seq<Step>, s2: State)
    requires Leads(s, steps, s1) && Leads(s1, more, s2)
    ensures Leads(s, steps + more, s2)
    decreases |steps|
  {
    if steps == [] {
      assert steps + more == more;
    } else {
      LeadsTrans(Apply(s, steps[0]), steps[1..], s1, more, s2);
      assert steps + more == [steps[0]] + (steps[1..] + more);
      LeadsCons(s, steps[0], steps[1..] + more, s2);
    }
  }

  // ---- Care is needed ----

  /** The sweeps that are about to remove a blob. */
  ghost function Dooming(s: State, h: nat): set<nat> {
    set c | c in s.collections && s.collections[c].Sweeping? && h in s.collections[c].doomed
  }

  /** Sweeps can remove what they are about to remove, and leave all else as it is. */
  lemma {:induction false} Drain(s: State, h: nat) returns (steps: seq<Step>, s': State)
    ensures Leads(s, steps, s') && NotDoomed(s', h)
    ensures s'.manifests == s.manifests && s'.persists == s.persists && s'.blobs.Keys <= s.blobs.Keys
    decreases |Dooming(s, h)|
  {
    if c :| c in Dooming(s, h) {
      var s1 := Apply(s, Remove(c, h));
      assert Dooming(s1, h) == Dooming(s, h) - {c};
      var rest;
      rest, s' := Drain(s1, h);
      steps := [Remove(c, h)] + rest;
      LeadsCons(s, Remove(c, h), rest, s');
    } else {
      steps, s' := [], s;
      forall c | Sweeps(s, c) ensures h !in s.collections[c].doomed {
        assert c !in Dooming(s, h);
      }
    }
  }

  /** A persist that counts on a missing blob can write the others and store its manifest all the same. */
  lemma {:induction false} FinishPersist(s: State, id: nat, h: nat) returns (steps: seq<Step>, s': State)
    requires id in s.persists && h in s.persists[id].seen && s.persists[id].seen <= s.persists[id].blobs && h !in s.blobs
    ensures Leads(s, steps, s') && !Complete(s')
    decreases s.persists[id].blobs - s.persists[id].seen
  {
    var p := s.persists[id];
    if p.seen == p.blobs {
      s' := Apply(s, StoreManifest(id));
      steps := [StoreManifest(id)] + [];
      LeadsCons(s, StoreManifest(id), [], s');
      assert h in s'.manifests[id] && h !in s'.blobs;
    } else {
      var g :| g in p.blobs && g !in p.seen;
      var drained, s1 := Drain(s, g);
      var s2 := Apply(s1, WriteBlob(id, g));
      var rest;
      rest, s' := FinishPersist(s2, id, h);
      LeadsCons(s1, WriteBlob(id, g), rest, s');
      LeadsTrans(s, drained, s1, [WriteBlob(id, g)] + rest, s');
      steps := drained + ([WriteBlob(id, g)] + rest);
    }
  }

  /** Once a claimed blob is gone, some manifest can come to miss it. */
  lemma GoneIsMissed(s: State, h: nat) returns (steps: seq<Step>, s': State)
    requires Claimed(s, h) && h !in s.blobs && forall id | id in s.persists :: s.persists[id].seen <= s.persists[id].blobs
    ensures Leads(s, steps, s') && !Complete(s')
  {
    if id :| id in s.manifests && h in s.manifests[id] {
      steps, s' := [], s;
    } else {
      var id :| id in s.persists && h in s.persists[id].seen;
      steps, s' := FinishPersist(s, id, h);
    }
  }

  /** A doomed blob that is claimed can be removed. */
  lemma DoomedIsMissed(s: State, c: nat, h: nat) returns (steps: seq<Step>, s': State)
    requires Claimed(s, h) && Sweeps(s, c) && h in s.collections[c].doomed
    requires forall id | id in s.persists :: s.persists[id].seen <= s.persists[id].blobs
    ensures Leads(s, steps, s') && !Complete(s')
  {
    var s1 := Apply(s, Remove(c, h));
    assert Claimed(s1, h);
    var rest;
    rest, s' := GoneIsMissed(s1, h);
    steps := [Remove(c, h)] + rest;
    LeadsCons(s, Remove(c, h), rest, s');
  }

  /** A claimed blob that is neither kept nor recent can be removed. */
  lemma UnsparedIsMissed(s: State, c: nat, h: nat) returns (steps: seq<Step>, s': State)
    requires Claimed(s, h) && Sweeps(s, c) && !SparedIn(s, h, s.collections[c].keep, s.collections[c].now)
    requires forall id | id in s.persists :: s.persists[id].seen <= s.persists[id].blobs
    ensures Leads(s, steps, s') && !Complete(s')
  {
    var s1 := Apply(s, Inspect(c, h));
    assert Claimed(s1, h);
    var rest;
    rest, s' := DoomedIsMissed(s1, c, h);
    steps := [Inspect(c, h)] + rest;
    LeadsCons(s, Inspect(c, h), rest, s');
  }

  /** After a careless step, careful ones can lead to a manifest that misses a blob. */
  lemma CarelessIsMissed(s: State, step: Step) returns (steps: seq<Step>, s': State)
    requires Inv(s) && Enabled(s, step) && !Careful(s, step)
    ensures Leads(Apply(s, step), steps, s') && !Complete(s')
  {
    var s1 := Apply(s, step);
    if step.BeginSweep? {
      var h :| Claimed(s, h) && !SparedIn(s, h, s.collections[step.c].keep, s.time);
      assert Claimed(s1, h);
      steps, s' := UnsparedIsMissed(s1, step.c, h);
    } else {
      assert step.h in s1.persists[step.id].seen;
      if c :| Sweeps(s, c) && step.h in s.collections[c].doomed {
        steps, s' := DoomedIsMissed(s1, c, step.h);
      } else {
        var c :| Sweeps(s, c) && !SparedIn(s, step.h, s.collections[c].keep, s.collections[c].now);
        steps, s' := UnsparedIsMissed(s1, c, step.h);
      }
    }
  }

  /** If the steps can be taken and are careful, they end with every manifest complete. */
  ghost predicate StaysComplete(s: State, steps: seq<Step>) {
    RunFrom(s, steps).Some? && CarefulFrom(s, steps) ==> Complete(RunFrom(s, steps).value)
  }

  /**
   Care is exactly what is needed: after a step of a careful run, every careful continuation keeps
   all manifests complete if and only if the step was careful.
   */
  lemma CareIsNeeded(s: State, step: Step)
    requires Inv(s) && Enabled(s, step)
    ensures Careful(s, step) <==> forall steps :: StaysComplete(Apply(s, step), steps)
  {
    if Careful(s, step) {
      StepInv(s, step);
      forall steps ensures StaysComplete(Apply(s, step), steps) {
        if RunFrom(Apply(s, step), steps).Some? && CarefulFrom(Apply(s, step), steps) {
          CarefulRunsStayComplete(Apply(s, step), steps);
        }
      }
    } else {
      var steps, s' := CarelessIsMissed(s, step);
      assert !StaysComplete(Apply(s, step), steps);
    }
  }

  /**
   A blob that is already present keeps the time it was written. A persist that finds it while a
   collection is under way can store its manifest after the blob was swept.
   */
  lemma OldBlobIsLost()
    ensures var steps := StaleManifest() + [BeginPersist(7, {1}), FindBlob(7, 1), BeginSweep(0)]
        + [Inspect(0, 1), Remove(0, 1), StoreManifest(7)];
      RunFrom(Empty, steps).Some? && !Complete(RunFrom(Empty, steps).value)
  {
    StaleManifestEvicted();
    FindLast(StaleManifest());
    SweepLast(StaleManifest() + [BeginPersist(7, {1}), FindBlob(7, 1), BeginSweep(0)]);
  }

  lemma FindLast(steps: seq<Step>)
    requires RunFrom(Empty, steps) == Some(State(4000, map[], map[1 := 0], map[], map[0 := Evicting({}, {})]))
    ensures RunFrom(Empty, steps + [BeginPersist(7, {1}), FindBlob(7, 1), BeginSweep(0)]) ==
      Some(State(4000, map[], map[1 := 0], map[7 := Persisting({1}, {1})], map[0 := Sweeping({}, 4000, {})]))
  {
    var a := steps + [BeginPersist(7, {1})];
    var b := a + [FindBlob(7, 1)];
    RunSnoc(Empty, steps, BeginPersist(7, {1}));
    RunSnoc(Empty, a, FindBlob(7, 1));
    RunSnoc(Empty, b, BeginSweep(0));
    var s := RunFrom(Empty, b + [BeginSweep(0)]).value;
    assert s.persists[7] == Persisting({1}, {1}) && s.persists.Keys == {7};
    assert s.persists == map[7 := Persisting({1}, {1})];
    assert s.collections == map[0 := Sweeping({}, 4000, {})];
    assert b + [BeginSweep(0)] == steps + [BeginPersist(7, {1}), FindBlob(7, 1), BeginSweep(0)];
  }

  lemma SweepLast(steps: seq<Step>)
    requires RunFrom(Empty, steps) ==
      Some(State(4000, map[], map[1 := 0], map[7 := Persisting({1}, {1})], map[0 := Sweeping({}, 4000, {})]))
    ensures var more := steps + [Inspect(0, 1), Remove(0, 1), StoreManifest(7)];
      RunFrom(Empty, more).Some? && !Complete(RunFrom(Empty, more).value)
  {
    var a := steps + [Inspect(0, 1)];
    var b := a + [Remove(0, 1)];
    RunSnoc(Empty, steps, Inspect(0, 1));
    RunSnoc(Empty, a, Remove(0, 1));
    RunSnoc(Empty, b, StoreManifest(7));
    var s := RunFrom(Empty, b + [StoreManifest(7)]).value;
    assert s.manifests[7] == {1} && 1 !in s.blobs;
    assert b + [StoreManifest(7)] == steps + [Inspect(0, 1), Remove(0, 1), StoreManifest(7)];
  }

  /** A manifest that is stored with its blob and evicted long after. */
  function StaleManifest(): seq<Step> {
    [BeginPersist(3, {1}), WriteBlob(3, 1), StoreManifest(3), Wait(4000)] +
    [BeginCollection(0), ReadManifest(0, 3), Decide(0, {}), Evict(0, 3)]
  }

  lemma StaleManifestEvicted()
    ensures RunFrom(Empty, StaleManifest()) ==
      Some(State(4000, map[], map[1 := 0], map[], map[0 := Evicting({}, {})]))
  {
    var a, b := [BeginPersist(3, {1})], [BeginPersist(3, {1}), WriteBlob(3, 1)];
    var c := b + [StoreManifest(3)];
    var d := c + [Wait(4000)];
    RunSnoc(Empty, [], BeginPersist(3, {1}));
    assert [] + [BeginPersist(3, {1})] == a && a + [WriteBlob(3, 1)] == b;
    RunSnoc(Empty, a, WriteBlob(3, 1));
    RunSnoc(Empty, b, StoreManifest(3));
    RunSnoc(Empty, c, Wait(4000));
    assert RunFrom(Empty, d) == Some(State(4000, map[3 := {1}], map[1 := 0], map[], map[]));
    EvictLast(d);
    assert d + [BeginCollection(0), ReadManifest(0, 3), Decide(0, {}), Evict(0, 3)] == StaleManifest();
  }

  lemma EvictLast(steps: seq<Step>)
    requires RunFrom(Empty, steps) == Some(State(4000, map[3 := {1}], map[1 := 0], map[], map[]))
    ensures RunFrom(Empty, steps + [BeginCollection(0), ReadManifest(0, 3), Decide(0, {}), Evict(0, 3)]) ==
      Some(State(4000, map[], map[1 := 0], map[], map[0 := Evicting({}, {})]))
  {
    var a := steps + [BeginCollection(0)];
    var b := a + [ReadManifest(0, 3)];
    var c := b + [Decide(0, {})];
    RunSnoc(Empty, steps, BeginCollection(0));
    RunSnoc(Empty, a, ReadManifest(0, 3));
    assert RunFrom(Empty, b).value.collections[0].read == map[3 := {1}];
    RunSnoc(Empty, b, Decide(0, {}));
    assert Union(map[3 := {1}], {}) == {} && map[3 := {1}].Keys - {} == {3};
    RunSnoc(Empty, c, Evict(0, 3));
    var s := RunFrom(Empty, c + [Evict(0, 3)]).value;
    assert s.manifests == map[] && s.collections[0] == Evicting({}, {});
    assert s.collections == map[0 := Evicting({}, {})];
    assert c + [Evict(0, 3)] == steps + [BeginCollection(0), ReadManifest(0, 3), Decide(0, {}), Evict(0, 3)];
  }

  lemma {:induction false} RunSnoc(s: State, steps: seq<Step>, step: Step)
    requires RunFrom(s, steps).Some? && Enabled(RunFrom(s, steps).value, step)
    ensures RunFrom(s, steps + [step]) == Some(Apply(RunFrom(s, steps).value, step))
    decreases |steps|
  {
    if steps == [] {
      assert steps + [step] == [step];
    } else {
      RunSnoc(Apply(s, steps[0]), steps[1..], step);
      assert (steps + [step])[1..] == steps[1..] + [step];
    }
  }
}
