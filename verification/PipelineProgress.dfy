/**
 Every run of the pipeline ends, no state before the end is stuck, and a run without abort
 and cancel has then run every action exactly once.
 */
module PipelineProgress {
  import opened Actions
  import opened ActionGraphs
  import opened Digraph
  import opened Dispatch
  import opened Pipeline
  import opened PipelineSafety

  ghost function Total(weights: map<NodeIndex, nat>): nat {
    if weights == map[] then 0
    else
      var x :| x in weights;
      weights[x] + Total(weights - {x})
  }

  lemma {:induction false} TotalRemove(weights: map<NodeIndex, nat>, x: NodeIndex)
    requires x in weights
    ensures Total(weights) == weights[x] + Total(weights - {x})
    decreases |weights|
  {
    var y :| y in weights && Total(weights) == weights[y] + Total(weights - {y});
    if y != x {
      TotalRemove(weights - {y}, x);
      TotalRemove(weights - {x}, y);
      assert weights - {y} - {x} == weights - {x} - {y};
    }
  }

  lemma TotalUpdate(weights: map<NodeIndex, nat>, x: NodeIndex, w: nat)
    requires x in weights
    ensures Total(weights[x := w]) + weights[x] == Total(weights) + w
  {
    TotalRemove(weights, x);
    TotalRemove(weights[x := w], x);
    assert weights[x := w] - {x} == weights - {x};
  }

  /** Steps a job has left. */
  function Rank(phase: Phase): nat {
    match phase
    case Waiting => 11
    case Admitted => 10
    case Cleared => 9
    case Running => 8
    case Ran(_) => 7
    case Rechecked(_) => 6
    case Sending(_) => 5
    case Unlisting(_) => 4
    case Completing(_) => 3
    case Reporting(_) => 2
    case Releasing(_) => 1
    case Done => 0
    case Killed => 0
  }

  function Size(c: Config): nat {
    |c.graph.Indices()|
  }

  /** What a node still costs: its dispatch, its job, and the join of its handle. */
  function Weight(c: Config, s: State, x: NodeIndex): nat {
    if x !in s.visited then 2 * Size(c) + 25
    else if x !in s.jobs then Size(c) + 18
    else Rank(s.jobs[x]) + if x in s.handles then Size(c) + 6 else 0
  }

  function Weights(c: Config, s: State): map<NodeIndex, nat> {
    map x | x in c.graph.Indices() :: Weight(c, s, x)
  }

  /** What is left of the current round of the dispatch loop. */
  function ControlRank(c: Config, control: Control): int {
    match control
    case LoopTop => Size(c) + 5
    case Snapshotting => Size(c) + 4
    case Searching(_, deferred) => Size(c) + 3 - |deferred|
    case Claiming(_) => 2
    case Dispatching(_) => Size(c) + 7
    case MarkingPersistent(_) => Size(c) + 6
    case AwaitingHandle => 2
    case Draining(last) => if last then Size(c) + 4 else Size(c) + 6
    case Launching(_) => 1
    case Stopped => 0
  }

  ghost function Measure(c: Config, s: State): int {
    Total(Weights(c, s)) + ControlRank(c, s.control) + if s.cancel then 0 else 1
  }

  lemma WeightChange(c: Config, s: State, s': State, x: NodeIndex)
    requires x in c.graph.Indices()
    requires forall y | y in c.graph.Indices() && y != x :: Weight(c, s', y) == Weight(c, s, y)
    ensures Total(Weights(c, s')) + Weight(c, s, x) == Total(Weights(c, s)) + Weight(c, s', x)
  {
    assert Weights(c, s') == Weights(c, s)[x := Weight(c, s', x)];
    TotalUpdate(Weights(c, s), x, Weight(c, s', x));
  }

  lemma JobRankDrops(c: Config, s: State, step: Step)
    requires JobEnabled(c, s, step) && !step.Signal?
    ensures Rank(JobApply(c, s, step).jobs[step.x]) < Rank(s.jobs[step.x])
  {
  }

  /** A step that changes the cost of one node and the round of the dispatcher. */
  lemma CostChange(c: Config, s: State, s': State, x: NodeIndex)
    requires x in c.graph.Indices() && s'.cancel == s.cancel
    requires forall y | y in c.graph.Indices() && y != x :: Weight(c, s', y) == Weight(c, s, y)
    requires Weight(c, s', x) + ControlRank(c, s'.control) < Weight(c, s, x) + ControlRank(c, s.control)
    ensures Measure(c, s') < Measure(c, s)
  {
    WeightChange(c, s, s', x);
  }

  lemma JobDecreases(c: Config, s: State, step: Step)
    requires c.Valid() && s.jobs.Keys <= s.visited <= c.graph.Indices() && JobEnabled(c, s, step)
    ensures Measure(c, JobApply(c, s, step)) < Measure(c, s)
  {
    if step.Signal? {
      assert Weights(c, JobApply(c, s, step)) == Weights(c, s);
    } else {
      JobRankDrops(c, s, step);
      JobStepFrame(c, s, step);
      FrameDecreases(c, s, JobApply(c, s, step), step.x);
    }
  }

  lemma FrameDecreases(c: Config, s: State, s': State, x: NodeIndex)
    requires s.jobs.Keys <= s.visited <= c.graph.Indices() && JobFrame(c, s, s', x)
    requires Rank(s'.jobs[x]) < Rank(s.jobs[x])
    ensures Measure(c, s') < Measure(c, s)
  {
    CostChange(c, s, s', x);
  }

  lemma SearchRankDrops(c: Config, s: State, step: Step)
    requires c.Valid() && ControlOk(c, s) && DispatcherEnabled(c, s, step) && (step.Defer? || step.Pick? || step.GiveUp?)
    ensures ControlRank(c, DispatcherApply(c, s, step).control) < ControlRank(c, s.control)
  {
    SubsetSmaller(s.control.deferred, c.graph.Indices());
  }

  lemma MoveRankDrops(c: Config, s: State, step: Step)
    requires c.Valid() && ControlOk(c, s) && DispatcherEnabled(c, s, step) && MovesOnly(step)
    ensures ControlRank(c, DispatcherApply(c, s, step).control) < ControlRank(c, s.control)
  {
    if step.Defer? || step.Pick? || step.GiveUp? {
      SearchRankDrops(c, s, step);
    } else if step.Halt? && s.control.Searching? {
      SubsetSmaller(s.control.deferred, c.graph.Indices());
    }
  }

  lemma ControlDecreases(c: Config, s: State, control: Control)
    requires ControlRank(c, control) < ControlRank(c, s.control)
    ensures Measure(c, s.(control := control)) < Measure(c, s)
  {
    assert Weights(c, s.(control := control)) == Weights(c, s);
  }

  lemma MoveDecreases(c: Config, s: State, step: Step)
    requires c.Valid() && ControlOk(c, s) && DispatcherEnabled(c, s, step) && MovesOnly(step)
    ensures Measure(c, DispatcherApply(c, s, step)) < Measure(c, s)
  {
    MoveFrame(c, s, step);
    MoveRankDrops(c, s, step);
    ControlDecreases(c, s, DispatcherApply(c, s, step).control);
  }

  lemma ClaimDecreases(c: Config, s: State)
    requires c.Valid() && s.jobs.Keys <= s.visited && s.control.Claiming? && ControlOk(c, s)
    ensures Measure(c, DispatcherApply(c, s, Claim)) < Measure(c, s)
  {
    CostChange(c, s, DispatcherApply(c, s, Claim), s.control.index);
  }

  lemma SpawnDecreases(c: Config, s: State)
    requires c.Valid() && s.visited <= c.graph.Indices() && s.control.Dispatching? && ControlOk(c, s)
    ensures Measure(c, DispatcherApply(c, s, Spawn)) < Measure(c, s)
  {
    CostChange(c, s, DispatcherApply(c, s, Spawn), s.control.index);
  }

  lemma JoinDecreases(c: Config, s: State, x: NodeIndex)
    requires c.Valid() && s.jobs.Keys <= s.visited <= c.graph.Indices() && DispatcherEnabled(c, s, Join(x))
    ensures Measure(c, DispatcherApply(c, s, Join(x))) < Measure(c, s)
  {
    CostChange(c, s, DispatcherApply(c, s, Join(x)), x);
  }

  lemma LaunchDecreases(c: Config, s: State, x: NodeIndex)
    requires c.Valid() && s.visited <= c.graph.Indices() && LaunchOk(c, s) && DispatcherEnabled(c, s, Launch(x))
    ensures Measure(c, DispatcherApply(c, s, Launch(x))) < Measure(c, s)
  {
    CostChange(c, s, DispatcherApply(c, s, Launch(x)), x);
  }

  lemma ChangeDecreases(c: Config, s: State, step: Step)
    requires c.Valid() && s.jobs.Keys <= s.visited <= c.graph.Indices() && ControlOk(c, s) && LaunchOk(c, s)
    requires DispatcherEnabled(c, s, step) && !MovesOnly(step)
    ensures Measure(c, DispatcherApply(c, s, step)) < Measure(c, s)
  {
    match step
    case Claim => ClaimDecreases(c, s);
    case Spawn => SpawnDecreases(c, s);
    case MarkPersistent => assert Weights(c, DispatcherApply(c, s, step)) == Weights(c, s);
    case Join(x) => JoinDecreases(c, s, x);
    case Launch(x) => LaunchDecreases(c, s, x);
  }

  lemma StepDecreases(c: Config, s: State, step: Step)
    requires c.Valid() && Inv(c, s) && Enabled(c, s, step)
    ensures Measure(c, Apply(c, s, step)) < Measure(c, s)
  {
    if !DispatcherEnabled(c, s, step) {
      JobDecreases(c, s, step);
    } else if MovesOnly(step) {
      MoveDecreases(c, s, step);
    } else {
      ChangeDecreases(c, s, step);
    }
  }

  lemma MeasureNotNegative(c: Config, s: State)
    requires ControlOk(c, s)
    ensures Measure(c, s) >= 0
  {
    if s.control.Searching? {
      SubsetSmaller(s.control.deferred, c.graph.Indices());
    }
  }

  /** Termination: no run is longer than a bound that depends on the graph alone. */
  lemma {:induction false} RunsAreFinite(c: Config, steps: seq<Step>)
    requires c.Valid() && Replay(c, steps).Some?
    ensures |steps| + Measure(c, Replay(c, steps).value) <= Measure(c, Start)
    ensures |steps| <= Measure(c, Start)
  {
    RunInv(c, steps);
    MeasureNotNegative(c, Replay(c, steps).value);
    if steps != [] {
      var before := steps[..|steps| - 1];
      RunsAreFinite(c, before);
      RunInv(c, before);
      StepDecreases(c, Replay(c, before).value, steps[|steps| - 1]);
    }
  }

  /** The dispatcher has returned and every job has ended. */
  ghost predicate Ended(s: State) {
    s.control.Stopped? && forall x | x in s.jobs :: s.jobs[x].Done? || s.jobs[x].Killed?
  }

  function JobStep(x: NodeIndex, phase: Phase): Step
    requires HoldsPermit(phase)
  {
    match phase
    case Admitted => CheckAbort(x)
    case Cleared => CheckCancel(x)
    case Running => FinishBody(x, Unstarted(Passed))
    case Ran(_) => RecheckAbort(x)
    case Rechecked(_) => RecheckCancel(x)
    case Sending(_) => SendAbort(x)
    case Unlisting(_) => Unlist(x)
    case Completing(_) => Complete(x)
    case Reporting(_) => Report(x)
    case Releasing(_) => Release(x)
  }

  lemma JobCanStep(c: Config, s: State, x: NodeIndex) returns (step: Step)
    requires c.Valid() && x in s.jobs && !s.jobs[x].Done? && !s.jobs[x].Killed?
    ensures JobEnabled(c, s, step) && !step.Signal?
  {
    if !s.jobs[x].Waiting? {
      step := JobStep(x, s.jobs[x]);
    } else if |Holders(c, s)| < c.concurrency {
      step := Admit(x);
    } else {
      var y :| y in Holders(c, s);
      step := JobStep(y, s.jobs[y]);
    }
  }

  lemma DispatcherCanStep(c: Config, s: State) returns (step: Step)
    requires c.Valid() && ControlOk(c, s) && s.handles <= s.jobs.Keys && !s.control.Stopped?
    requires forall x | x in s.jobs :: s.jobs[x].Done?
    ensures DispatcherEnabled(c, s, step)
  {
    match s.control
    case LoopTop => step := CheckQueue;
    case Snapshotting => step := Snapshot;
    case Searching(snapshot, deferred) =>
      if x :| x in c.graph.out && Available(c.graph, s.visited, snapshot, x) && x !in deferred {
        step := if Dispatchable(c.graph, s.visited, snapshot, s.running, x) then Pick(x) else Defer(x);
      } else {
        step := GiveUp;
      }
    case Claiming(_) => step := Claim;
    case Dispatching(_) => step := Spawn;
    case MarkingPersistent(_) => step := MarkPersistent;
    case AwaitingHandle =>
      var x :| x in s.handles;
      step := Join(x);
    case Draining(_) =>
      if x :| x in s.handles {
        step := Join(x);
      } else {
        step := Drained;
      }
    case Launching(rest) =>
      if x :| x in rest {
        step := Launch(x);
      } else {
        step := Launched;
      }
  }

  /** Deadlock freedom: until the pipeline has ended, some step other than a signal can be taken. */
  lemma CanStep(c: Config, steps: seq<Step>) returns (step: Step)
    requires c.Valid() && Replay(c, steps).Some? && !Ended(Replay(c, steps).value)
    ensures Enabled(c, Replay(c, steps).value, step) && !step.Signal?
  {
    RunInv(c, steps);
    var s := Replay(c, steps).value;
    if x :| x in s.jobs && !s.jobs[x].Done? && !s.jobs[x].Killed? {
      step := JobCanStep(c, s, x);
    } else {
      step := DispatcherCanStep(c, s);
    }
  }

  /** As long as neither token is set, jobs past their checks have run their body and stopping means all was dispatched. */
  ghost predicate CalmOk(c: Config, s: State) {
    !s.abort && !s.cancel ==>
      && (forall x | x in s.jobs && !s.jobs[x].Waiting? && !s.jobs[x].Admitted? && !s.jobs[x].Cleared? :: x in s.started && !s.jobs[x].Killed?)
      && (s.control.Stopped? ==> s.visited == c.graph.Indices() && s.jobs.Keys == c.graph.Indices())
  }

  lemma DispatcherCalm(c: Config, s: State, step: Step)
    requires c.Valid() && SetsOk(c, s) && ControlOk(c, s) && LaunchOk(c, s) && CalmOk(c, s) && DispatcherEnabled(c, s, step)
    ensures CalmOk(c, DispatcherApply(c, s, step))
  {
    DispatcherAddsJobs(c, s, step);
    if !s.abort && !s.cancel && !s.control.Stopped? {
      DispatcherStops(c, s, step);
    }
  }

  /** Unless a token is set, the dispatcher stops only after it has dispatched everything. */
  lemma DispatcherStops(c: Config, s: State, step: Step)
    requires c.Valid() && SetsOk(c, s) && LaunchOk(c, s) && DispatcherEnabled(c, s, step)
    requires !s.abort && !s.cancel && !s.control.Stopped?
    ensures var s' := DispatcherApply(c, s, step); s'.control.Stopped? ==> s'.visited == c.graph.Indices() && s'.jobs.Keys == c.graph.Indices()
  {
    if step.Launched? {
      forall x | x in c.graph.Indices() ensures x in s.jobs {
        assert !c.Persistent(x) ==> Joined(c, s, x);
      }
    }
  }

  lemma JobCalm(c: Config, s: State, step: Step)
    requires CalmOk(c, s) && JobEnabled(c, s, step)
    ensures CalmOk(c, JobApply(c, s, step))
  {
  }

  lemma {:induction false} RunCalm(c: Config, steps: seq<Step>)
    requires c.Valid() && Replay(c, steps).Some?
    ensures CalmOk(c, Replay(c, steps).value)
  {
    if steps != [] {
      var before := steps[..|steps| - 1];
      var step := steps[|steps| - 1];
      RunCalm(c, before);
      RunInv(c, before);
      var s := Replay(c, before).value;
      if DispatcherEnabled(c, s, step) {
        DispatcherCalm(c, s, step);
      } else {
        JobCalm(c, s, step);
      }
    }
  }

  lemma EndedCalm(c: Config, s: State)
    requires Ended(s) && CalmOk(c, s) && SetsOk(c, s) && JobsOk(c, s) && ResultsOk(c, s) && !s.abort && !s.cancel
    ensures s.visited == s.completed == c.graph.Indices() && c.graph.Indices() <= s.started
    ensures forall x :: x in s.results <==> x in c.graph.Indices()
  {
  }

  lemma CountNodes(c: Config, s: State)
    requires ResultsOk(c, s) && OrderOk(c, s)
    requires s.visited == c.graph.Indices() && forall x :: x in s.results <==> x in c.graph.Indices()
    ensures |s.order| == |s.results| == |c.graph.Indices()|
  {
    DistinctCount(s.results, c.graph.Indices());
    DistinctCount(s.order, c.graph.Indices());
  }

  /**
   A run that can only wait for a signal, with neither token set, has dispatched and completed
   every node, run every body, and sent exactly one result for each.
   */
  lemma MaximalRunCompletes(c: Config, steps: seq<Step>)
    requires c.Valid() && Replay(c, steps).Some?
    requires forall step | Enabled(c, Replay(c, steps).value, step) :: step.Signal?
    requires !Replay(c, steps).value.abort && !Replay(c, steps).value.cancel
    ensures var s := Replay(c, steps).value;
      && s.visited == s.completed == c.graph.Indices() && c.graph.Indices() <= s.started
      && (forall x :: x in s.results <==> x in c.graph.Indices())
      && |s.order| == |s.results| == |c.graph.Indices()|
  {
    var s := Replay(c, steps).value;
    if !Ended(s) {
      var step := CanStep(c, steps);
    }
    RunInv(c, steps);
    RunCalm(c, steps);
    EndedCalm(c, s);
    CountNodes(c, s);
  }
}
