/**
 What holds in every state of every run of the pipeline, whatever the interleaving.
 */
module PipelineSafety {
  import opened Actions
  import opened ActionGraphs
  import opened Digraph
  import opened Dispatch
  import opened Pipeline

  /** Still listed among the running jobs. */
  predicate Listed(phase: Phase) {
    phase.Waiting? || phase.Admitted? || phase.Cleared? || phase.Running? || phase.Ran? || phase.Rechecked? ||
    phase.Sending? || phase.Unlisting?
  }

  predicate Reported(phase: Phase) {
    phase.Releasing? || phase.Done?
  }

  /** The sets the dispatcher works with, across the two separate updates of `mark_completed`. */
  ghost predicate SetsOk(c: Config, s: State) {
    && Settled(c.graph, s.visited, s.completed)
    && s.handles <= s.jobs.Keys <= s.visited
    && s.running.Keys <= s.visited - s.completed
    && (forall x | x in s.running :: c.Guarded(x) && s.running[x] == c.graph.nodes[x].GetId())
    && (forall x, y | x in s.running && y in s.running && s.running[x] == s.running[y] :: x == y)
  }

  ghost predicate JobOk(c: Config, s: State, x: NodeIndex)
    requires x in s.jobs
  {
    var phase := s.jobs[x];
    && (c.Persistent(x) ==> x in s.completed)
    && (c.Guarded(x) && Listed(phase) ==> x in s.running)
    && (!c.Persistent(x) && (Listed(phase) || phase.Completing?) ==> x !in s.completed)
    && (phase.Reporting? || Reported(phase) ==> x in s.completed)
    && (phase.Completing? ==> x !in s.running)
    && ((phase.Unlisting? || phase.Completing?) ==> x in s.outcomes)
    && (Listed(phase) && !phase.Unlisting? ==> x !in s.outcomes)
    && (x !in s.handles ==> phase.Done?)
  }

  ghost predicate JobsOk(c: Config, s: State) {
    && s.outcomes.Keys <= s.jobs.Keys
    && (forall x | x in s.jobs :: JobOk(c, s, x))
    && (forall x | x in s.outcomes && c.ShouldAbort(s.outcomes[x]) :: s.abort)
    && (forall x | x in s.completed && !c.Persistent(x) :: x in s.outcomes)
  }

  /** Handed to a job and joined again. */
  ghost predicate Joined(c: Config, s: State, x: NodeIndex) {
    x in s.jobs && s.jobs[x].Done? && x !in s.handles
  }

  ghost predicate AllJoined(c: Config, s: State) {
    forall x | x in c.graph.Indices() && !c.Persistent(x) :: Joined(c, s, x)
  }

  /** A dispatched node has a job, or is being handed to one; persistent nodes count as completed at once. */
  ghost predicate PlacedOk(c: Config, s: State) {
    && (forall x | x in s.visited && !c.Persistent(x) && x !in s.jobs :: s.control == Dispatching(x) || s.control.Stopped?)
    && (forall x | x in s.visited && c.Persistent(x) && x !in s.completed ::
          s.control == Dispatching(x) || s.control == MarkingPersistent(x) || s.control.Stopped?)
    && (forall x | x in s.jobs && s.jobs[x].Killed? :: s.control.Stopped?)
  }

  /** Persistent jobs exist only after every other job was joined. */
  ghost predicate LaunchOk(c: Config, s: State) {
    && ((s.control.Launching? || exists x :: x in s.jobs && c.Persistent(x)) ==>
          s.visited == c.graph.Indices() && AllJoined(c, s))
    && (forall x | x in s.jobs && c.Persistent(x) :: s.control.Launching? || s.control.Stopped?)
    && (s.control.Launching? ==>
          forall x :: x in s.control.rest <==> x in s.visited && c.Persistent(x) && x !in s.jobs)
    && (s.control == Draining(true) ==> s.visited == c.graph.Indices())
  }

  /** What the dispatcher may rely on at its program points. */
  ghost predicate ControlOk(c: Config, s: State) {
    match s.control
    case Snapshotting => s.visited != c.graph.Indices()
    case Searching(snapshot, deferred) =>
      && s.visited != c.graph.Indices() && snapshot <= s.completed && deferred <= c.graph.Indices()
      && (s.handles == {} ==> snapshot == s.visited && deferred == {})
    case Claiming(x) =>
      && x in c.graph.Indices() && x !in s.visited && Ready(c.graph, s.completed, x)
      && (c.Guarded(x) ==> c.graph.nodes[x].GetId() !in s.running.Values)
    case Dispatching(x) => x in s.visited && x !in s.jobs && x !in s.completed && (c.Guarded(x) ==> x in s.running)
    case MarkingPersistent(x) => c.Persistent(x) && x in s.visited && x !in s.jobs
    case AwaitingHandle => s.handles != {}
    case _ => true
  }

  /** Every transitive requirement that is not persistent completed with a result that does not abort. */
  ghost predicate CleanBelow(c: Config, s: State, x: NodeIndex) {
    forall y | StrictlyReaches(c.graph.Edges(), x, y) && !c.Persistent(y) ::
      y in s.completed && y in s.outcomes && !c.ShouldAbort(s.outcomes[y])
  }

  ghost predicate StartsOk(c: Config, s: State) {
    && (forall x | x in s.started :: CleanBelow(c, s, x))
    && (forall x | x in s.jobs && s.jobs[x].Cleared? :: CleanBelow(c, s, x))
    && (forall x | x in s.jobs && s.jobs[x].Running? :: x in s.started)
  }

  ghost predicate PermitsOk(c: Config, s: State) {
    |Holders(c, s)| <= c.concurrency
  }

  ghost predicate ResultsOk(c: Config, s: State) {
    && (forall i, j | 0 <= i < j < |s.results| :: s.results[i] != s.results[j])
    && (forall x | x in s.results :: x in s.jobs && (Reported(s.jobs[x]) || s.jobs[x].Killed?))
    && (forall x | x in s.jobs && Reported(s.jobs[x]) :: x in s.results)
  }

  /** `order` lists each dispatched node once; whatever follows an interactive node found all earlier jobs joined. */
  ghost predicate OrderOk(c: Config, s: State) {
    && (forall x :: x in s.order <==> x in s.visited)
    && (forall i, j | 0 <= i < j < |s.order| :: s.order[i] != s.order[j])
    && (forall i, j | 0 <= i <= j < |s.order| - 1 && c.Interactive(s.order[j]) && !c.Persistent(s.order[i]) ::
          Joined(c, s, s.order[i]))
    && (s.control.Dispatching? ==> s.order != [] && s.order[|s.order| - 1] == s.control.index)
    && (s.order != [] && c.Interactive(s.order[|s.order| - 1]) ==>
          || s.control == Dispatching(s.order[|s.order| - 1]) || s.control.Draining? || s.control.Stopped?
          || (forall x | x in s.visited && !c.Persistent(x) :: Joined(c, s, x)))
  }

  ghost predicate Inv(c: Config, s: State) {
    && SetsOk(c, s) && JobsOk(c, s) && PlacedOk(c, s) && LaunchOk(c, s) && ControlOk(c, s) && StartsOk(c, s)
    && PermitsOk(c, s) && ResultsOk(c, s) && OrderOk(c, s)
  }

  lemma StartInv(c: Config)
    ensures Inv(c, Start)
  {
  }

  /** All that a dispatched node requires, however indirectly, has completed. */
  lemma VisitedBelowCompleted(graph: ActionGraph, visited: set<NodeIndex>, completed: set<NodeIndex>, x: NodeIndex, y: NodeIndex)
    requires graph.Valid() && Settled(graph, visited, completed) && x in visited && StrictlyReaches(graph.Edges(), x, y)
    ensures y in completed
  {
    var z :| (x, z) in graph.Edges() && Reaches(graph.Edges(), z, y);
    assert z in graph.out[x];
    ReachesStaysIn(graph.Edges(), z, y, iset n | n in completed);
  }

  /** What all steps of a job have in common. */
  ghost predicate JobFrame(c: Config, s: State, s': State, x: NodeIndex) {
    && x in s.jobs && x in s'.jobs && !s.jobs[x].Done? && s'.jobs == s.jobs[x := s'.jobs[x]]
    && s'.control == s.control && s'.visited == s.visited && s'.handles == s.handles && s'.order == s.order
    && s'.cancel == s.cancel && (s'.jobs[x].Killed? ==> s.control.Stopped?)
    && s'.completed == (if s.jobs[x].Completing? && s'.jobs[x].Reporting? then s.completed + {x} else s.completed)
    && s'.running == (if s.jobs[x].Unlisting? && s'.jobs[x].Completing? then s.running - {x} else s.running)
    && (s'.outcomes != s.outcomes ==>
          s.jobs[x].Sending? && s'.jobs[x].Unlisting? && s'.outcomes == s.outcomes[x := s.jobs[x].action])
    && s'.abort == (s.abort || (s.jobs[x].Sending? && s'.jobs[x].Unlisting? && c.ShouldAbort(s.jobs[x].action)))
  }

  lemma JobStepFrame(c: Config, s: State, step: Step)
    requires JobEnabled(c, s, step) && !step.Signal?
    ensures JobFrame(c, s, JobApply(c, s, step), step.x)
  {
  }

  lemma JobSetsOk(c: Config, s: State, s': State, x: NodeIndex)
    requires c.Valid() && SetsOk(c, s) && JobsOk(c, s) && JobFrame(c, s, s', x)
    ensures SetsOk(c, s')
  {
  }
  
  lemma JobPlacedOk(c: Config, s: State, s': State, x: NodeIndex)
    requires PlacedOk(c, s) && JobFrame(c, s, s', x)
    ensures PlacedOk(c, s')
  {
  }

  lemma JobLaunchOk(c: Config, s: State, s': State, x: NodeIndex)
    requires LaunchOk(c, s) && JobFrame(c, s, s', x)
    ensures LaunchOk(c, s')
  {
  }

  lemma JobControlOk(c: Config, s: State, s': State, x: NodeIndex)
    requires c.Valid() && SetsOk(c, s) && JobsOk(c, s) && ControlOk(c, s) && JobFrame(c, s, s', x)
    ensures ControlOk(c, s')
  {
  }

  lemma JobOrderOk(c: Config, s: State, s': State, x: NodeIndex)
    requires OrderOk(c, s) && JobFrame(c, s, s', x)
    ensures OrderOk(c, s')
  {
  }

  lemma OwnJobOk(c: Config, s: State, step: Step)
    requires JobEnabled(c, s, step) && !step.Signal? && JobOk(c, s, step.x)
    requires step.x in s.handles
    ensures JobOk(c, JobApply(c, s, step), step.x)
  {
  }

  lemma JobJobsOk(c: Config, s: State, step: Step)
    requires c.Valid() && JobsOk(c, s) && JobEnabled(c, s, step) && !step.Signal?
    ensures JobsOk(c, JobApply(c, s, step))
  {
    var s', x := JobApply(c, s, step), step.x;
    JobStepFrame(c, s, step);
    assert JobOk(c, s, x);
    OwnJobOk(c, s, step);
    JobsOkFrame(c, s, s', x);
  }

  lemma JobsOkFrame(c: Config, s: State, s': State, x: NodeIndex)
    requires JobsOk(c, s) && JobFrame(c, s, s', x) && JobOk(c, s, x) && JobOk(c, s', x)
    ensures JobsOk(c, s')
  {
  }

  lemma JobStartsOk(c: Config, s: State, step: Step)
    requires c.Valid() && SetsOk(c, s) && JobsOk(c, s) && StartsOk(c, s) && JobEnabled(c, s, step) && !step.Signal?
    ensures StartsOk(c, JobApply(c, s, step))
  {
    var s', x := JobApply(c, s, step), step.x;
    JobStepFrame(c, s, step);
    assert JobOk(c, s, x);
    if step.CheckAbort? && !s.abort {
      ClearedIsClean(c, s, x);
    }
    assert forall y | y in s'.started :: y in s.started || (y == x && s.jobs[x].Cleared?);
    assert s'.jobs[x].Cleared? ==> step.CheckAbort? && !s.abort;
    StartsOkFrame(c, s, s', x);
  }

  lemma StartsOkFrame(c: Config, s: State, s': State, x: NodeIndex)
    requires StartsOk(c, s) && JobFrame(c, s, s', x) && JobOk(c, s, x) && s.started <= s'.started
    requires forall y | y in s'.started :: y in s.started || (y == x && s.jobs[x].Cleared?)
    requires s'.jobs[x].Cleared? ==> CleanBelow(c, s, x)
    requires s'.jobs[x].Running? ==> x in s'.started
    ensures StartsOk(c, s')
  {
  }

  /** Reading an unset abort token after the dispatch proves that nothing below aborted. */
  lemma ClearedIsClean(c: Config, s: State, x: NodeIndex)
    requires c.Valid() && SetsOk(c, s) && JobsOk(c, s) && x in s.visited && !s.abort
    ensures CleanBelow(c, s, x)
  {
    forall y | StrictlyReaches(c.graph.Edges(), x, y) ensures y in s.completed {
      VisitedBelowCompleted(c.graph, s.visited, s.completed, x, y);
    }
  }

  lemma JobPermitsOk(c: Config, s: State, step: Step)
    requires PermitsOk(c, s) && JobEnabled(c, s, step)
    ensures PermitsOk(c, JobApply(c, s, step))
  {
    var after := JobApply(c, s, step);
    if step.Admit? {
      SubsetSmaller(Holders(c, after), Holders(c, s) + {step.x});
    } else {
      SubsetSmaller(Holders(c, after), Holders(c, s));
    }
  }

  lemma JobResultsOk(c: Config, s: State, step: Step)
    requires ResultsOk(c, s) && JobEnabled(c, s, step)
    ensures ResultsOk(c, JobApply(c, s, step))
  {
    if !step.Signal? {
      JobResultsFrame(c, s, step);
      ResultsKept(c, s, JobApply(c, s, step), step.x);
    }
  }

  /** A job reports at most once, as it moves on from `Reporting`. */
  ghost predicate ResultsFrame(s: State, s': State, x: NodeIndex) {
    && x in s.jobs && x in s'.jobs && s'.jobs == s.jobs[x := s'.jobs[x]]
    && s'.results == (if s.jobs[x].Reporting? && s'.jobs[x].Releasing? then s.results + [x] else s.results)
    && (s'.jobs[x].Killed? || (Reported(s'.jobs[x]) <==> Reported(s.jobs[x]) || s'.results != s.results))
    && !s.jobs[x].Killed?
  }

  lemma JobResultsFrame(c: Config, s: State, step: Step)
    requires JobEnabled(c, s, step) && !step.Signal?
    ensures ResultsFrame(s, JobApply(c, s, step), step.x)
  {
  }

  lemma ResultsKept(c: Config, s: State, s': State, x: NodeIndex)
    requires ResultsOk(c, s) && ResultsFrame(s, s', x)
    ensures ResultsOk(c, s')
  {
  }

  /** Steps that move the dispatcher and nothing else. */
  predicate MovesOnly(step: Step) {
    step.CheckQueue? || step.Snapshot? || step.Defer? || step.Pick? || step.GiveUp? || step.JoinNothing? ||
    step.Drained? || step.Launched? || step.Halt?
  }

  lemma MoveFrame(c: Config, s: State, step: Step)
    requires c.Valid() && DispatcherEnabled(c, s, step) && MovesOnly(step)
    ensures DispatcherApply(c, s, step) == s.(control := DispatcherApply(c, s, step).control)
  {
  }

  /** Without a handle to join, every dispatched node has completed and no job is listed as running. */
  lemma NothingInFlight(c: Config, s: State)
    requires SetsOk(c, s) && JobsOk(c, s) && PlacedOk(c, s) && s.handles == {}
    requires !s.control.Dispatching? && !s.control.MarkingPersistent? && !s.control.Stopped?
    ensures s.completed == s.visited && s.running == map[]
    ensures forall x | x in s.visited && !c.Persistent(x) :: Joined(c, s, x)
  {
  }

  lemma MoveControlOk(c: Config, s: State, step: Step)
    requires c.Valid() && SetsOk(c, s) && ControlOk(c, s) && DispatcherEnabled(c, s, step) && MovesOnly(step)
    requires s.handles == {} && (s.control.Snapshotting? || s.control.Searching?) ==> s.completed == s.visited && s.running == map[]
    ensures ControlOk(c, DispatcherApply(c, s, step))
  {
    if step.GiveUp? {
      GiveUpControlOk(c, s);
    }
  }

  lemma GiveUpControlOk(c: Config, s: State)
    requires c.Valid() && SetsOk(c, s) && ControlOk(c, s) && DispatcherEnabled(c, s, GiveUp)
    requires s.handles == {} ==> s.completed == s.visited && s.running == map[]
    ensures s.handles != {}
  {
    if s.handles == {} {
      var x := QueuedNodeAvailable(c.graph, s.visited);
    }
  }

  lemma MovePlacedOk(c: Config, s: State, step: Step)
    requires c.Valid() && PlacedOk(c, s) && DispatcherEnabled(c, s, step) && MovesOnly(step)
    ensures PlacedOk(c, DispatcherApply(c, s, step))
  {
    MoveFrame(c, s, step);
  }

  lemma MoveLaunchOk(c: Config, s: State, step: Step)
    requires c.Valid() && SetsOk(c, s) && JobsOk(c, s) && PlacedOk(c, s) && LaunchOk(c, s)
    requires DispatcherEnabled(c, s, step) && MovesOnly(step)
    ensures LaunchOk(c, DispatcherApply(c, s, step))
  {
    MoveFrame(c, s, step);
    if step.Drained? {
      NothingInFlight(c, s);
    }
  }

  lemma MoveOrderOk(c: Config, s: State, step: Step)
    requires c.Valid() && OrderOk(c, s) && DispatcherEnabled(c, s, step) && MovesOnly(step)
    requires step.Drained? ==> forall x | x in s.visited && !c.Persistent(x) :: Joined(c, s, x)
    ensures OrderOk(c, DispatcherApply(c, s, step))
  {
    MoveFrame(c, s, step);
  }

  lemma MoveInv(c: Config, s: State, step: Step)
    requires c.Valid() && Inv(c, s) && DispatcherEnabled(c, s, step) && MovesOnly(step)
    ensures Inv(c, DispatcherApply(c, s, step))
  {
    if s.handles == {} && (s.control.Snapshotting? || s.control.Searching? || step.Drained?) {
      NothingInFlight(c, s);
    }
    MoveControlOk(c, s, step);
    MovePlacedOk(c, s, step);
    MoveLaunchOk(c, s, step);
    MoveOrderOk(c, s, step);
    MoveFrame(c, s, step);
    MoveKeeps(c, s, DispatcherApply(c, s, step).control);
  }

  lemma MoveKeeps(c: Config, s: State, control: Control)
    requires SetsOk(c, s) && JobsOk(c, s) && StartsOk(c, s) && PermitsOk(c, s) && ResultsOk(c, s)
    ensures var s' := s.(control := control); SetsOk(c, s') && JobsOk(c, s') && StartsOk(c, s') && PermitsOk(c, s') && ResultsOk(c, s')
  {
  }

  lemma ChangeSetsOk(c: Config, s: State, step: Step)
    requires c.Valid() && SetsOk(c, s) && ControlOk(c, s) && LaunchOk(c, s) && DispatcherEnabled(c, s, step) && !MovesOnly(step)
    ensures SetsOk(c, DispatcherApply(c, s, step))
  {
    if step.Claim? {
      ClaimSetsOk(c, s);
    } else if step.Spawn? {
      SpawnSetsOk(c, s);
    }
  }

  /** Claiming a node lists it as running, and no running job shares its id. */
  lemma ClaimSetsOk(c: Config, s: State)
    requires c.Valid() && SetsOk(c, s) && ControlOk(c, s) && s.control.Claiming?
    ensures SetsOk(c, DispatcherApply(c, s, Claim))
  {
  }

  lemma SpawnSetsOk(c: Config, s: State)
    requires c.Valid() && SetsOk(c, s) && ControlOk(c, s) && s.control.Dispatching?
    ensures SetsOk(c, DispatcherApply(c, s, Spawn))
  {
  }

  /** The dispatcher may add jobs that have not run, and touches no other job and no result. */
  ghost predicate OnlyNewJobs(s: State, s': State) {
    && s'.started == s.started && s'.outcomes == s.outcomes && s'.results == s.results && s.completed <= s'.completed
    && (forall x | x in s.jobs :: x in s'.jobs && s'.jobs[x] == s.jobs[x])
    && (forall x | x in s'.jobs && x !in s.jobs :: s'.jobs[x].Waiting? || s'.jobs[x].Admitted?)
    && (forall x | x in s'.handles && x !in s.handles :: x !in s.jobs)
  }

  lemma DispatcherAddsJobs(c: Config, s: State, step: Step)
    requires c.Valid() && ControlOk(c, s) && LaunchOk(c, s) && DispatcherEnabled(c, s, step)
    ensures OnlyNewJobs(s, DispatcherApply(c, s, step))
  {
    if MovesOnly(step) {
      MoveFrame(c, s, step);
    } else if step.Spawn? {
      SpawnAddsJobs(c, s);
    } else if step.Launch? {
      LaunchAddsJobs(c, s, step.x);
    }
  }

  lemma SpawnAddsJobs(c: Config, s: State)
    requires c.Valid() && ControlOk(c, s) && s.control.Dispatching?
    ensures OnlyNewJobs(s, DispatcherApply(c, s, Spawn))
  {
  }

  lemma LaunchAddsJobs(c: Config, s: State, x: NodeIndex)
    requires c.Valid() && LaunchOk(c, s) && s.control.Launching? && x in s.control.rest
    ensures OnlyNewJobs(s, DispatcherApply(c, s, Launch(x)))
  {
  }

  /** What a job relies on does not change. */
  ghost predicate Untouched(s: State, s': State, x: NodeIndex)
    requires x in s.jobs
  {
    && x in s'.jobs && s'.jobs[x] == s.jobs[x] && s'.outcomes == s.outcomes
    && (x in s.running <==> x in s'.running) && (x in s.completed <==> x in s'.completed)
    && (x in s.handles && x !in s'.handles ==> s.jobs[x].Done?)
  }

  lemma UntouchedIsOk(c: Config, s: State, s': State, x: NodeIndex)
    requires x in s.jobs && JobOk(c, s, x) && Untouched(s, s', x)
    ensures JobOk(c, s', x)
  {
  }

  lemma ChangeOldJobOk(c: Config, s: State, step: Step, x: NodeIndex)
    requires c.Valid() && s.jobs.Keys <= s.visited && ControlOk(c, s) && LaunchOk(c, s)
    requires DispatcherEnabled(c, s, step) && !MovesOnly(step) && x in s.jobs && JobOk(c, s, x)
    ensures x in DispatcherApply(c, s, step).jobs && JobOk(c, DispatcherApply(c, s, step), x)
  {
    DispatcherAddsJobs(c, s, step);
    UntouchedIsOk(c, s, DispatcherApply(c, s, step), x);
  }

  lemma ChangeNewJobOk(c: Config, s: State, step: Step, x: NodeIndex)
    requires c.Valid() && s.outcomes.Keys <= s.jobs.Keys && ControlOk(c, s) && LaunchOk(c, s) && PlacedOk(c, s)
    requires DispatcherEnabled(c, s, step) && !MovesOnly(step) && x !in s.jobs && x in DispatcherApply(c, s, step).jobs
    ensures JobOk(c, DispatcherApply(c, s, step), x)
  {
  }

  lemma ChangeJobsOk(c: Config, s: State, step: Step)
    requires c.Valid() && s.jobs.Keys <= s.visited && JobsOk(c, s) && ControlOk(c, s) && LaunchOk(c, s) && PlacedOk(c, s)
    requires DispatcherEnabled(c, s, step) && !MovesOnly(step)
    ensures JobsOk(c, DispatcherApply(c, s, step))
  {
    var s' := DispatcherApply(c, s, step);
    DispatcherKeepsOutcomes(c, s, step);
    forall x | x in s'.jobs ensures JobOk(c, s', x) {
      if x in s.jobs {
        ChangeOldJobOk(c, s, step, x);
      } else {
        ChangeNewJobOk(c, s, step, x);
      }
    }
  }

  lemma ChangePlacedOk(c: Config, s: State, step: Step)
    requires c.Valid() && PlacedOk(c, s) && DispatcherEnabled(c, s, step) && !MovesOnly(step)
    ensures PlacedOk(c, DispatcherApply(c, s, step))
  {
  }

  lemma ChangeLaunchOk(c: Config, s: State, step: Step)
    requires c.Valid() && LaunchOk(c, s) && ControlOk(c, s) && DispatcherEnabled(c, s, step) && !MovesOnly(step)
    ensures LaunchOk(c, DispatcherApply(c, s, step))
  {
  }

  lemma ChangeControlOk(c: Config, s: State, step: Step)
    requires c.Valid() && SetsOk(c, s) && ControlOk(c, s) && DispatcherEnabled(c, s, step) && !MovesOnly(step)
    ensures ControlOk(c, DispatcherApply(c, s, step))
  {
  }

  lemma StartsKept(c: Config, s: State, s': State)
    requires StartsOk(c, s) && OnlyNewJobs(s, s')
    ensures StartsOk(c, s')
  {
    forall x | CleanBelow(c, s, x) ensures CleanBelow(c, s', x) {
      forall y | StrictlyReaches(c.graph.Edges(), x, y) && !c.Persistent(y)
        ensures y in s'.completed && y in s'.outcomes && !c.ShouldAbort(s'.outcomes[y])
      {
      }
    }
  }

  lemma ChangePermitsOk(c: Config, s: State, step: Step)
    requires c.Valid() && PermitsOk(c, s) && LaunchOk(c, s) && ControlOk(c, s) && DispatcherEnabled(c, s, step) && !MovesOnly(step)
    ensures PermitsOk(c, DispatcherApply(c, s, step))
  {
    SubsetSmaller(Holders(c, DispatcherApply(c, s, step)), Holders(c, s));
  }

  lemma ResultsStay(c: Config, s: State, s': State)
    requires ResultsOk(c, s) && OnlyNewJobs(s, s')
    ensures ResultsOk(c, s')
  {
  }

  /** The dispatch order survives a step that dispatches nothing and undoes no join. */
  lemma KeepOrder(c: Config, s: State, s': State)
    requires OrderOk(c, s) && s'.order == s.order && s'.visited == s.visited && !s'.control.Dispatching?
    requires forall x | x in s.visited && !c.Persistent(x) && Joined(c, s, x) :: Joined(c, s', x)
    requires s.order != [] && c.Interactive(s.order[|s.order| - 1]) ==>
               || s'.control.Draining? || s'.control.Stopped?
               || (!s.control.Dispatching? && !s.control.Draining? && !s.control.Stopped?)
    ensures OrderOk(c, s')
  {
  }

  lemma ClaimOrder(c: Config, s: State)
    requires c.Valid() && OrderOk(c, s) && s.control.Claiming? && ControlOk(c, s)
    ensures OrderOk(c, DispatcherApply(c, s, Claim))
  {
    var s' := DispatcherApply(c, s, Claim);
    var n := |s.order|;
    forall i, j | 0 <= i <= j < n && c.Interactive(s.order[j]) && !c.Persistent(s.order[i])
      ensures Joined(c, s', s.order[i])
    {
      assert s.order[i] in s.visited;
    }
  }

  lemma ChangeOrderOk(c: Config, s: State, step: Step)
    requires c.Valid() && OrderOk(c, s) && ControlOk(c, s) && LaunchOk(c, s) && DispatcherEnabled(c, s, step) && !MovesOnly(step)
    ensures OrderOk(c, DispatcherApply(c, s, step))
  {
    var s' := DispatcherApply(c, s, step);
    if step.Claim? {
      ClaimOrder(c, s);
    } else {
      DispatcherAddsJobs(c, s, step);
      assert forall x | Joined(c, s, x) :: Joined(c, s', x);
      KeepOrder(c, s, s');
    }
  }

  lemma ChangeInv(c: Config, s: State, step: Step)
    requires c.Valid() && Inv(c, s) && DispatcherEnabled(c, s, step) && !MovesOnly(step)
    ensures Inv(c, DispatcherApply(c, s, step))
  {
    ChangeSetsOk(c, s, step);
    ChangeJobsOk(c, s, step);
    ChangePlacedOk(c, s, step);
    ChangeLaunchOk(c, s, step);
    ChangeControlOk(c, s, step);
    ChangePermitsOk(c, s, step);
    DispatcherAddsJobs(c, s, step);
    StartsKept(c, s, DispatcherApply(c, s, step));
    ResultsStay(c, s, DispatcherApply(c, s, step));
    ChangeOrderOk(c, s, step);
  }

  lemma SignalKeepsJobs(c: Config, s: State)
    requires SetsOk(c, s) && JobsOk(c, s) && StartsOk(c, s) && PermitsOk(c, s) && ResultsOk(c, s)
    ensures var s' := s.(cancel := true); SetsOk(c, s') && JobsOk(c, s') && StartsOk(c, s') && PermitsOk(c, s') && ResultsOk(c, s')
  {
  }

  lemma SignalKeepsControl(c: Config, s: State)
    requires PlacedOk(c, s) && LaunchOk(c, s) && ControlOk(c, s) && OrderOk(c, s)
    ensures var s' := s.(cancel := true); PlacedOk(c, s') && LaunchOk(c, s') && ControlOk(c, s') && OrderOk(c, s')
  {
    forall x | Joined(c, s, x) ensures Joined(c, s.(cancel := true), x) {
    }
  }

  lemma JobInv(c: Config, s: State, step: Step)
    requires c.Valid() && Inv(c, s) && JobEnabled(c, s, step)
    ensures Inv(c, JobApply(c, s, step))
  {
    if step.Signal? {
      SignalKeepsJobs(c, s);
      SignalKeepsControl(c, s);
    } else {
      var s' := JobApply(c, s, step);
      JobStepFrame(c, s, step);
      JobSetsOk(c, s, s', step.x);
      JobJobsOk(c, s, step);
      JobPlacedOk(c, s, s', step.x);
      JobLaunchOk(c, s, s', step.x);
      JobControlOk(c, s, s', step.x);
      JobStartsOk(c, s, step);
      JobPermitsOk(c, s, step);
      JobResultsOk(c, s, step);
      JobOrderOk(c, s, s', step.x);
    }
  }

  /** Every step keeps the invariant. */
  lemma StepInv(c: Config, s: State, step: Step)
    requires c.Valid() && Inv(c, s) && Enabled(c, s, step)
    ensures Inv(c, Apply(c, s, step))
  {
    if !DispatcherEnabled(c, s, step) {
      JobInv(c, s, step);
    } else if MovesOnly(step) {
      MoveInv(c, s, step);
    } else {
      ChangeInv(c, s, step);
    }
  }

  /** The invariant holds wherever a run leads. */
  lemma {:induction false} RunInv(c: Config, steps: seq<Step>)
    requires c.Valid() && Replay(c, steps).Some?
    ensures Inv(c, Replay(c, steps).value)
  {
    if steps == [] {
      StartInv(c);
    } else {
      RunInv(c, steps[..|steps| - 1]);
      StepInv(c, Replay(c, steps[..|steps| - 1]).value, steps[|steps| - 1]);
    }
  }

  function Members(xs: seq<NodeIndex>): set<NodeIndex> {
    set x | x in xs
  }

  /** A step of a job or a signal. */
  predicate JobStep(step: Step) {
    || step.Admit? || step.CheckAbort? || step.CheckCancel? || step.FinishBody? || step.RecheckAbort? || step.RecheckCancel?
    || step.SendAbort? || step.Unlist? || step.Complete? || step.Report? || step.Release? || step.Kill? || step.Signal?
  }

  /** A run goes on with the first `k` looks of a search, each after the steps that jobs take in the meantime. */
  function Looks(steps: seq<Step>, jobs: seq<seq<Step>>, deferred: seq<NodeIndex>, k: nat): seq<Step>
    requires k <= |deferred| < |jobs|
  {
    if k == 0 then steps else Looks(steps, jobs, deferred, k - 1) + jobs[k - 1] + [Defer(deferred[k - 1])]
  }

  /** What the jobs do between looks is possible, and leaves running what the looks find. */
  ghost predicate LooksFind(c: Config, steps: seq<Step>, jobs: seq<seq<Step>>, deferred: seq<NodeIndex>, running: nat -> map<NodeIndex, nat>, k: nat)
    requires c.graph.nodes.Keys == c.graph.out.Keys && k <= |deferred| < |jobs|
  {
    && (forall j | j in jobs[k] :: JobStep(j))
    && (Replay(c, Looks(steps, jobs, deferred, k)).Some? ==>
          var r := Replay(c, Looks(steps, jobs, deferred, k) + jobs[k]);
          r.Some? && r.value.running == running(k))
  }

  lemma ReplaySnoc(c: Config, steps: seq<Step>, step: Step)
    requires c.graph.nodes.Keys == c.graph.out.Keys
    ensures Replay(c, steps + [step]).Some? <==> Replay(c, steps).Some? && Enabled(c, Replay(c, steps).value, step)
    ensures Replay(c, steps + [step]).Some? ==> Replay(c, steps + [step]) == Some(Apply(c, Replay(c, steps).value, step))
  {
    assert (steps + [step])[..|steps|] == steps;
  }

  lemma JobKeepsControl(c: Config, s: State, step: Step)
    requires c.graph.nodes.Keys == c.graph.out.Keys && JobStep(step) && Enabled(c, s, step)
    ensures Apply(c, s, step).control == s.control && Apply(c, s, step).visited == s.visited
  {
  }

  /** Jobs do not move the dispatcher. */
  lemma {:induction false} JobsKeepControl(c: Config, steps: seq<Step>, jobs: seq<Step>)
    requires c.graph.nodes.Keys == c.graph.out.Keys && Replay(c, steps + jobs).Some? && forall j | j in jobs :: JobStep(j)
    ensures Replay(c, steps).Some?
    ensures Replay(c, steps + jobs).value.control == Replay(c, steps).value.control
    ensures Replay(c, steps + jobs).value.visited == Replay(c, steps).value.visited
    decreases |jobs|
  {
    if jobs == [] {
      assert steps + jobs == steps;
    } else {
      var most, last := jobs[..|jobs| - 1], jobs[|jobs| - 1];
      assert steps + jobs == steps + most + [last];
      ReplaySnoc(c, steps + most, last);
      JobsKeepControl(c, steps, most);
      JobKeepsControl(c, Replay(c, steps + most).value, last);
    }
  }

  /** The search is at its `k`-th look. */
  ghost predicate SearchesAt(c: Config, s: State, completed: set<NodeIndex>, visited: set<NodeIndex>, deferred: seq<NodeIndex>, k: nat)
    requires k <= |deferred|
  {
    s.control == Searching(completed, Members(deferred[..k])) && s.visited == visited
  }

  /** What `JobDispatcher.Next` promises about the node it returns and the nodes it turned down. */
  ghost predicate SearchEnds(c: Config, visited: set<NodeIndex>, completed: set<NodeIndex>, running: nat -> map<NodeIndex, nat>,
                             deferred: seq<NodeIndex>, next: Option<NodeIndex>)
    requires c.graph.nodes.Keys == c.graph.out.Keys
  {
    && Turned(c.graph, visited, completed, running, deferred)
    && (next.Some? ==> Dispatchable(c.graph, visited, completed, running(|deferred|), next.value))
    && (next.None? ==> forall x | Available(c.graph, visited, completed, x) :: x in deferred)
  }

  lemma DeferSearches(c: Config, s: State, completed: set<NodeIndex>, visited: set<NodeIndex>,
                      running: nat -> map<NodeIndex, nat>, deferred: seq<NodeIndex>, k: nat)
    requires c.Valid() && Turned(c.graph, visited, completed, running, deferred) && k < |deferred|
    requires SearchesAt(c, s, completed, visited, deferred, k) && s.running == running(k)
    ensures Enabled(c, s, Defer(deferred[k])) && SearchesAt(c, Apply(c, s, Defer(deferred[k])), completed, visited, deferred, k + 1)
  {
    assert deferred[..k + 1] == deferred[..k] + [deferred[k]];
    assert Members(deferred[..k + 1]) == Members(deferred[..k]) + {deferred[k]};
  }

  lemma {:induction false} LooksCanBeTaken(c: Config, steps: seq<Step>, jobs: seq<seq<Step>>, completed: set<NodeIndex>,
                                           visited: set<NodeIndex>, running: nat -> map<NodeIndex, nat>, deferred: seq<NodeIndex>, k: nat)
    requires c.Valid() && Replay(c, steps).Some? && SearchesAt(c, Replay(c, steps).value, completed, visited, deferred, 0)
    requires Turned(c.graph, visited, completed, running, deferred) && k <= |deferred| < |jobs|
    requires forall i | 0 <= i <= |deferred| :: LooksFind(c, steps, jobs, deferred, running, i)
    ensures Replay(c, Looks(steps, jobs, deferred, k)).Some?
    ensures SearchesAt(c, Replay(c, Looks(steps, jobs, deferred, k)).value, completed, visited, deferred, k)
    decreases k
  {
    if k > 0 {
      LooksCanBeTaken(c, steps, jobs, completed, visited, running, deferred, k - 1);
      assert LooksFind(c, steps, jobs, deferred, running, k - 1);
      var before := Looks(steps, jobs, deferred, k - 1);
      JobsKeepControl(c, before, jobs[k - 1]);
      DeferSearches(c, Replay(c, before + jobs[k - 1]).value, completed, visited, running, deferred, k - 1);
      ReplaySnoc(c, before + jobs[k - 1], Defer(deferred[k - 1]));
    }
  }

  /**
   What `JobDispatcher.Next` promises is a run of the pipeline: between looks the jobs take steps of
   their own, every deferred node is a `Defer`, and the search ends with `Pick` or `GiveUp`.
   */
  lemma NextTakesSearchSteps(c: Config, steps: seq<Step>, jobs: seq<seq<Step>>, running: nat -> map<NodeIndex, nat>,
                             deferred: seq<NodeIndex>, next: Option<NodeIndex>)
    requires c.Valid() && Replay(c, steps).Some? && Replay(c, steps).value.control.Searching?
    requires Replay(c, steps).value.control.deferred == {} && |deferred| < |jobs|
    requires SearchEnds(c, Replay(c, steps).value.visited, Replay(c, steps).value.control.snapshot, running, deferred, next)
    requires forall k | 0 <= k <= |deferred| :: LooksFind(c, steps, jobs, deferred, running, k)
    ensures Replay(c, Looks(steps, jobs, deferred, |deferred|) + jobs[|deferred|] + [if next.Some? then Pick(next.value) else GiveUp]).Some?
  {
    var s, n := Replay(c, steps).value, |deferred|;
    LooksCanBeTaken(c, steps, jobs, s.control.snapshot, s.visited, running, deferred, n);
    assert LooksFind(c, steps, jobs, deferred, running, n);
    var before := Looks(steps, jobs, deferred, n);
    JobsKeepControl(c, before, jobs[n]);
    assert deferred[..n] == deferred;
    ReplaySnoc(c, before + jobs[n], if next.Some? then Pick(next.value) else GiveUp);
  }

  /**
   Dispatch safety over whole runs: no node is dispatched twice, and whatever has been dispatched
   had all its requirements, direct and transitive, completed.
   */
  lemma DispatchSafety(c: Config, steps: seq<Step>)
    requires c.Valid() && Replay(c, steps).Some?
    ensures var s := Replay(c, steps).value;
      && (forall i, j | 0 <= i < j < |s.order| :: s.order[i] != s.order[j])
      && (forall x, y | x in s.order && StrictlyReaches(c.graph.Edges(), x, y) :: y in s.completed)
      && s.running.Keys <= s.visited - s.completed && s.completed <= s.visited
  {
    RunInv(c, steps);
    var s := Replay(c, steps).value;
    forall x, y | x in s.order && StrictlyReaches(c.graph.Edges(), x, y) ensures y in s.completed {
      VisitedBelowCompleted(c.graph, s.visited, s.completed, x, y);
    }
  }

  lemma DispatcherKeepsOutcomes(c: Config, s: State, step: Step)
    requires c.Valid() && DispatcherEnabled(c, s, step)
    ensures DispatcherApply(c, s, step).outcomes == s.outcomes
  {
  }

  lemma StepKeepsOutcomes(c: Config, s: State, step: Step)
    requires c.Valid() && JobsOk(c, s) && Enabled(c, s, step)
    ensures s.outcomes.Keys <= Apply(c, s, step).outcomes.Keys
    ensures forall n | n in s.outcomes :: Apply(c, s, step).outcomes[n] == s.outcomes[n]
  {
    if DispatcherEnabled(c, s, step) {
      DispatcherKeepsOutcomes(c, s, step);
    } else {
      JobKeepsOutcomes(c, s, step);
    }
  }

  lemma JobKeepsOutcomes(c: Config, s: State, step: Step)
    requires JobsOk(c, s) && JobEnabled(c, s, step)
    ensures s.outcomes.Keys <= JobApply(c, s, step).outcomes.Keys
    ensures forall n | n in s.outcomes :: JobApply(c, s, step).outcomes[n] == s.outcomes[n]
  {
    if step.SendAbort? {
      assert JobOk(c, s, step.x);
    }
  }

  /** A result that was sent stays what it was for the rest of the run. */
  lemma {:induction false} RunKeepsOutcomes(c: Config, steps: seq<Step>, more: seq<Step>, n: NodeIndex)
    requires c.Valid() && Replay(c, steps + more).Some?
    ensures Replay(c, steps).Some?
    ensures n in Replay(c, steps).value.outcomes ==>
      && n in Replay(c, steps + more).value.outcomes
      && Replay(c, steps + more).value.outcomes[n] == Replay(c, steps).value.outcomes[n]
  {
    if more == [] {
      assert steps + more == steps;
    } else {
      var shorter := steps + more[..|more| - 1];
      assert (steps + more)[..|steps + more| - 1] == shorter;
      RunKeepsOutcomes(c, steps, more[..|more| - 1], n);
      RunInv(c, shorter);
      StepKeepsOutcomes(c, Replay(c, shorter).value, (steps + more)[|steps + more| - 1]);
    }
  }

  /**
   Abort ordering: once a node that is not persistent has ended with a result that aborts the
   pipeline, no node that requires it, however indirectly, has run its action body, and none
   does so in whatever follows.
   */
  lemma NoBodyAboveAbort(c: Config, steps: seq<Step>, more: seq<Step>, failed: NodeIndex, x: NodeIndex)
    requires c.Valid() && Replay(c, steps).Some? && Replay(c, steps + more).Some?
    requires var s := Replay(c, steps).value; failed in s.outcomes && c.ShouldAbort(s.outcomes[failed])
    requires !c.Persistent(failed) && StrictlyReaches(c.graph.Edges(), x, failed)
    ensures x !in Replay(c, steps + more).value.started
  {
    RunKeepsOutcomes(c, steps, more, failed);
    RunInv(c, steps + more);
    assert !CleanBelow(c, Replay(c, steps + more).value, x);
  }

  predicate PersistentTask(c: Config, x: NodeIndex) {
    x in c.graph.nodes && c.graph.nodes[x].RunTask? && c.graph.nodes[x].persistent
  }

  predicate StandardTask(c: Config, x: NodeIndex) {
    x in c.graph.nodes && c.graph.nodes[x].RunTask? && !c.graph.nodes[x].persistent && !c.graph.nodes[x].interactive
  }

  predicate InteractiveTask(c: Config, x: NodeIndex) {
    x in c.graph.nodes && c.graph.nodes[x].RunTask? && c.graph.nodes[x].interactive && !c.graph.nodes[x].persistent
  }

  /**
   Mutual exclusion and phases: standard tasks with one nonzero id never overlap, permits bound the
   non-persistent bodies, and a persistent job finds every other job joined.
   */
  lemma Exclusion(c: Config, steps: seq<Step>)
    requires c.Valid() && Replay(c, steps).Some?
    ensures var s := Replay(c, steps).value;
      && (forall x, y | x in s.jobs && y in s.jobs && x != y && Listed(s.jobs[x]) && Listed(s.jobs[y])
                        && StandardTask(c, x) && StandardTask(c, y) && c.graph.nodes[x].id == c.graph.nodes[y].id :: c.graph.nodes[x].id == 0)
      && |set x | x in s.jobs && !PersistentTask(c, x) && s.jobs[x].Running?| <= c.concurrency
      && (forall x, y | x in s.jobs && PersistentTask(c, x) && y in c.graph.Indices() && !PersistentTask(c, y) :: Joined(c, s, y))
  {
    RunInv(c, steps);
    var s := Replay(c, steps).value;
    forall x, y | x in s.jobs && y in s.jobs && x != y && Listed(s.jobs[x]) && Listed(s.jobs[y])
                  && StandardTask(c, x) && StandardTask(c, y) && c.graph.nodes[x].id == c.graph.nodes[y].id
      ensures c.graph.nodes[x].id == 0
    {
      OneStandardTask(c, s, x, y);
    }
    BodiesHavePermits(c, s);
    PersistentComesLast(c, s);
  }

  lemma OneStandardTask(c: Config, s: State, x: NodeIndex, y: NodeIndex)
    requires SetsOk(c, s) && JobsOk(c, s) && x in s.jobs && y in s.jobs && x != y && Listed(s.jobs[x]) && Listed(s.jobs[y])
    requires StandardTask(c, x) && StandardTask(c, y) && c.graph.nodes[x].id == c.graph.nodes[y].id
    ensures c.graph.nodes[x].id == 0
  {
    assert JobOk(c, s, x) && JobOk(c, s, y);
  }

  lemma BodiesHavePermits(c: Config, s: State)
    requires PermitsOk(c, s)
    ensures |set x | x in s.jobs && !PersistentTask(c, x) && s.jobs[x].Running?| <= c.concurrency
  {
    SubsetSmaller((set x | x in s.jobs && !PersistentTask(c, x) && s.jobs[x].Running?), Holders(c, s));
  }

  lemma PersistentComesLast(c: Config, s: State)
    requires LaunchOk(c, s)
    ensures forall x, y | x in s.jobs && PersistentTask(c, x) && y in c.graph.Indices() && !PersistentTask(c, y) :: Joined(c, s, y)
  {
    forall x, y | x in s.jobs && PersistentTask(c, x) && y in c.graph.Indices() && !PersistentTask(c, y) ensures Joined(c, s, y) {
      assert c.Persistent(x) && !c.Persistent(y);
    }
  }

  /** Nothing is dispatched after an interactive node until that node and all jobs before it are joined. */
  lemma InteractiveBarrier(c: Config, steps: seq<Step>, i: nat, j: nat, k: nat)
    requires c.Valid() && Replay(c, steps).Some?
    requires i <= j < k < |Replay(c, steps).value.order|
    requires InteractiveTask(c, Replay(c, steps).value.order[j]) && !PersistentTask(c, Replay(c, steps).value.order[i])
    ensures var s := Replay(c, steps).value; Joined(c, s, s.order[i])
  {
    RunInv(c, steps);
  }

  /** Every result reaches the channel at most once, so as many results as nodes means one from each. */
  lemma AllResultsReceived(c: Config, steps: seq<Step>)
    requires c.Valid() && Replay(c, steps).Some?
    ensures var s := Replay(c, steps).value;
      |s.results| >= |c.graph.Indices()| <==> forall x | x in c.graph.Indices() :: x in s.results
  {
    RunInv(c, steps);
    DistinctCovers(Replay(c, steps).value.results, c.graph.Indices());
  }

  lemma DistinctCovers<T>(xs: seq<T>, all: set<T>)
    requires (forall i, j | 0 <= i < j < |xs| :: xs[i] != xs[j]) && forall x | x in xs :: x in all
    ensures |xs| >= |all| <==> forall x | x in all :: x in xs
  {
    var members := set x | x in xs;
    DistinctCount(xs, members);
    if members == all {
      assert forall x | x in all :: x in members;
    } else {
      SmallerThan(members, all);
    }
  }

  lemma SmallerThan<T>(a: set<T>, b: set<T>)
    requires a < b
    ensures |a| < |b| && exists x :: x in b && x !in a
  {
    var x :| x in b && x !in a;
    SubsetSmaller(a, b - {x});
  }

  /** A list without repetitions is as long as the set of its members is large. */
  lemma {:induction false} DistinctCount<T>(xs: seq<T>, members: set<T>)
    requires forall i, j | 0 <= i < j < |xs| :: xs[i] != xs[j]
    requires forall x :: x in members <==> x in xs
    ensures |members| == |xs|
  {
    if xs == [] {
      assert members == {};
    } else {
      var rest, last := xs[..|xs| - 1], xs[|xs| - 1];
      assert forall x :: x in xs <==> x in rest || x == last;
      DistinctCount(rest, members - {last});
    }
  }
}
