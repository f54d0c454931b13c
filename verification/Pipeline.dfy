/**
 The action pipeline as a state machine: one dispatcher, any number of jobs that finish in
 any order, an abort token and a cancel token. Every lock acquisition, token read and
 channel send is one step, so the steps of different jobs interleave freely.
 */
module Pipeline {
  import opened Actions
  import opened ActionGraphs
  import opened Digraph
  import opened Dispatch

  datatype ActionStatus = Cached | CachedFromRemote | Failed | Invalid | Passed | Skipped | TimedOut | Aborted

  datatype Action = Action(status: ActionStatus, allowFailure: bool, lastExecutionAborted: bool) {
    predicate ShouldAbort() {
      status.Aborted? || lastExecutionAborted
    }

    predicate ShouldBail() {
      !allowFailure && (status.Aborted? || status.Failed? || status.TimedOut?)
    }
  }

  /** Where a job is in its life; `Waiting` jobs wait for a permit of the semaphore. */
  datatype Phase =
    | Waiting
    | Admitted                     // before the abort token is read
    | Cleared                      // before the cancel token is read
    | Running                      // the action body runs
    | Ran(action: Action)          // before the abort token is read again
    | Rechecked(action: Action)    // before the cancel token is read again
    | Sending(action: Action)      // entered `send_result`
    | Unlisting(action: Action)    // the abort token was cancelled if need be
    | Completing(action: Action)   // no longer among the running jobs
    | Reporting(action: Action)    // among the completed jobs
    | Releasing(action: Action)    // the result was sent
    | Done                         // the permit was dropped
    | Killed                       // dropped by the shutdown of an aborted or cancelled pipeline

  /** Where the dispatcher is. */
  datatype Control =
    | LoopTop
    | Snapshotting
    | Searching(snapshot: set<NodeIndex>, deferred: set<NodeIndex>)
    | Claiming(index: NodeIndex)
    | Dispatching(index: NodeIndex)
    | MarkingPersistent(index: NodeIndex)
    | AwaitingHandle
    | Draining(last: bool)         // `exhaust_job_handles`, after an interactive job or at the end
    | Launching(rest: set<NodeIndex>)
    | Stopped

  datatype Config = Config(graph: ActionGraph, bail: bool, concurrency: nat) {
    ghost predicate Valid() {
      graph.Valid() && Acyclic(graph.Edges()) && concurrency > 0
    }

    predicate Persistent(x: NodeIndex) {
      x in graph.nodes && graph.nodes[x].IsPersistent()
    }

    predicate Interactive(x: NodeIndex) {
      x in graph.nodes && graph.nodes[x].IsInteractive() && !graph.nodes[x].IsPersistent()
    }

    predicate Guarded(x: NodeIndex) {
      x in graph.nodes && graph.nodes[x].IsGuarded()
    }

    /** `JobContext::should_abort`. */
    predicate ShouldAbort(action: Action) {
      action.ShouldAbort() || (bail && action.ShouldBail())
    }
  }

  /** `outcomes`, `started` and `order` only record history: results sent, bodies begun, dispatch order. */
  datatype State = State(
    control: Control,
    visited: set<NodeIndex>,
    completed: set<NodeIndex>,
    running: map<NodeIndex, nat>,
    jobs: map<NodeIndex, Phase>,
    handles: set<NodeIndex>,
    abort: bool,
    cancel: bool,
    results: seq<NodeIndex>,
    outcomes: map<NodeIndex, Action>,
    started: set<NodeIndex>,
    order: seq<NodeIndex>)

  const Start := State(LoopTop, {}, {}, map[], map[], {}, false, false, [], map[], {}, [])

  datatype Step =
    | CheckQueue
    | Snapshot
    | Defer(x: NodeIndex)
    | Pick(x: NodeIndex)
    | GiveUp
    | Claim
    | Spawn
    | MarkPersistent
    | Join(x: NodeIndex)
    | JoinNothing
    | Drained
    | Launch(x: NodeIndex)
    | Launched
    | Halt
    | Admit(x: NodeIndex)
    | CheckAbort(x: NodeIndex)
    | CheckCancel(x: NodeIndex)
    | FinishBody(x: NodeIndex, action: Action)
    | RecheckAbort(x: NodeIndex)
    | RecheckCancel(x: NodeIndex)
    | SendAbort(x: NodeIndex)
    | Unlist(x: NodeIndex)
    | Complete(x: NodeIndex)
    | Report(x: NodeIndex)
    | Release(x: NodeIndex)
    | Kill(x: NodeIndex)
    | Signal

  predicate HoldsPermit(phase: Phase) {
    !phase.Waiting? && !phase.Done? && !phase.Killed?
  }

  function Holders(c: Config, s: State): set<NodeIndex> {
    set x | x in s.jobs && !c.Persistent(x) && HoldsPermit(s.jobs[x])
  }

  function PersistentNodes(c: Config, s: State): set<NodeIndex> {
    set x | x in s.visited && c.Persistent(x)
  }

  predicate DispatcherEnabled(c: Config, s: State, step: Step)
    requires c.graph.nodes.Keys == c.graph.out.Keys
  {
    match step
    case CheckQueue => s.control.LoopTop?
    case Snapshot => s.control.Snapshotting?
    case Defer(x) =>
      && s.control.Searching? && x !in s.control.deferred
      && Available(c.graph, s.visited, s.control.snapshot, x)
      && !Dispatchable(c.graph, s.visited, s.control.snapshot, s.running, x)
    case Pick(x) => s.control.Searching? && Dispatchable(c.graph, s.visited, s.control.snapshot, s.running, x)
    case GiveUp =>
      && s.control.Searching?
      && forall x | x in c.graph.out && Available(c.graph, s.visited, s.control.snapshot, x) :: x in s.control.deferred
    case Claim => s.control.Claiming?
    case Spawn => s.control.Dispatching?
    case MarkPersistent => s.control.MarkingPersistent?
    case Join(x) => (s.control.AwaitingHandle? || s.control.Draining?) && x in s.handles && x in s.jobs && s.jobs[x].Done?
    case JoinNothing => s.control.AwaitingHandle? && s.handles == {}
    case Drained => s.control.Draining? && s.handles == {}
    case Launch(x) => s.control.Launching? && x in s.control.rest
    case Launched => s.control.Launching? && s.control.rest == {}
    case Halt => !s.control.Stopped? && (s.abort || s.cancel)
    case _ => false
  }

  function DispatcherApply(c: Config, s: State, step: Step): State
    requires c.graph.nodes.Keys == c.graph.out.Keys && DispatcherEnabled(c, s, step)
  {
    match step
    case CheckQueue =>
      if s.visited == c.graph.Indices() then s.(control := Draining(true))
      else if s.abort || s.cancel then s.(control := Stopped)
      else s.(control := Snapshotting)
    case Snapshot => s.(control := Searching(s.completed, {}))
    case Defer(x) => s.(control := Searching(s.control.snapshot, s.control.deferred + {x}))
    case Pick(x) => s.(control := Claiming(x))
    case GiveUp => s.(control := AwaitingHandle)
    case Claim =>
      var x := s.control.index;
      s.(control := Dispatching(x), visited := s.visited + {x}, order := s.order + [x],
         running := if c.Guarded(x) then s.running[x := c.graph.nodes[x].GetId()] else s.running)
    case Spawn =>
      var x := s.control.index;
      if c.Persistent(x) then s.(control := MarkingPersistent(x), running := s.running - {x})
      else s.(control := if c.Interactive(x) then Draining(false) else LoopTop,
              jobs := s.jobs[x := Waiting], handles := s.handles + {x})
    case MarkPersistent => s.(control := LoopTop, completed := s.completed + {s.control.index})
    case Join(x) => s.(control := if s.control.Draining? then s.control else LoopTop, handles := s.handles - {x})
    case JoinNothing => s.(control := LoopTop)
    case Drained =>
      if s.abort || s.cancel then s.(control := Stopped)
      else s.(control := if s.control.last then Launching(PersistentNodes(c, s)) else LoopTop)
    case Launch(x) =>
      s.(control := Launching(s.control.rest - {x}), jobs := s.jobs[x := Admitted], handles := s.handles + {x})
    case Launched => s.(control := Stopped)
    case Halt => s.(control := Stopped)
  }

  predicate JobEnabled(c: Config, s: State, step: Step) {
    match step
    case Admit(x) => x in s.jobs && s.jobs[x].Waiting? && |Holders(c, s)| < c.concurrency
    case CheckAbort(x) => x in s.jobs && s.jobs[x].Admitted?
    case CheckCancel(x) => x in s.jobs && s.jobs[x].Cleared?
    case FinishBody(x, action) => x in s.jobs && s.jobs[x].Running?
    case RecheckAbort(x) => x in s.jobs && s.jobs[x].Ran?
    case RecheckCancel(x) => x in s.jobs && s.jobs[x].Rechecked?
    case SendAbort(x) => x in s.jobs && s.jobs[x].Sending?
    case Unlist(x) => x in s.jobs && s.jobs[x].Unlisting?
    case Complete(x) => x in s.jobs && s.jobs[x].Completing?
    case Report(x) => x in s.jobs && s.jobs[x].Reporting?
    case Release(x) => x in s.jobs && s.jobs[x].Releasing?
    case Kill(x) =>
      && s.control.Stopped? && (s.abort || s.cancel)
      && x in s.jobs && !s.jobs[x].Done? && !s.jobs[x].Killed?
    case Signal => !s.cancel
    case _ => false
  }

  /** The action of a job that was turned away before its body. */
  function Unstarted(status: ActionStatus): Action {
    Action(status, false, false)
  }

  function JobApply(c: Config, s: State, step: Step): State
    requires JobEnabled(c, s, step)
  {
    match step
    case Admit(x) => s.(jobs := s.jobs[x := Admitted])
    case CheckAbort(x) => s.(jobs := s.jobs[x := if s.abort then Sending(Unstarted(Aborted)) else Cleared])
    case CheckCancel(x) =>
      if s.cancel then s.(jobs := s.jobs[x := Sending(Unstarted(Skipped))])
      else s.(jobs := s.jobs[x := Running], started := s.started + {x})
    case FinishBody(x, action) => s.(jobs := s.jobs[x := Ran(action)])
    case RecheckAbort(x) =>
      var action := s.jobs[x].action;
      s.(jobs := s.jobs[x := if s.abort then Sending(action.(status := Aborted)) else Rechecked(action)])
    case RecheckCancel(x) =>
      var action := s.jobs[x].action;
      s.(jobs := s.jobs[x := Sending(if s.cancel then action.(status := Skipped) else action)])
    case SendAbort(x) =>
      var action := s.jobs[x].action;
      s.(jobs := s.jobs[x := Unlisting(action)], outcomes := s.outcomes[x := action],
         abort := s.abort || c.ShouldAbort(action))
    case Unlist(x) => s.(jobs := s.jobs[x := Completing(s.jobs[x].action)], running := s.running - {x})
    case Complete(x) => s.(jobs := s.jobs[x := Reporting(s.jobs[x].action)], completed := s.completed + {x})
    case Report(x) => s.(jobs := s.jobs[x := Releasing(s.jobs[x].action)], results := s.results + [x])
    case Release(x) => s.(jobs := s.jobs[x := Done])
    case Kill(x) => s.(jobs := s.jobs[x := Killed])
    case Signal => s.(cancel := true)
  }

  predicate Enabled(c: Config, s: State, step: Step)
    requires c.graph.nodes.Keys == c.graph.out.Keys
  {
    DispatcherEnabled(c, s, step) || JobEnabled(c, s, step)
  }

  function Apply(c: Config, s: State, step: Step): State
    requires c.graph.nodes.Keys == c.graph.out.Keys && Enabled(c, s, step)
  {
    if DispatcherEnabled(c, s, step) then DispatcherApply(c, s, step) else JobApply(c, s, step)
  }

  /** The state a run from the start ends in, if each of its steps can be taken. */
  function Replay(c: Config, steps: seq<Step>): Option<State>
    requires c.graph.nodes.Keys == c.graph.out.Keys
  {
    if steps == [] then Some(Start)
    else
      var before := Replay(c, steps[..|steps| - 1]);
      if before.Some? && Enabled(c, before.value, steps[|steps| - 1])
      then Some(Apply(c, before.value, steps[|steps| - 1]))
      else None
  }
}
