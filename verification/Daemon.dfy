/**
 Who owns the daemon of a workspace: any number of servers and clients, with crashes at any step,
 two advisory locks, and the endpoint files they guard.
 */
module DaemonOwnership {
  import opened Actions

  type Pid = nat

  /** `start_daemon_server`, from launch to exit. */
  datatype ServerPhase =
    | Launched      // before the ownership lock is tried
    | Owning        // the lock is held; a leftover socket may exist
    | Swept         // the leftover socket was removed
    | Recorded      // the state file was written
    | Serving       // the socket is bound and accepts connections
    | Draining      // no longer accepting
    | Unrecorded    // the state file was removed
    | Unbound       // the socket was removed

  /** `start_daemon`. */
  datatype StarterPhase =
    | Looking       // before the first look whether a daemon accepts connections
    | Contending    // waiting for the spawn lock
    | Rechecking    // the spawn lock is held
    | Spawning      // no daemon accepted connections on the second look
    | Awaiting      // the server was spawned

  /** `stop_daemon`; `known` is the process id read from the state file at the start. */
  datatype StopperPhase =
    | Sizing                                  // before the look at the daemon and its state
    | Queueing(known: Option<Pid>)            // waiting for the spawn lock
    | Asking(known: Option<Pid>)              // waiting for the ownership lock
    | Killing(known: Option<Pid>)             // the wait timed out
    | Retrying                                // waiting for the ownership lock again
    | Taken                                   // the ownership lock is held
    | Erased                                  // the state file was removed
    | Cleaned                                 // the socket was removed

  datatype Proc =
    | Server(phase: ServerPhase)
    | Starter(starting: StarterPhase)
    | Stopper(stopping: StopperPhase, spawnLocked: bool)

  /** `lock` and `spawn` are who the kernel says holds each lock; `socket` and `record` are files. */
  datatype State = State(procs: map<Pid, Proc>, lock: Option<Pid>, spawn: Option<Pid>, socket: Option<Pid>, record: Option<Pid>)

  const Init := State(map[], None, None, None, None)

  datatype Step =
    // servers
    | TryLock(p: Pid) | RemoveStale(p: Pid) | WriteRecord(p: Pid) | Bind(p: Pid) | BindFails(p: Pid)
    | Shutdown(p: Pid) | EraseRecord(p: Pid) | RemoveSocket(p: Pid)
    // clients that start a daemon
    | BeginStart(p: Pid) | Look(p: Pid) | TakeSpawnLock(p: Pid) | Recheck(p: Pid) | Spawn(p: Pid, child: Pid)
    // clients that stop it
    | BeginStop(p: Pid) | Size(p: Pid) | StopWithSpawnLock(p: Pid) | StopWithout(p: Pid)
    | TakeLock(p: Pid) | AskTimesOut(p: Pid) | Kill(p: Pid) | StopErases(p: Pid) | StopCleans(p: Pid)
    // any process: it ends, by itself or not, and the kernel drops its locks
    | Exit(p: Pid)

  /** A process that acts as the owner: it took the ownership lock and did not end yet. */
  predicate ActsAsOwner(proc: Proc) {
    match proc
    case Server(phase) => !phase.Launched?
    case Starter(_) => false
    case Stopper(stopping, _) => stopping.Taken? || stopping.Erased? || stopping.Cleaned?
  }

  predicate ActsAsSpawner(proc: Proc) {
    match proc
    case Server(_) => false
    case Starter(phase) => phase.Rechecking? || phase.Spawning? || phase.Awaiting?
    case Stopper(_, spawnLocked) => spawnLocked
  }

  /** A connection succeeds when the socket was bound by a server that still accepts. */
  predicate Running(s: State) {
    s.socket.Some? && s.socket.value in s.procs && s.procs[s.socket.value] == Server(Serving)
  }

  predicate ServerAt(s: State, p: Pid, phase: ServerPhase) {
    p in s.procs && s.procs[p] == Server(phase)
  }

  predicate StarterAt(s: State, p: Pid, phase: StarterPhase) {
    p in s.procs && s.procs[p] == Starter(phase)
  }

  predicate IsStopper(s: State, p: Pid) {
    p in s.procs && s.procs[p].Stopper?
  }

  predicate Enabled(s: State, step: Step) {
    match step
    case TryLock(p) => ServerAt(s, p, Launched)
    case RemoveStale(p) => ServerAt(s, p, Owning)
    case WriteRecord(p) => ServerAt(s, p, Swept)
    case Bind(p) => ServerAt(s, p, Recorded) && s.socket.None?
    case BindFails(p) => ServerAt(s, p, Recorded)
    case Shutdown(p) => ServerAt(s, p, Serving)
    case EraseRecord(p) => ServerAt(s, p, Draining)
    case RemoveSocket(p) => ServerAt(s, p, Unrecorded)
    case BeginStart(p) => p !in s.procs
    case Look(p) => StarterAt(s, p, Looking)
    case TakeSpawnLock(p) => StarterAt(s, p, Contending) && s.spawn.None?
    case Recheck(p) => StarterAt(s, p, Rechecking)
    case Spawn(p, child) => StarterAt(s, p, Spawning) && child !in s.procs
    case BeginStop(p) => p !in s.procs
    case Size(p) => IsStopper(s, p) && s.procs[p].stopping.Sizing?
    case StopWithSpawnLock(p) => IsStopper(s, p) && s.procs[p].stopping.Queueing? && s.spawn.None?
    case StopWithout(p) => IsStopper(s, p) && s.procs[p].stopping.Queueing?
    case TakeLock(p) => IsStopper(s, p) && (s.procs[p].stopping.Asking? || s.procs[p].stopping.Retrying?) && s.lock.None?
    case AskTimesOut(p) => IsStopper(s, p) && s.procs[p].stopping.Asking?
    case Kill(p) => IsStopper(s, p) && s.procs[p].stopping.Killing?
    case StopErases(p) => IsStopper(s, p) && s.procs[p].stopping.Taken?
    case StopCleans(p) => IsStopper(s, p) && s.procs[p].stopping.Erased?
    case Exit(p) => p in s.procs
  }

  /** The kernel releases what a process held when it ends. */
  function Ended(s: State, p: Pid): State {
    s.(procs := s.procs - {p},
       lock := if s.lock == Some(p) then None else s.lock,
       spawn := if s.spawn == Some(p) then None else s.spawn)
  }

  function Becomes(s: State, p: Pid, proc: Proc): State {
    s.(procs := s.procs[p := proc])
  }

  function Stops(s: State, p: Pid, stopping: StopperPhase): State
    requires IsStopper(s, p)
  {
    Becomes(s, p, s.procs[p].(stopping := stopping))
  }

  function Apply(s: State, step: Step): State
    requires Enabled(s, step)
  {
    match step
    case TryLock(p) => if s.lock.None? then Becomes(s, p, Server(Owning)).(lock := Some(p)) else Ended(s, p)
    case RemoveStale(p) => Becomes(s, p, Server(Swept)).(socket := None)
    case WriteRecord(p) => Becomes(s, p, Server(Recorded)).(record := Some(p))
    case Bind(p) => Becomes(s, p, Server(Serving)).(socket := Some(p))
    case BindFails(p) => Becomes(s, p, Server(Draining))
    case Shutdown(p) => Becomes(s, p, Server(Draining))
    case EraseRecord(p) => Becomes(s, p, Server(Unrecorded)).(record := None)
    case RemoveSocket(p) => Becomes(s, p, Server(Unbound)).(socket := None)
    case BeginStart(p) => Becomes(s, p, Starter(Looking))
    case Look(p) => if Running(s) then Ended(s, p) else Becomes(s, p, Starter(Contending))
    case TakeSpawnLock(p) => Becomes(s, p, Starter(Rechecking)).(spawn := Some(p))
    case Recheck(p) => if Running(s) then Ended(s, p) else Becomes(s, p, Starter(Spawning))
    case Spawn(p, child) => Becomes(Becomes(s, p, Starter(Awaiting)), child, Server(Launched))
    case BeginStop(p) => Becomes(s, p, Stopper(Sizing, false))
    case Size(p) => if !Running(s) && s.record.None? then Ended(s, p) else Stops(s, p, Queueing(s.record))
    case StopWithSpawnLock(p) => Becomes(s, p, Stopper(Asking(s.procs[p].stopping.known), true)).(spawn := Some(p))
    case StopWithout(p) => Stops(s, p, Asking(s.procs[p].stopping.known))
    case TakeLock(p) => Stops(s, p, Taken).(lock := Some(p))
    case AskTimesOut(p) => Stops(s, p, Killing(s.procs[p].stopping.known))
    case Kill(p) =>
      var known := s.procs[p].stopping.known;
      if known.None? then Stops(s, p, Retrying)
      else if known.value == p then Ended(s, p)
      else if known.value in s.procs then Stops(Ended(s, known.value), p, Retrying)
      else Stops(s, p, Retrying)
    case StopErases(p) => Stops(s, p, Erased).(record := None)
    case StopCleans(p) => Stops(s, p, Cleaned).(socket := None)
    case Exit(p) => Ended(s, p)
  }

  // ---- What every step keeps ----

  /** A process acts as the owner exactly when the kernel says that it holds the lock. */
  ghost predicate OwnerOk(s: State) {
    forall p: Pid :: s.lock == Some(p) <==> p in s.procs && ActsAsOwner(s.procs[p])
  }

  ghost predicate SpawnerOk(s: State) {
    forall p: Pid :: s.spawn == Some(p) <==> p in s.procs && ActsAsSpawner(s.procs[p])
  }

  /** What a process that acts as the owner may rely on. */
  ghost predicate FilesOk(s: State, p: Pid) {
    p in s.procs ==>
      match s.procs[p]
      case Server(phase) =>
        && (phase.Swept? || phase.Recorded? || phase.Unbound? ==> s.socket.None?)
        && (phase.Serving? ==> s.socket == Some(p))
        && (phase.Recorded? || phase.Serving? || phase.Draining? ==> s.record == Some(p))
        && (phase.Unrecorded? || phase.Unbound? ==> s.record.None?)
      case Starter(_) => true
      case Stopper(stopping, _) =>
        && (stopping.Erased? || stopping.Cleaned? ==> s.record.None?)
        && (stopping.Cleaned? ==> s.socket.None?)
  }

  ghost predicate Inv(s: State) {
    OwnerOk(s) && SpawnerOk(s) && forall p: Pid :: FilesOk(s, p)
  }

  lemma EndedOwner(s: State, p: Pid)
    requires OwnerOk(s)
    ensures OwnerOk(Ended(s, p))
  {
  }

  lemma KillOwner(s: State, p: Pid)
    requires OwnerOk(s) && Enabled(s, Kill(p))
    ensures OwnerOk(Apply(s, Kill(p)))
  {
    var known := s.procs[p].stopping.known;
    if known.Some? {
      EndedOwner(s, known.value);
    }
  }

  lemma ServerOwner(s: State, step: Step)
    requires OwnerOk(s) && Enabled(s, step) && !step.Exit? && step.p in s.procs && s.procs[step.p].Server?
    ensures OwnerOk(Apply(s, step))
  {
  }

  lemma StepOwner(s: State, step: Step)
    requires OwnerOk(s) && Enabled(s, step)
    ensures OwnerOk(Apply(s, step))
  {
    if step.Exit? {
      EndedOwner(s, step.p);
    } else if step.Kill? {
      KillOwner(s, step.p);
    } else if step.p in s.procs && s.procs[step.p].Server? {
      ServerOwner(s, step);
    }
  }

  lemma StepSpawner(s: State, step: Step)
    requires SpawnerOk(s) && Enabled(s, step)
    ensures SpawnerOk(Apply(s, step))
  {
  }

  lemma OwnerTouchesEndpoint(s: State, step: Step)
    requires OwnerOk(s) && Enabled(s, step)
    ensures var s' := Apply(s, step);
      s'.socket != s.socket || s'.record != s.record ==> s.lock == Some(step.p)
  {
  }

  lemma StepFiles(s: State, step: Step, p: Pid)
    requires Inv(s) && Enabled(s, step)
    ensures FilesOk(Apply(s, step), p)
  {
    var s' := Apply(s, step);
    assert FilesOk(s, p);
    if p in s.procs && p in s'.procs && s'.procs[p] == s.procs[p] && ActsAsOwner(s.procs[p]) {
      OwnerTouchesEndpoint(s, step);
    }
  }

  lemma StepInv(s: State, step: Step)
    requires Inv(s) && Enabled(s, step)
    ensures Inv(Apply(s, step))
  {
    StepOwner(s, step);
    StepSpawner(s, step);
    forall p: Pid ensures FilesOk(Apply(s, step), p) {
      StepFiles(s, step, p);
    }
  }

  function Run(steps: seq<Step>): Option<State> {
    if steps == [] then Some(Init)
    else
      var before := Run(steps[..|steps| - 1]);
      if before.Some? && Enabled(before.value, steps[|steps| - 1])
      then Some(Apply(before.value, steps[|steps| - 1]))
      else None
  }

  lemma {:induction false} RunInv(steps: seq<Step>)
    requires Run(steps).Some?
    ensures Inv(Run(steps).value)
  {
    if steps != [] {
      RunInv(steps[..|steps| - 1]);
      StepInv(Run(steps[..|steps| - 1]).value, steps[|steps| - 1]);
    }
  }

  // ---- Over whole runs ----

  /**
   Whatever crashes and however the steps interleave: at most one process acts as the owner and at
   most one as the spawner; at most one daemon serves, and its endpoint is there and is its own.
   */
  lemma Ownership(steps: seq<Step>)
    requires Run(steps).Some?
    ensures var s := Run(steps).value;
      && (forall p, q | p in s.procs && q in s.procs && ActsAsOwner(s.procs[p]) && ActsAsOwner(s.procs[q]) :: p == q)
      && (forall p, q | p in s.procs && q in s.procs && ActsAsSpawner(s.procs[p]) && ActsAsSpawner(s.procs[q]) :: p == q)
      && (forall p: Pid | ServerAt(s, p, Serving) :: s.lock == Some(p) && s.socket == Some(p) && s.record == Some(p) && Running(s))
  {
    RunInv(steps);
    var s := Run(steps).value;
    forall p: Pid | ServerAt(s, p, Serving) ensures s.lock == Some(p) && s.socket == Some(p) && s.record == Some(p) {
      assert FilesOk(s, p);
    }
  }

  /** Only the holder of the ownership lock creates or removes the endpoint files. */
  lemma OnlyOwnerTouchesEndpoint(steps: seq<Step>, step: Step)
    requires Run(steps).Some? && Enabled(Run(steps).value, step)
    ensures var s, s' := Run(steps).value, Apply(Run(steps).value, step);
      s'.socket != s.socket || s'.record != s.record ==> s.lock == Some(step.p)
  {
    RunInv(steps);
    OwnerTouchesEndpoint(Run(steps).value, step);
  }

  /** No process but the serving daemon itself changes its endpoint while it serves. */
  lemma ServingEndpointIsSafe(steps: seq<Step>, step: Step, q: Pid)
    requires Run(steps).Some? && Enabled(Run(steps).value, step) && ServerAt(Run(steps).value, q, Serving)
    ensures var s, s' := Run(steps).value, Apply(Run(steps).value, step);
      step.p != q ==> s'.socket == s.socket == Some(q) && s'.record == s.record == Some(q)
  {
    RunInv(steps);
    var s := Run(steps).value;
    assert FilesOk(s, q);
    OwnerTouchesEndpoint(s, step);
  }

  /** A server that holds the lock always finds the socket free to bind. */
  lemma BindFindsNoSocket(steps: seq<Step>, p: Pid)
    requires Run(steps).Some? && ServerAt(Run(steps).value, p, Recorded)
    ensures Enabled(Run(steps).value, Bind(p))
  {
    RunInv(steps);
    assert FilesOk(Run(steps).value, p);
  }

  /** Only the holder of the spawn lock spawns, and it spawns only what still has to take the ownership lock. */
  lemma OnlySpawnerSpawns(steps: seq<Step>, step: Step, child: Pid)
    requires Run(steps).Some? && Enabled(Run(steps).value, step)
    requires var s' := Apply(Run(steps).value, step); child !in Run(steps).value.procs && child in s'.procs && s'.procs[child].Server?
    ensures var s := Run(steps).value; step.Spawn? && step.child == child && s.spawn == Some(step.p)
    ensures Apply(Run(steps).value, step).procs[child] == Server(Launched)
  {
    RunInv(steps);
  }

  /** When a stop has cleaned up, no daemon owns the workspace and its endpoint is gone. */
  lemma StopMeansGone(steps: seq<Step>, p: Pid)
    requires Run(steps).Some? && IsStopper(Run(steps).value, p) && Run(steps).value.procs[p].stopping.Cleaned?
    ensures var s := Run(steps).value;
      s.socket.None? && s.record.None? && !Running(s) && forall q | q in s.procs && s.procs[q].Server? :: s.procs[q].phase.Launched?
  {
    RunInv(steps);
    var s := Run(steps).value;
    assert FilesOk(s, p) && s.lock == Some(p);
  }

  // ---- Acquiring a client ----

  datatype Handshake = Use | Restart

  /** What the `n`-th connection attempt, handshake and stop bring. */
  datatype Encounter = Encounter(connects: nat -> bool, greets: nat -> Handshake, stops: nat -> bool)

  /** Connects, replacing a daemon of another version at most once. */
  method Acquire(with: Encounter) returns (acquired: bool, stopped: nat)
    ensures stopped <= 1
    ensures acquired <==>
      && with.connects(0)
      && (with.greets(0).Use? || (with.stops(0) && with.connects(1) && with.greets(1).Use?))
  {
    var restarted, attempt := false, 0;
    stopped := 0;
    while true
      invariant attempt <= 1 && (restarted <==> attempt == 1) && stopped == attempt
      invariant restarted ==> with.connects(0) && with.greets(0).Restart? && with.stops(0)
      decreases 1 - attempt
    {
      if !with.connects(attempt) {
        return false, stopped;
      }
      match with.greets(attempt)
      case Use => return true, stopped;
      case Restart =>
        if restarted {
          return false, stopped;
        }
        stopped := stopped + 1;
        if !with.stops(attempt) {
          return false, stopped;
        }
        restarted, attempt := true, attempt + 1;
    }
  }
}
