/**
 When clients start and stop a daemon: a start spawns exactly if no daemon accepts connections, and
 from every state a start can bring a daemon up and a stop can bring it down.
 */
module DaemonProgress {
  import opened Actions
  import opened DaemonOwnership

  lemma RunSnoc(steps: seq<Step>, step: Step)
    requires Run(steps).Some? && Enabled(Run(steps).value, step)
    ensures Run(steps + [step]) == Some(Apply(Run(steps).value, step))
  {
    assert (steps + [step])[..|steps|] == steps;
  }

  lemma RunSplit(steps: seq<Step>, step: Step)
    requires Run(steps + [step]).Some?
    ensures Run(steps).Some? && Enabled(Run(steps).value, step) && Run(steps + [step]) == Some(Apply(Run(steps).value, step))
  {
    assert (steps + [step])[..|steps|] == steps;
  }

  // ---- A process that has ended ----

  /** A process with this id comes to life. */
  predicate Begins(step: Step, p: Pid) {
    step == BeginStart(p) || step == BeginStop(p) || (step.Spawn? && step.child == p)
  }

  /** The process has ended, and takes no step in what follows. */
  ghost predicate Over(more: seq<Step>, p: Pid) {
    (forall step | step in more :: !Begins(step, p)) ==> forall step | step in more :: step.p != p
  }

  lemma EndedStays(s: State, step: Step, p: Pid)
    requires p !in s.procs && Enabled(s, step) && !Begins(step, p)
    ensures step.p != p && p !in Apply(s, step).procs
  {
  }

  lemma {:induction false} EndedIsOver(steps: seq<Step>, more: seq<Step>, p: Pid)
    requires Run(steps + more).Some? && Run(steps).Some? && p !in Run(steps).value.procs
    ensures Over(more, p)
    ensures (forall step | step in more :: !Begins(step, p)) ==> p !in Run(steps + more).value.procs
  {
    if more == [] {
      assert steps + more == steps;
    } else {
      var most, step := more[..|more| - 1], more[|more| - 1];
      assert more == most + [step] && steps + more == (steps + most) + [step];
      RunSplit(steps + most, step);
      EndedIsOver(steps, most, p);
      if forall step | step in more :: !Begins(step, p) {
        assert step in more;
        EndedStays(Run(steps + most).value, step, p);
      }
    }
  }

  /**
   A start that looks while a daemon accepts connections, before or after it took the spawn lock, a stop that
   finds neither a daemon nor its record, and a server that finds the ownership lock taken are over: they take
   no further step.
   */
  lemma NothingToDo(steps: seq<Step>, step: Step, more: seq<Step>)
    requires Run(steps).Some? && Run(steps + [step] + more).Some?
    requires var s := Run(steps).value;
      || ((step.Look? || step.Recheck?) && Running(s))
      || (step.Size? && !Running(s) && s.record.None?)
      || (step.TryLock? && s.lock.Some?)
    ensures Over(more, step.p)
  {
    RunPrefix(steps + [step], more);
    RunSplit(steps, step);
    EndedIsOver(steps + [step], more, step.p);
  }

  lemma {:induction false} RunPrefix(steps: seq<Step>, more: seq<Step>)
    requires Run(steps + more).Some?
    ensures Run(steps).Some?
  {
    if more == [] {
      assert steps + more == steps;
    } else {
      var most, step := more[..|more| - 1], more[|more| - 1];
      assert steps + more == (steps + most) + [step];
      RunSplit(steps + most, step);
      RunPrefix(steps, most);
    }
  }

  // ---- A server is spawned only if it was found missing ----

  /** At some point the process took the step while no daemon accepted connections. */
  ghost predicate FoundNone(steps: seq<Step>, step: Step) {
    exists k | 0 <= k < |steps| :: steps[k] == step && Run(steps[..k]).Some? && !Running(Run(steps[..k]).value)
  }

  /** A starter that got past its looks found no daemon. */
  ghost predicate LooksOk(steps: seq<Step>, s: State, p: Pid) {
    p in s.procs && s.procs[p].Starter? ==>
      && (!s.procs[p].starting.Looking? ==> FoundNone(steps, Look(p)))
      && (s.procs[p].starting.Spawning? || s.procs[p].starting.Awaiting? ==> FoundNone(steps, Recheck(p)))
  }

  lemma FoundNoneMore(steps: seq<Step>, more: Step, step: Step)
    requires FoundNone(steps, step)
    ensures FoundNone(steps + [more], step)
  {
    var k :| 0 <= k < |steps| && steps[k] == step && Run(steps[..k]).Some? && !Running(Run(steps[..k]).value);
    assert (steps + [more])[..k] == steps[..k] && (steps + [more])[k] == step;
  }

  lemma FoundNoneNow(steps: seq<Step>, step: Step)
    requires Run(steps).Some? && !Running(Run(steps).value)
    ensures FoundNone(steps + [step], step)
  {
    assert (steps + [step])[..|steps|] == steps && (steps + [step])[|steps|] == step;
  }

  /** A starter moves on one phase at a time, and past its looks only if no daemon accepts connections. */
  ghost predicate StarterMoves(s: State, step: Step, s': State, p: Pid) {
    p in s'.procs && s'.procs[p].Starter? ==>
      || s'.procs[p].starting.Looking?
      || (p in s.procs && s.procs[p] == s'.procs[p])
      || (p in s.procs && s.procs[p].Starter? && !s.procs[p].starting.Looking? && s'.procs[p].starting.Rechecking?)
      || (p in s.procs && s.procs[p].Starter? && s.procs[p].starting.Spawning?)
      || (step == Look(p) && !Running(s) && s'.procs[p].starting.Contending?)
      || (step == Recheck(p) && !Running(s) && p in s.procs && s.procs[p].Starter? && !s.procs[p].starting.Looking?)
  }

  lemma StepMovesStarter(s: State, step: Step, p: Pid)
    requires Enabled(s, step)
    ensures StarterMoves(s, step, Apply(s, step), p)
  {
  }

  lemma LooksStep(steps: seq<Step>, step: Step, p: Pid)
    requires Run(steps).Some? && Enabled(Run(steps).value, step) && LooksOk(steps, Run(steps).value, p)
    ensures LooksOk(steps + [step], Apply(Run(steps).value, step), p)
  {
    var s := Run(steps).value;
    StepMovesStarter(s, step, p);
    LooksMove(steps, s, step, Apply(s, step), p);
  }

  lemma LooksMove(steps: seq<Step>, s: State, step: Step, s': State, p: Pid)
    requires Run(steps) == Some(s) && LooksOk(steps, s, p) && StarterMoves(s, step, s', p)
    ensures LooksOk(steps + [step], s', p)
  {
    if FoundNone(steps, Look(p)) {
      FoundNoneMore(steps, step, Look(p));
    }
    if FoundNone(steps, Recheck(p)) {
      FoundNoneMore(steps, step, Recheck(p));
    }
    if (step == Look(p) || step == Recheck(p)) && !Running(s) {
      FoundNoneNow(steps, step);
    }
  }

  lemma {:induction false} RunLooks(steps: seq<Step>, p: Pid)
    requires Run(steps).Some?
    ensures LooksOk(steps, Run(steps).value, p)
  {
    if steps != [] {
      var most, step := steps[..|steps| - 1], steps[|steps| - 1];
      assert steps == most + [step];
      RunLooks(most, p);
      LooksStep(most, step, p);
    }
  }

  /** Whoever spawns a server found twice that no daemon accepted connections, the second time with the spawn lock. */
  lemma SpawnWasNeeded(steps: seq<Step>, p: Pid, child: Pid)
    requires Run(steps).Some? && Enabled(Run(steps).value, Spawn(p, child))
    ensures FoundNone(steps, Look(p)) && FoundNone(steps, Recheck(p)) && Run(steps).value.spawn == Some(p)
  {
    RunInv(steps);
    RunLooks(steps, p);
  }

  // ---- Bringing a daemon up ----

  /** A continuation of a run that takes only the steps allowed. */
  ghost predicate Goes(allowed: iset<Step>, steps: seq<Step>, more: seq<Step>, s: State) {
    Run(steps + more) == Some(s) && forall step | step in more :: step in allowed
  }

  lemma GoesOn(allowed: iset<Step>, steps: seq<Step>, more: seq<Step>, s: State, step: Step)
    requires Goes(allowed, steps, more, s) && Enabled(s, step) && step in allowed
    ensures Goes(allowed, steps, more + [step], Apply(s, step))
  {
    assert steps + (more + [step]) == (steps + more) + [step];
    RunSnoc(steps + more, step);
  }

  /** A server that was launched while nobody owns the workspace comes to accept connections. */
  lemma ServerComesUp(allowed: iset<Step>, steps: seq<Step>, more: seq<Step>, s: State, q: Pid) returns (longer: seq<Step>, s': State)
    requires Goes(allowed, steps, more, s) && ServerAt(s, q, Launched) && s.lock.None?
    requires forall step: Step | step.p == q && !step.Kill? :: step in allowed
    ensures Goes(allowed, steps, longer, s') && ServerAt(s', q, Serving) && Running(s') && s'.socket == Some(q)
  {
    GoesOn(allowed, steps, more, s, TryLock(q));
    longer, s' := more + [TryLock(q)], Apply(s, TryLock(q));
    GoesOn(allowed, steps, longer, s', RemoveStale(q));
    longer, s' := longer + [RemoveStale(q)], Apply(s', RemoveStale(q));
    GoesOn(allowed, steps, longer, s', WriteRecord(q));
    longer, s' := longer + [WriteRecord(q)], Apply(s', WriteRecord(q));
    GoesOn(allowed, steps, longer, s', Bind(q));
    longer, s' := longer + [Bind(q)], Apply(s', Bind(q));
  }

  /** A start that finds no daemon and a free spawn lock launches a server. */
  lemma StarterSpawns(allowed: iset<Step>, steps: seq<Step>, more: seq<Step>, s: State, p: Pid, q: Pid) returns (longer: seq<Step>, s': State)
    requires Goes(allowed, steps, more, s) && StarterAt(s, p, Looking) && !Running(s) && s.spawn.None? && q !in s.procs
    requires forall step: Step | step.p == p && !step.Kill? :: step in allowed
    ensures Goes(allowed, steps, longer, s') && ServerAt(s', q, Launched) && s'.lock == s.lock
  {
    GoesOn(allowed, steps, more, s, Look(p));
    longer, s' := more + [Look(p)], Apply(s, Look(p));
    GoesOn(allowed, steps, longer, s', TakeSpawnLock(p));
    longer, s' := longer + [TakeSpawnLock(p)], Apply(s', TakeSpawnLock(p));
    GoesOn(allowed, steps, longer, s', Recheck(p));
    longer, s' := longer + [Recheck(p)], Apply(s', Recheck(p));
    GoesOn(allowed, steps, longer, s', Spawn(p, q));
    longer, s' := longer + [Spawn(p, q)], Apply(s', Spawn(p, q));
  }

  lemma {:induction false} UnusedPid(used: set<Pid>) returns (p: Pid)
    ensures forall q | q in used :: q < p
    decreases |used|
  {
    if used == {} {
      p := 0;
    } else {
      var q :| q in used;
      var r := UnusedPid(used - {q});
      p := if q < r then r else q + 1;
      forall x | x in used ensures x < p {
        assert x == q || x in used - {q};
      }
    }
  }

  /** The process that holds a lock ends, and the kernel frees the lock. */
  lemma LocksCanBeFreed(allowed: iset<Step>, steps: seq<Step>, p: Pid) returns (more: seq<Step>, s: State)
    requires Run(steps).Some? && StarterAt(Run(steps).value, p, Looking) && !Running(Run(steps).value)
    requires forall step: Step | !step.Kill? :: step in allowed
    ensures Goes(allowed, steps, more, s) && StarterAt(s, p, Looking) && !Running(s) && s.lock.None? && s.spawn.None?
  {
    RunInv(steps);
    more, s := [], Run(steps).value;
    assert steps + more == steps;
    if s.lock.Some? {
      var owner := s.lock.value;
      assert owner in s.procs && owner != p;
      StepInv(s, Exit(owner));
      GoesOn(allowed, steps, more, s, Exit(owner));
      more, s := more + [Exit(owner)], Apply(s, Exit(owner));
    }
    if s.spawn.Some? {
      var spawner := s.spawn.value;
      assert spawner in s.procs && spawner != p;
      GoesOn(allowed, steps, more, s, Exit(spawner));
      more, s := more + [Exit(spawner)], Apply(s, Exit(spawner));
    }
  }

  /** From every state of every run with a start that has yet to look, there is a way to a daemon that accepts connections. */
  lemma StartCanSucceed(steps: seq<Step>, p: Pid) returns (more: seq<Step>)
    requires Run(steps).Some? && StarterAt(Run(steps).value, p, Looking)
    ensures Run(steps + more).Some? && Running(Run(steps + more).value)
  {
    if Running(Run(steps).value) {
      more := [];
      assert steps + more == steps;
    } else {
      var allowed := iset step: Step | !step.Kill?;
      var s;
      more, s := LocksCanBeFreed(allowed, steps, p);
      var q := UnusedPid(s.procs.Keys);
      more, s := StarterSpawns(allowed, steps, more, s, p, q);
      more, s := ServerComesUp(allowed, steps, more, s, q);
    }
  }

  /** With both locks free that takes the steps of the start and of the server it spawns only. */
  lemma StartAloneSucceeds(steps: seq<Step>, p: Pid, q: Pid) returns (more: seq<Step>)
    requires Run(steps).Some? && StarterAt(Run(steps).value, p, Looking) && q !in Run(steps).value.procs
    requires Run(steps).value.lock.None? && Run(steps).value.spawn.None?
    ensures Run(steps + more).Some? && Running(Run(steps + more).value) && Run(steps + more).value.socket == Some(q)
    ensures forall step | step in more :: step.p == p || step.p == q
  {
    RunInv(steps);
    var allowed := iset step: Step | step.p == p || step.p == q;
    var s := Run(steps).value;
    assert steps + [] == steps;
    assert !Running(s) by {
      assert s.socket.Some? && s.socket.value in s.procs ==> !ActsAsOwner(s.procs[s.socket.value]);
    }
    more, s := StarterSpawns(allowed, steps, [], s, p, q);
    more, s := ServerComesUp(allowed, steps, more, s, q);
  }

  // ---- Bringing it down ----

  /** A stop that sizes up a serving daemon gets in line for the ownership lock, and knows whom to kill. */
  lemma StopperAsks(allowed: iset<Step>, steps: seq<Step>, p: Pid, q: Pid) returns (more: seq<Step>, s: State)
    requires Run(steps).Some? && IsStopper(Run(steps).value, p) && Run(steps).value.procs[p].stopping.Sizing?
    requires ServerAt(Run(steps).value, q, Serving)
    requires forall step: Step | step.p == p && !step.Kill? :: step in allowed
    ensures Goes(allowed, steps, more, s) && IsStopper(s, p) && s.procs[p].stopping == Asking(Some(q)) && ServerAt(s, q, Serving)
  {
    RunInv(steps);
    more, s := [], Run(steps).value;
    assert steps + more == steps && FilesOk(s, q);
    GoesOn(allowed, steps, more, s, Size(p));
    more, s := [Size(p)], Apply(s, Size(p));
    GoesOn(allowed, steps, more, s, StopWithout(p));
    more, s := more + [StopWithout(p)], Apply(s, StopWithout(p));
  }

  /** A stop that holds the ownership lock removes the endpoint. */
  lemma StopperCleans(allowed: iset<Step>, steps: seq<Step>, more: seq<Step>, s: State, p: Pid) returns (longer: seq<Step>, s': State)
    requires Goes(allowed, steps, more, s) && IsStopper(s, p) && (s.procs[p].stopping.Asking? || s.procs[p].stopping.Retrying?) && s.lock.None?
    requires forall step: Step | step.p == p && !step.Kill? :: step in allowed
    ensures Goes(allowed, steps, longer, s') && IsStopper(s', p) && s'.procs[p].stopping.Cleaned?
  {
    GoesOn(allowed, steps, more, s, TakeLock(p));
    longer, s' := more + [TakeLock(p)], Apply(s, TakeLock(p));
    GoesOn(allowed, steps, longer, s', StopErases(p));
    longer, s' := longer + [StopErases(p)], Apply(s', StopErases(p));
    GoesOn(allowed, steps, longer, s', StopCleans(p));
    longer, s' := longer + [StopCleans(p)], Apply(s', StopCleans(p));
  }

  /** A daemon that is asked to stop removes its endpoint and releases the lock. */
  lemma ServerGoesDown(allowed: iset<Step>, steps: seq<Step>, more: seq<Step>, s: State, p: Pid, q: Pid) returns (longer: seq<Step>, s': State)
    requires Goes(allowed, steps, more, s) && IsStopper(s, p) && ServerAt(s, q, Serving) && s.lock == Some(q)
    requires forall step: Step | step.p == q && !step.Kill? :: step in allowed
    ensures Goes(allowed, steps, longer, s') && IsStopper(s', p) && s'.procs[p] == s.procs[p] && s'.lock.None?
  {
    GoesOn(allowed, steps, more, s, Shutdown(q));
    longer, s' := more + [Shutdown(q)], Apply(s, Shutdown(q));
    GoesOn(allowed, steps, longer, s', EraseRecord(q));
    longer, s' := longer + [EraseRecord(q)], Apply(s', EraseRecord(q));
    GoesOn(allowed, steps, longer, s', RemoveSocket(q));
    longer, s' := longer + [RemoveSocket(q)], Apply(s', RemoveSocket(q));
    GoesOn(allowed, steps, longer, s', Exit(q));
    longer, s' := longer + [Exit(q)], Apply(s', Exit(q));
  }

  /** A stop that sizes up a serving daemon can clean up, if the daemon does as it is asked. */
  lemma StopCanSucceed(steps: seq<Step>, p: Pid, q: Pid) returns (more: seq<Step>)
    requires Run(steps).Some? && IsStopper(Run(steps).value, p) && Run(steps).value.procs[p].stopping.Sizing?
    requires ServerAt(Run(steps).value, q, Serving)
    ensures Run(steps + more).Some? && IsStopper(Run(steps + more).value, p) && Run(steps + more).value.procs[p].stopping.Cleaned?
    ensures Kill(p) !in more
  {
    var allowed := iset step: Step | !step.Kill?;
    var s;
    more, s := StopperAsks(allowed, steps, p, q);
    RunInv(steps + more);
    more, s := ServerGoesDown(allowed, steps, more, s, p, q);
    more, s := StopperCleans(allowed, steps, more, s, p);
  }

  /** It can clean up even if the daemon takes no step, because it kills it. */
  lemma StopCanForce(steps: seq<Step>, p: Pid, q: Pid) returns (more: seq<Step>)
    requires Run(steps).Some? && IsStopper(Run(steps).value, p) && Run(steps).value.procs[p].stopping.Sizing?
    requires ServerAt(Run(steps).value, q, Serving)
    ensures Run(steps + more).Some? && IsStopper(Run(steps + more).value, p) && Run(steps + more).value.procs[p].stopping.Cleaned?
    ensures forall step | step in more :: step.p == p
  {
    var allowed := iset step: Step | step.p == p;
    var s;
    more, s := StopperAsks(allowed, steps, p, q);
    RunInv(steps + more);
    GoesOn(allowed, steps, more, s, AskTimesOut(p));
    more, s := more + [AskTimesOut(p)], Apply(s, AskTimesOut(p));
    GoesOn(allowed, steps, more, s, Kill(p));
    more, s := more + [Kill(p)], Apply(s, Kill(p));
    more, s := StopperCleans(allowed, steps, more, s, p);
  }

  /** A stop that finds the record of a daemon which is gone cleans up after it, on its own. */
  lemma StopCleansLeftovers(steps: seq<Step>, p: Pid) returns (more: seq<Step>)
    requires Run(steps).Some? && IsStopper(Run(steps).value, p) && Run(steps).value.procs[p].stopping.Sizing?
    requires Run(steps).value.record.Some? && Run(steps).value.lock.None?
    ensures Run(steps + more).Some? && IsStopper(Run(steps + more).value, p) && Run(steps + more).value.procs[p].stopping.Cleaned?
    ensures forall step | step in more :: step.p == p
  {
    var allowed := iset step: Step | step.p == p;
    var s := Run(steps).value;
    more := [];
    assert steps + more == steps;
    GoesOn(allowed, steps, more, s, Size(p));
    more, s := [Size(p)], Apply(s, Size(p));
    GoesOn(allowed, steps, more, s, StopWithout(p));
    more, s := more + [StopWithout(p)], Apply(s, StopWithout(p));
    more, s := StopperCleans(allowed, steps, more, s, p);
  }
}
