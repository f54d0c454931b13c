/**
 The two tokens of the pipeline: which results set the abort token, what a set token keeps from
 running, and what the jobs it stops report.
 */
module PipelineTokens {
  import opened Actions
  import opened ActionGraphs
  import opened Digraph
  import opened Dispatch
  import opened Pipeline
  import opened PipelineSafety

  /** The kinds of results that end a pipeline. */
  predicate Fatal(bail: bool, action: Action) {
    || action.status == Aborted || action.lastExecutionAborted
    || (bail && !action.allowFailure && (action.status == Failed || action.status == TimedOut))
  }

  lemma FatalAborts(c: Config, action: Action)
    ensures c.ShouldAbort(action) <==> Fatal(c.bail, action)
  {
  }

  /** Nothing that requires a node with a fatal result has begun its body, or ever does. */
  lemma FatalStopsAbove(c: Config, steps: seq<Step>, more: seq<Step>, failed: NodeIndex, x: NodeIndex)
    requires c.Valid() && Replay(c, steps).Some? && Replay(c, steps + more).Some?
    requires failed in Replay(c, steps).value.outcomes && Fatal(c.bail, Replay(c, steps).value.outcomes[failed])
    requires !c.Persistent(failed) && StrictlyReaches(c.graph.Edges(), x, failed)
    ensures x !in Replay(c, steps + more).value.started
  {
    FatalAborts(c, Replay(c, steps).value.outcomes[failed]);
    NoBodyAboveAbort(c, steps, more, failed, x);
  }

  // ---- Where results come from ----

  /** A job that knows its result. */
  predicate Knows(phase: Phase) {
    phase.Sending? || phase.Unlisting? || phase.Completing? || phase.Reporting? || phase.Releasing?
  }

  /** The result is what the body ended with, or says that a token was set. */
  ghost predicate FromBody(taken: set<Step>, s: State, x: NodeIndex, action: Action) {
    exists body :: FinishBody(x, body) in taken &&
      (|| action == body
       || (s.abort && action == body.(status := Aborted))
       || (s.cancel && action == body.(status := Skipped)))
  }

  /** A job whose body was not run says so, and which token was set. */
  ghost predicate Honest(taken: set<Step>, s: State, x: NodeIndex, action: Action) {
    if x in s.started then FromBody(taken, s, x, action)
    else (s.abort && action == Unstarted(Aborted)) || (s.cancel && action == Unstarted(Skipped))
  }

  ghost predicate JobHonest(taken: set<Step>, s: State, x: NodeIndex)
    requires x in s.jobs
  {
    var phase := s.jobs[x];
    && (phase.Waiting? || phase.Admitted? || phase.Cleared? ==> x !in s.started)
    && (phase.Running? ==> x in s.started)
    && (phase.Ran? || phase.Rechecked? ==> x in s.started && FinishBody(x, phase.action) in taken)
    && (Knows(phase) ==> Honest(taken, s, x, phase.action))
  }

  /** The abort token was set for a reason: a body that was run had a fatal result. */
  ghost predicate Caused(c: Config, s: State) {
    s.abort ==> exists x :: x in s.started && x in s.outcomes && Fatal(c.bail, s.outcomes[x])
  }

  ghost predicate TokensOk(c: Config, taken: set<Step>, s: State) {
    && s.started <= s.jobs.Keys && Caused(c, s)
    && (forall x | x in s.jobs :: JobHonest(taken, s, x))
    && (forall x | x in s.outcomes :: Honest(taken, s, x, s.outcomes[x]))
  }

  /** More steps were taken and tokens set, and no body of another job was begun. */
  ghost predicate Later(taken: set<Step>, s: State, taken': set<Step>, s': State, x: NodeIndex) {
    taken <= taken' && (s.abort ==> s'.abort) && (s.cancel ==> s'.cancel) && (x in s.started <==> x in s'.started)
  }

  lemma HonestLater(taken: set<Step>, s: State, taken': set<Step>, s': State, x: NodeIndex, action: Action)
    requires Later(taken, s, taken', s', x) && Honest(taken, s, x, action)
    ensures Honest(taken', s', x, action)
  {
    if x in s.started {
      var body :| FinishBody(x, body) in taken &&
        (|| action == body
         || (s.abort && action == body.(status := Aborted))
         || (s.cancel && action == body.(status := Skipped)));
      assert FinishBody(x, body) in taken';
    }
  }

  lemma JobLater(taken: set<Step>, s: State, taken': set<Step>, s': State, x: NodeIndex)
    requires x in s.jobs && x in s'.jobs && s'.jobs[x] == s.jobs[x]
    requires Later(taken, s, taken', s', x) && JobHonest(taken, s, x)
    ensures JobHonest(taken', s', x)
  {
    if Knows(s.jobs[x]) {
      HonestLater(taken, s, taken', s', x, s.jobs[x].action);
    }
  }

  lemma DispatcherTokens(c: Config, taken: set<Step>, s: State, step: Step)
    requires c.Valid() && ControlOk(c, s) && LaunchOk(c, s) && DispatcherEnabled(c, s, step) && TokensOk(c, taken, s)
    ensures TokensOk(c, taken + {step}, DispatcherApply(c, s, step))
  {
    var s' := DispatcherApply(c, s, step);
    DispatcherAddsJobs(c, s, step);
    DispatcherKeepsTokens(c, s, step);
    forall x | x in s'.jobs ensures JobHonest(taken + {step}, s', x) {
      if x in s.jobs {
        JobLater(taken, s, taken + {step}, s', x);
      }
    }
    forall x | x in s'.outcomes ensures Honest(taken + {step}, s', x, s'.outcomes[x]) {
      HonestLater(taken, s, taken + {step}, s', x, s.outcomes[x]);
    }
  }

  lemma DispatcherKeepsTokens(c: Config, s: State, step: Step)
    requires c.Valid() && DispatcherEnabled(c, s, step)
    ensures DispatcherApply(c, s, step).abort == s.abort && DispatcherApply(c, s, step).cancel == s.cancel
  {
  }

  lemma JobStarts(c: Config, s: State, step: Step)
    requires JobEnabled(c, s, step)
    ensures JobApply(c, s, step).started == if step.CheckCancel? && !s.cancel then s.started + {step.x} else s.started
  {
  }

  /** The job that takes the step. */
  lemma OwnHonest(c: Config, taken: set<Step>, s: State, step: Step)
    requires JobEnabled(c, s, step) && !step.Signal? && JobHonest(taken, s, step.x)
    ensures step.x in JobApply(c, s, step).jobs && JobHonest(taken + {step}, JobApply(c, s, step), step.x)
  {
    var x, s' := step.x, JobApply(c, s, step);
    if Knows(s.jobs[x]) {
      HonestLater(taken, s, taken + {step}, s', x, s.jobs[x].action);
    } else if Knows(s'.jobs[x]) && x in s.started {
      assert FinishBody(x, s.jobs[x].action) in taken + {step};
    }
  }

  lemma JobTokens(c: Config, taken: set<Step>, s: State, step: Step)
    requires JobsOk(c, s) && JobEnabled(c, s, step) && !step.Signal? && TokensOk(c, taken, s)
    ensures TokensOk(c, taken + {step}, JobApply(c, s, step))
  {
    var x, s', more := step.x, JobApply(c, s, step), taken + {step};
    assert JobOk(c, s, x) && JobHonest(taken, s, x);
    JobStepFrame(c, s, step);
    JobStarts(c, s, step);
    OwnHonest(c, taken, s, step);
    forall y | y in s'.jobs ensures JobHonest(more, s', y) {
      if y != x {
        JobLater(taken, s, more, s', y);
      }
    }
    forall y | y in s'.outcomes ensures Honest(more, s', y, s'.outcomes[y]) {
      if step.SendAbort? && y == x {
        HonestLater(taken, s, more, s', x, s.jobs[x].action);
      } else {
        HonestLater(taken, s, more, s', y, s.outcomes[y]);
      }
    }
    JobCaused(c, taken, s, step);
  }

  /** Only a body that was run can be the first to set the abort token. */
  lemma JobCaused(c: Config, taken: set<Step>, s: State, step: Step)
    requires JobEnabled(c, s, step) && !step.Signal? && Caused(c, s) && JobOk(c, s, step.x) && JobHonest(taken, s, step.x)
    ensures Caused(c, JobApply(c, s, step))
  {
    var x, s' := step.x, JobApply(c, s, step);
    JobStepFrame(c, s, step);
    JobStarts(c, s, step);
    if s.abort {
      var y :| y in s.started && y in s.outcomes && Fatal(c.bail, s.outcomes[y]);
      assert y in s'.started && y in s'.outcomes && s'.outcomes[y] == s.outcomes[y];
    } else if s'.abort {
      FatalAborts(c, s.jobs[x].action);
      assert x in s'.started && x in s'.outcomes && Fatal(c.bail, s'.outcomes[x]);
    }
  }

  lemma SignalTokens(c: Config, taken: set<Step>, s: State)
    requires TokensOk(c, taken, s)
    ensures TokensOk(c, taken + {Signal}, s.(cancel := true))
  {
    var s', more := s.(cancel := true), taken + {Signal};
    forall x | x in s.jobs ensures JobHonest(more, s', x) {
      JobLater(taken, s, more, s', x);
    }
    forall x | x in s.outcomes ensures Honest(more, s', x, s.outcomes[x]) {
      HonestLater(taken, s, more, s', x, s.outcomes[x]);
    }
  }

  lemma {:induction false} RunTokens(c: Config, steps: seq<Step>)
    requires c.Valid() && Replay(c, steps).Some?
    ensures TokensOk(c, (set step | step in steps), Replay(c, steps).value)
  {
    if steps != [] {
      var before, step := steps[..|steps| - 1], steps[|steps| - 1];
      RunTokens(c, before);
      RunInv(c, before);
      StepTokens(c, (set t | t in before), Replay(c, before).value, step);
      assert (set t | t in steps) == (set t | t in before) + {step} by {
        assert steps == before + [step];
      }
    }
  }

  lemma StepTokens(c: Config, taken: set<Step>, s: State, step: Step)
    requires c.Valid() && Inv(c, s) && Enabled(c, s, step) && TokensOk(c, taken, s)
    ensures TokensOk(c, taken + {step}, Apply(c, s, step))
  {
    if DispatcherEnabled(c, s, step) {
      DispatcherTokens(c, taken, s, step);
    } else if step.Signal? {
      SignalTokens(c, taken, s);
    } else {
      JobTokens(c, taken, s, step);
    }
  }

  /** In every run the abort token is set exactly if some result is fatal, and then that of some body that was run. */
  lemma AbortIffFatal(c: Config, steps: seq<Step>)
    requires c.Valid() && Replay(c, steps).Some?
    ensures var s := Replay(c, steps).value;
      && (s.abort <==> exists x :: x in s.outcomes && Fatal(c.bail, s.outcomes[x]))
      && (s.abort <==> exists x :: x in s.started && x in s.outcomes && Fatal(c.bail, s.outcomes[x]))
  {
    RunInv(c, steps);
    RunTokens(c, steps);
    var s := Replay(c, steps).value;
    forall x | x in s.outcomes && Fatal(c.bail, s.outcomes[x]) ensures s.abort {
      FatalAborts(c, s.outcomes[x]);
    }
  }

  /**
   In every run a result is what the body of its node ended with, or says `Aborted` or `Skipped` because a token
   was set; a node whose body was not run says one of these.
   */
  lemma ResultsAreHonest(c: Config, steps: seq<Step>, x: NodeIndex)
    requires c.Valid() && Replay(c, steps).Some? && x in Replay(c, steps).value.outcomes
    ensures var s := Replay(c, steps).value;
      if x in s.started then
        exists body :: FinishBody(x, body) in steps &&
          (|| s.outcomes[x] == body
           || (s.abort && s.outcomes[x] == body.(status := Aborted))
           || (s.cancel && s.outcomes[x] == body.(status := Skipped)))
      else (s.abort && s.outcomes[x] == Action(Aborted, false, false)) || (s.cancel && s.outcomes[x] == Action(Skipped, false, false))
  {
    RunTokens(c, steps);
    var s, taken := Replay(c, steps).value, set step | step in steps;
    assert Honest(taken, s, x, s.outcomes[x]);
  }

  // ---- What a set token stops ----

  /** After a signal no further body is begun. */
  lemma {:induction false} SignalStopsBodies(c: Config, steps: seq<Step>, more: seq<Step>)
    requires c.Valid() && Replay(c, steps + more).Some?
    ensures Replay(c, steps).Some?
    ensures Replay(c, steps).value.cancel ==>
      Replay(c, steps + more).value.cancel && Replay(c, steps + more).value.started == Replay(c, steps).value.started
  {
    if more == [] {
      assert steps + more == steps;
    } else {
      var shorter, step := steps + more[..|more| - 1], more[|more| - 1];
      assert (steps + more)[..|steps + more| - 1] == shorter && (steps + more)[|steps + more| - 1] == step;
      SignalStopsBodies(c, steps, more[..|more| - 1]);
      RunInv(c, shorter);
      TokensStay(c, Replay(c, shorter).value, step);
    }
  }

  lemma TokensStay(c: Config, s: State, step: Step)
    requires c.Valid() && Inv(c, s) && Enabled(c, s, step)
    ensures var s' := Apply(c, s, step);
      && (s.abort ==> s'.abort) && (s.cancel ==> s'.cancel)
      && s'.started == if step.CheckCancel? && !s.cancel then s.started + {step.x} else s.started
  {
    if DispatcherEnabled(c, s, step) {
      DispatcherKeepsTokens(c, s, step);
      DispatcherAddsJobs(c, s, step);
    } else {
      JobStarts(c, s, step);
      if !step.Signal? {
        JobStepFrame(c, s, step);
      }
    }
  }

  /** A set abort token has still to be read: the result of the node will be `Aborted`. */
  ghost predicate ToBeAborted(s: State, x: NodeIndex) {
    && s.abort && (x in s.outcomes ==> s.outcomes[x].status == Aborted)
    && (x in s.jobs ==> !s.jobs[x].Cleared? && !s.jobs[x].Rechecked? && (Knows(s.jobs[x]) ==> s.jobs[x].action.status == Aborted))
  }

  /** A set token has still to be read: the result of the node will be `Aborted` or `Skipped`. */
  ghost predicate ToBeStopped(s: State, x: NodeIndex) {
    && (x in s.outcomes ==> s.outcomes[x].status == Aborted || s.outcomes[x].status == Skipped)
    && s.cancel && (x in s.jobs && Knows(s.jobs[x]) ==> s.jobs[x].action.status == Aborted || s.jobs[x].action.status == Skipped)
  }

  lemma JobKeepsStopped(c: Config, s: State, step: Step, x: NodeIndex)
    requires JobEnabled(c, s, step)
    ensures ToBeAborted(s, x) ==> ToBeAborted(JobApply(c, s, step), x)
    ensures ToBeStopped(s, x) ==> ToBeStopped(JobApply(c, s, step), x)
  {
  }

  lemma DispatcherKeepsStopped(c: Config, s: State, step: Step, x: NodeIndex)
    requires c.Valid() && ControlOk(c, s) && LaunchOk(c, s) && DispatcherEnabled(c, s, step)
    ensures ToBeAborted(s, x) ==> ToBeAborted(DispatcherApply(c, s, step), x)
    ensures ToBeStopped(s, x) ==> ToBeStopped(DispatcherApply(c, s, step), x)
  {
    DispatcherKeepsTokens(c, s, step);
    DispatcherAddsJobs(c, s, step);
    NewJobsStopped(s, DispatcherApply(c, s, step), x);
  }

  lemma NewJobsStopped(s: State, s': State, x: NodeIndex)
    requires OnlyNewJobs(s, s') && s'.abort == s.abort && s'.cancel == s.cancel
    ensures ToBeAborted(s, x) ==> ToBeAborted(s', x)
    ensures ToBeStopped(s, x) ==> ToBeStopped(s', x)
  {
  }

  lemma StepKeepsStopped(c: Config, s: State, step: Step, x: NodeIndex)
    requires c.Valid() && Inv(c, s) && Enabled(c, s, step)
    ensures ToBeAborted(s, x) ==> ToBeAborted(Apply(c, s, step), x)
    ensures ToBeStopped(s, x) ==> ToBeStopped(Apply(c, s, step), x)
  {
    if DispatcherEnabled(c, s, step) {
      DispatcherKeepsStopped(c, s, step, x);
    } else {
      JobKeepsStopped(c, s, step, x);
    }
  }

  lemma {:induction false} RunKeepsStopped(c: Config, steps: seq<Step>, more: seq<Step>, x: NodeIndex)
    requires c.Valid() && Replay(c, steps + more).Some?
    ensures Replay(c, steps).Some?
    ensures ToBeAborted(Replay(c, steps).value, x) ==> ToBeAborted(Replay(c, steps + more).value, x)
    ensures ToBeStopped(Replay(c, steps).value, x) ==> ToBeStopped(Replay(c, steps + more).value, x)
  {
    if more == [] {
      assert steps + more == steps;
    } else {
      var shorter, step := steps + more[..|more| - 1], more[|more| - 1];
      assert (steps + more)[..|steps + more| - 1] == shorter && (steps + more)[|steps + more| - 1] == step;
      RunKeepsStopped(c, steps, more[..|more| - 1], x);
      RunInv(c, shorter);
      StepKeepsStopped(c, Replay(c, shorter).value, step, x);
    }
  }

  /** A node that has not passed the abort token when it is set, before its body or after it, can only end as `Aborted`. */
  lemma LateForAbort(c: Config, steps: seq<Step>, more: seq<Step>, x: NodeIndex)
    requires c.Valid() && Replay(c, steps).Some? && Replay(c, steps + more).Some?
    requires var s := Replay(c, steps).value;
      && s.abort && x !in s.outcomes
      && (x in s.jobs ==> s.jobs[x].Waiting? || s.jobs[x].Admitted? || s.jobs[x].Running? || s.jobs[x].Ran?)
    ensures var s' := Replay(c, steps + more).value; x in s'.outcomes ==> s'.outcomes[x].status == Aborted
  {
    RunKeepsStopped(c, steps, more, x);
  }

  /** A node that does not know its result when a signal arrives can only end as `Aborted` or `Skipped`. */
  lemma LateForSignal(c: Config, steps: seq<Step>, more: seq<Step>, x: NodeIndex)
    requires c.Valid() && Replay(c, steps).Some? && Replay(c, steps + more).Some?
    requires var s := Replay(c, steps).value; s.cancel && x !in s.outcomes && (x in s.jobs ==> !Knows(s.jobs[x]))
    ensures var s' := Replay(c, steps + more).value; x in s'.outcomes ==> s'.outcomes[x].status == Aborted || s'.outcomes[x].status == Skipped
  {
    RunKeepsStopped(c, steps, more, x);
  }

  /** Past the look at the tokens, on the way to dispatch a node. */
  predicate Dispatches(control: Control) {
    control.Snapshotting? || control.Searching? || control.Claiming?
  }

  lemma DispatcherWindsDown(c: Config, s: State, step: Step)
    requires c.Valid() && DispatcherEnabled(c, s, step) && (s.abort || s.cancel)
    ensures var s' := DispatcherApply(c, s, step);
      && (!Dispatches(s.control) ==> !Dispatches(s'.control) && s'.order == s.order)
      && (Dispatches(s.control) && Dispatches(s'.control) ==> s'.order == s.order)
      && |s'.order| <= |s.order| + 1
      && (!s.control.Launching? ==> !s'.control.Launching? && forall x | x in s'.jobs && x !in s.jobs :: !c.Persistent(x))
  {
  }

  ghost predicate WindsDown(c: Config, s: State, s': State) {
    && (s'.abort || s'.cancel)
    && |s'.order| + (if Dispatches(s'.control) then 1 else 0) <= |s.order| + (if Dispatches(s.control) then 1 else 0)
    && (!s.control.Launching? ==> !s'.control.Launching? && forall x | x in s'.jobs && x !in s.jobs :: !PersistentTask(c, x))
  }

  lemma StepWindsDown(c: Config, s: State, step: Step)
    requires c.Valid() && Enabled(c, s, step) && (s.abort || s.cancel)
    ensures WindsDown(c, s, Apply(c, s, step))
  {
    if DispatcherEnabled(c, s, step) {
      DispatcherKeepsTokens(c, s, step);
      DispatcherWindsDown(c, s, step);
    } else {
      JobWindsDown(c, s, step);
    }
  }

  lemma JobWindsDown(c: Config, s: State, step: Step)
    requires JobEnabled(c, s, step) && (s.abort || s.cancel)
    ensures WindsDown(c, s, JobApply(c, s, step))
  {
    if !step.Signal? {
      JobStepFrame(c, s, step);
    }
  }

  /**
   Once a token is set, the dispatcher dispatches at most the one node that it is about to, and unless persistent
   nodes are being launched already, none is.
   */
  lemma {:induction false} TokenEndsDispatch(c: Config, steps: seq<Step>, more: seq<Step>)
    requires c.Valid() && Replay(c, steps + more).Some?
    ensures Replay(c, steps).Some?
    ensures var s := Replay(c, steps).value; s.abort || s.cancel ==> WindsDown(c, s, Replay(c, steps + more).value)
  {
    if more == [] {
      assert steps + more == steps;
    } else {
      var shorter, step := steps + more[..|more| - 1], more[|more| - 1];
      assert (steps + more)[..|steps + more| - 1] == shorter && (steps + more)[|steps + more| - 1] == step;
      TokenEndsDispatch(c, steps, more[..|more| - 1]);
      var s, s1 := Replay(c, steps).value, Replay(c, shorter).value;
      if s.abort || s.cancel {
        StepWindsDown(c, s1, step);
        WindsDownTrans(c, s, s1, Apply(c, s1, step));
      }
    }
  }

  lemma WindsDownTrans(c: Config, s: State, s1: State, s2: State)
    requires WindsDown(c, s, s1) && WindsDown(c, s1, s2)
    ensures WindsDown(c, s, s2)
  {
  }
}
