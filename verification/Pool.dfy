/**
 The bounded pool: futures finish in any order, their outputs are applied in input order.
 */
module Pool {

  datatype Outcome<+T> = Good(value: T) | Bad

  /** The caller's part: making a future, what the future output, and whether its output is accepted. */
  datatype Work<!I, !O> = Work(accepts: I -> bool, output: I -> Outcome<O>, applies: O -> bool)

  ghost predicate Fine<I, O>(work: Work<I, O>, input: I) {
    work.accepts(input) && work.output(input).Good? && work.applies(work.output(input).value)
  }

  /** The outputs of the first inputs, in input order. */
  ghost predicate OutputsOf<I, O>(work: Work<I, O>, inputs: seq<I>, applied: seq<O>) {
    && |applied| <= |inputs|
    && forall i | 0 <= i < |applied| :: Fine(work, inputs[i]) && work.output(inputs[i]).value == applied[i]
  }

  /** Spawned futures that were not applied yet are in flight or wait for an earlier output. */
  ghost predicate InOrder<I, O>(
      work: Work<I, O>, inputs: seq<I>, applied: seq<O>, next: nat, inFlight: set<nat>, completed: map<nat, O>)
  {
    && OutputsOf(work, inputs, applied) && |applied| <= next <= |inputs|
    && (forall i :: i in inFlight || i in completed <==> |applied| <= i < next)
    && inFlight !! completed.Keys
    && (forall i | 0 <= i < next :: work.accepts(inputs[i]))
    && (forall i | i in completed && i < |inputs| :: work.output(inputs[i]) == Good(completed[i]))
  }

  lemma SpawnKeeps<I, O>(
      work: Work<I, O>, inputs: seq<I>, applied: seq<O>, next: nat, inFlight: set<nat>, completed: map<nat, O>)
    requires InOrder(work, inputs, applied, next, inFlight, completed) && next < |inputs| && work.accepts(inputs[next])
    ensures InOrder(work, inputs, applied, next + 1, inFlight + {next}, completed) && next !in inFlight
  {
  }

  lemma CompletionKeeps<I, O>(
      work: Work<I, O>, inputs: seq<I>, applied: seq<O>, next: nat, inFlight: set<nat>, completed: map<nat, O>, i: nat)
    requires InOrder(work, inputs, applied, next, inFlight, completed) && i in inFlight && work.output(inputs[i]).Good?
    ensures InOrder(work, inputs, applied, next, inFlight - {i}, completed[i := work.output(inputs[i]).value])
  {
  }

  /** Applies completed outputs as long as the next one in input order is there. */
  method Flush<I, O>(
      work: Work<I, O>, inputs: seq<I>, before: seq<O>, ghost next: nat, ghost inFlight: set<nat>, waiting: map<nat, O>)
    returns (ok: bool, applied: seq<O>, completed: map<nat, O>)
    requires InOrder(work, inputs, before, next, inFlight, waiting)
    ensures OutputsOf(work, inputs, applied)
    ensures ok ==> InOrder(work, inputs, applied, next, inFlight, completed) && |applied| !in completed
    ensures !ok ==> exists x | x in inputs :: !Fine(work, x)
  {
    applied, completed := before, waiting;
    while |applied| in completed
      invariant InOrder(work, inputs, applied, next, inFlight, completed)
      decreases |completed|
    {
      var ready := completed[|applied|];
      if !work.applies(ready) {
        assert !Fine(work, inputs[|applied|]);
        return false, applied, completed;
      }
      completed := completed - {|applied|};
      applied := applied + [ready];
    }
    ok := true;
  }

  /**
   Whatever future is joined next: the outputs applied are those of a prefix of the inputs, each
   once and in order; the pool succeeds exactly when nothing fails, and then all were applied;
   and at no time are more than `concurrency` futures in flight.
   */
  method RunPooledTasks<I, O>(inputs: seq<I>, work: Work<I, O>, concurrency: nat)
    returns (ok: bool, applied: seq<O>, ghost peak: nat)
    requires concurrency > 0
    ensures OutputsOf(work, inputs, applied)
    ensures ok <==> forall x | x in inputs :: Fine(work, x)
    ensures ok ==> |applied| == |inputs|
    ensures peak <= concurrency
  {
    var queue, next := inputs, 0;
    var inFlight: set<nat> := {};
    var completed: map<nat, O> := map[];
    applied, peak := [], 0;
    while true
      invariant InOrder(work, inputs, applied, next, inFlight, completed) && |applied| !in completed
      invariant queue == inputs[next..] && |inFlight| <= concurrency && peak <= concurrency
      invariant queue != [] ==> |inFlight| < concurrency
      decreases 2 * |queue| + |inFlight|
    {
      if queue != [] {
        var input := queue[0];
        assert input == inputs[next];
        queue := queue[1..];
        if !work.accepts(input) {
          assert !Fine(work, input);
          return false, applied, peak;
        }
        SpawnKeeps(work, inputs, applied, next, inFlight, completed);
        inFlight := inFlight + {next};
        next := next + 1;
        peak := if peak < |inFlight| then |inFlight| else peak;
      }
      if |inFlight| < concurrency && queue != [] {
        continue;
      }
      if inFlight == {} {
        break;
      }
      var index :| index in inFlight;
      match work.output(inputs[index])
      case Bad =>
        assert !Fine(work, inputs[index]);
        return false, applied, peak;
      case Good(value) =>
        CompletionKeeps(work, inputs, applied, next, inFlight, completed, index);
        inFlight := inFlight - {index};
        completed := completed[index := value];
      var flushed: bool;
      flushed, applied, completed := Flush(work, inputs, applied, next, inFlight, completed);
      if !flushed {
        return false, applied, peak;
      }
    }
    assert forall i | 0 <= i < |inputs| :: Fine(work, inputs[i]);
    ok := true;
  }
}
