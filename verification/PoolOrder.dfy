/** The order in which the pool finishes messages (internal/worker/pool.go).

    Messages of one recipient share a partition and are fetched in order, and workers receive
    them in order.  They are processed concurrently, so they also finish in order, in every run,
    exactly if there is at most one worker. */
module PoolOrder {
  import opened Collections
  import opened Pool

  /** The finished messages that were processed, in the order they finished. */
  function Done(fetched: seq<bool>, finished: seq<nat>): seq<nat> {
    if finished == [] then []
    else
      var n := |finished| - 1;
      Done(fetched, finished[..n]) + (if finished[n] < |fetched| && fetched[finished[n]] then [finished[n]] else [])
  }

  ghost predicate Increasing(s: seq<nat>) {
    forall a, b :: 0 <= a < b < |s| ==> s[a] < s[b]
  }

  ghost predicate FinishedInOrder(s: State) {
    Increasing(Done(s.fetched, s.finished))
  }

  /** In every run with n workers, processing finishes in fetch order. */
  ghost predicate FinishesInOrder(n: nat) {
    forall steps: seq<Step>, states: seq<State> :: IsRun(n, steps, states) ==> FinishedInOrder(states[|steps|])
  }

  // -------------------------------------------------------------- at most one worker

  /** The message the only worker has, if any. */
  function Current(workers: seq<Worker>): seq<nat> {
    if workers != [] && (workers[0].Busy? || workers[0].Committing?) then [workers[0].item] else []
  }

  /** One worker finishes what it received before it receives more. */
  ghost predicate Sequential(s: State) {
    |s.workers| <= 1 && Done(s.fetched, s.finished) + Current(s.workers) == s.started
  }

  lemma {:induction false} DoneStays(fetched: seq<bool>, finished: seq<nat>, x: bool)
    requires forall i :: 0 <= i < |finished| ==> finished[i] < |fetched|
    ensures Done(fetched + [x], finished) == Done(fetched, finished)
  {
    if finished == [] {
    } else {
      DoneStays(fetched, finished[..|finished| - 1], x);
    }
  }

  lemma DoneAppend(fetched: seq<bool>, finished: seq<nat>, i: nat)
    ensures Done(fetched, finished + [i]) == Done(fetched, finished) + (if i < |fetched| && fetched[i] then [i] else [])
  {
    assert (finished + [i])[..|finished|] == finished;
  }

  /** The fetch loop changes nothing of it. */
  lemma LoopStep(s: State, step: Step)
    requires Sequential(s) && Enabled(s, step) && !step.Take? && !step.ProcessReturns? && !step.Commit? && !step.Exit?
    requires forall i :: 0 <= i < |s.finished| ==> s.finished[i] < |s.fetched|
    ensures Sequential(Apply(s, step))
  {
    match step
    case Fetch(x) => DoneStays(s.fetched, s.finished, x);
    case SkipPoison => DoneAppend(s.fetched, s.finished, s.hold.value);
    case _ =>
  }

  lemma TakeStep(s: State, w: nat)
    requires Sequential(s) && Enabled(s, Take(w))
    ensures Sequential(Apply(s, Take(w)))
  {
    assert Current(s.workers) == [] && Current(s.workers[w := Busy(s.queue[0])]) == [s.queue[0]];
  }

  /** The worker lets go of its message, which is finished. */
  lemma FinishStep(s: State, s': State, w: nat)
    requires Sequential(s) && w < |s.workers| && (s.workers[w].Busy? || s.workers[w].Committing?)
    requires s.workers[w].item < |s.fetched| && s.fetched[s.workers[w].item]
    requires s'.fetched == s.fetched && s'.started == s.started && s'.workers == s.workers[w := Idle]
    requires s'.finished == s.finished + [s.workers[w].item]
    ensures Sequential(s')
  {
    DoneAppend(s.fetched, s.finished, s.workers[w].item);
    assert Current(s'.workers) == [] && Current(s.workers) == [s.workers[w].item];
  }

  lemma SequentialStep(s: State, step: Step)
    requires Sequential(s) && WorkersOk(s) && Enabled(s, step)
    requires forall i :: 0 <= i < |s.finished| ==> s.finished[i] < |s.fetched|
    ensures Sequential(Apply(s, step))
  {
    match step
    case Take(w) => TakeStep(s, w);
    case ProcessReturns(w, ok) =>
      if !ok {
        FinishStep(s, Apply(s, step), w);
      }
    case Commit(w) => FinishStep(s, Apply(s, step), w);
    case Exit(w) =>
    case _ => LoopStep(s, step);
  }

  lemma AllFetched(s: State)
    requires Inv(s)
    ensures forall i :: 0 <= i < |s.finished| ==> s.finished[i] < |s.fetched|
  {
    forall i | 0 <= i < |s.finished| ensures s.finished[i] < |s.fetched| {
      assert CommitRule(s, s.finished[i]);
      assert s.finished[i] in multiset(s.finished);
    }
  }

  lemma {:induction false} RunSequential(n: nat, steps: seq<Step>, states: seq<State>, k: nat)
    requires IsRun(n, steps, states) && k <= |steps| && n <= 1
    ensures Sequential(states[k])
  {
    if k == 0 {
    } else {
      RunSequential(n, steps, states, k - 1);
      RunInv(n, steps, states, k - 1);
      AllFetched(states[k - 1]);
      assert NextAt(steps, states, k - 1);
      SequentialStep(states[k - 1], steps[k - 1]);
    }
  }

  lemma {:induction false} DecodableIncreasing(fetched: seq<bool>)
    ensures Increasing(Decodable(fetched))
    ensures forall i :: 0 <= i < |Decodable(fetched)| ==> Decodable(fetched)[i] < |fetched|
  {
    if fetched == [] {
    } else {
      DecodableIncreasing(fetched[..|fetched| - 1]);
    }
  }

  lemma OneWorkerInOrder(n: nat, steps: seq<Step>, states: seq<State>, k: nat)
    requires IsRun(n, steps, states) && k <= |steps| && n <= 1
    ensures Increasing(Done(states[k].fetched, states[k].finished))
  {
    var s := states[k];
    RunSequential(n, steps, states, k);
    PoolConservation(n, steps, states, k);
    DecodableIncreasing(s.fetched);
    var done := Done(s.fetched, s.finished);
    assert forall i :: 0 <= i < |done| ==> done[i] == s.started[i] == Decodable(s.fetched)[i];
  }

  // ------------------------------------------------------------------- two and more

  lemma Extend(n: nat, steps: seq<Step>, states: seq<State>, step: Step)
    requires IsRun(n, steps, states) && Enabled(states[|steps|], step)
    ensures IsRun(n, steps + [step], states + [Apply(states[|steps|], step)])
  {
    var all, more := steps + [step], states + [Apply(states[|steps|], step)];
    forall k | 0 <= k < |all| ensures NextAt(all, more, k) {
      if k < |steps| {
        assert NextAt(steps, states, k);
      }
    }
  }

  /** Two messages are fetched and queued, ... */
  lemma TwoQueued(n: nat) returns (steps: seq<Step>, states: seq<State>)
    requires n >= 2
    ensures IsRun(n, steps, states) && states[|steps|] == Start(n).(fetched := [true, true], queue := [0, 1])
  {
    steps, states := [], [Start(n)];
    Extend(n, steps, states, Fetch(true));
    steps, states := steps + [Fetch(true)], states + [Apply(states[|steps|], Fetch(true))];
    Extend(n, steps, states, Dispatch);
    steps, states := steps + [Dispatch], states + [Apply(states[|steps|], Dispatch)];
    Extend(n, steps, states, Fetch(true));
    steps, states := steps + [Fetch(true)], states + [Apply(states[|steps|], Fetch(true))];
    Extend(n, steps, states, Dispatch);
    steps, states := steps + [Dispatch], states + [Apply(states[|steps|], Dispatch)];
  }

  /** ... two workers take them, and the second is done first. */
  lemma Overtaken(n: nat) returns (steps: seq<Step>, states: seq<State>)
    requires n >= 2
    ensures IsRun(n, steps, states)
    ensures states[|steps|].fetched == [true, true] && states[|steps|].finished == [1, 0]
  {
    steps, states := TwoQueued(n);
    Extend(n, steps, states, Take(0));
    steps, states := steps + [Take(0)], states + [Apply(states[|steps|], Take(0))];
    Extend(n, steps, states, Take(1));
    steps, states := steps + [Take(1)], states + [Apply(states[|steps|], Take(1))];
    Extend(n, steps, states, ProcessReturns(1, false));
    steps, states := steps + [ProcessReturns(1, false)], states + [Apply(states[|steps|], ProcessReturns(1, false))];
    Extend(n, steps, states, ProcessReturns(0, false));
    steps, states := steps + [ProcessReturns(0, false)], states + [Apply(states[|steps|], ProcessReturns(0, false))];
  }

  /** Processing finishes in fetch order, whatever happens, if and only if the pool has at most
      one worker. */
  lemma FinishesInOrderIff(n: nat)
    ensures FinishesInOrder(n) <==> n <= 1
  {
    if n <= 1 {
      forall steps: seq<Step>, states: seq<State> | IsRun(n, steps, states) ensures FinishedInOrder(states[|steps|]) {
        OneWorkerInOrder(n, steps, states, |steps|);
      }
    } else {
      var steps, states := Overtaken(n);
      var s := states[|steps|];
      DoneAppend(s.fetched, [], 1);
      DoneAppend(s.fetched, [1], 0);
      assert [] + [1] == [1] && [1] + [0] == [1, 0];
      assert Done(s.fetched, s.finished) == [1, 0];
      assert Done(s.fetched, s.finished)[0] == 1 && Done(s.fetched, s.finished)[1] == 0;
    }
  }
}
