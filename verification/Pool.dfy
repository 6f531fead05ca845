/** The worker pool (internal/worker/pool.go): a fetch loop, a work channel of capacity n and
    n workers, as interleaved atomic steps.

    A fetched message is named by its position in fetch order.  Fetch, Process and commit may
    each fail; Process is one call that eventually returns. */
module Pool {
  import opened Collections

  datatype Worker = Idle | Busy(item: nat) | Committing(item: nat) | Exited

  datatype State = State(
    n: nat,                   // concurrency: workers and channel capacity
    fetched: seq<bool>,       // fetched messages in order: does each one decode?
    hold: Option<nat>,        // the message in the hands of the fetch loop
    queue: seq<nat>,          // the work channel
    workers: seq<Worker>,
    results: map<nat, bool>,  // Process returned nil?
    started: seq<nat>,        // messages in the order workers received them
    finished: seq<nat>,
    commits: seq<nat>,        // commit calls, in order
    fetchDone: bool, workClosed: bool, consumerClosed: bool)

  datatype Step =
    | Fetch(decodes: bool)
    | FetchError
    | FetchCancelled
    | SkipPoison
    | Dispatch
    | CloseWork
    | Take(w: nat)
    | ProcessReturns(w: nat, ok: bool)
    | Commit(w: nat)
    | Exit(w: nat)
    | CloseConsumer

  function Start(n: nat): State {
    State(n, [], None, [], seq(n, _ => Idle), map[], [], [], [], false, false, false)
  }

  ghost predicate Enabled(s: State, step: Step) {
    match step
    case Fetch(_) => !s.fetchDone && s.hold.None?
    case FetchError => !s.fetchDone && s.hold.None?
    case FetchCancelled => !s.fetchDone && s.hold.None?
    case SkipPoison => s.hold.Some? && s.hold.value < |s.fetched| && !s.fetched[s.hold.value]
    case Dispatch => s.hold.Some? && s.hold.value < |s.fetched| && s.fetched[s.hold.value] && |s.queue| < s.n
    case CloseWork => s.fetchDone && !s.workClosed
    case Take(w) => w < |s.workers| && s.workers[w] == Idle && s.queue != []
    case ProcessReturns(w, _) => w < |s.workers| && s.workers[w].Busy?
    case Commit(w) => w < |s.workers| && s.workers[w].Committing?
    case Exit(w) => w < |s.workers| && s.workers[w] == Idle && s.workClosed && s.queue == []
    case CloseConsumer => s.workClosed && !s.consumerClosed && forall w :: 0 <= w < |s.workers| ==> s.workers[w] == Exited
  }

  function Apply(s: State, step: Step): State
    requires Enabled(s, step)
  {
    match step
    case Fetch(decodes) => s.(fetched := s.fetched + [decodes], hold := Some(|s.fetched|))
    case FetchError => s
    case FetchCancelled => s.(fetchDone := true)
    case SkipPoison =>
      s.(hold := None, commits := s.commits + [s.hold.value], finished := s.finished + [s.hold.value])
    case Dispatch => s.(hold := None, queue := s.queue + [s.hold.value])
    case CloseWork => s.(workClosed := true)
    case Take(w) =>
      s.(queue := s.queue[1..], workers := s.workers[w := Busy(s.queue[0])], started := s.started + [s.queue[0]])
    case ProcessReturns(w, ok) =>
      var i := s.workers[w].item;
      if ok then s.(workers := s.workers[w := Committing(i)], results := s.results[i := true])
      else s.(workers := s.workers[w := Idle], results := s.results[i := false], finished := s.finished + [i])
    case Commit(w) =>
      var i := s.workers[w].item;
      s.(workers := s.workers[w := Idle], commits := s.commits + [i], finished := s.finished + [i])
    case Exit(w) => s.(workers := s.workers[w := Exited])
    case CloseConsumer => s.(consumerClosed := true)
  }

  ghost predicate NextAt(steps: seq<Step>, states: seq<State>, k: nat)
    requires k < |steps| && k + 1 < |states|
  {
    Enabled(states[k], steps[k]) && states[k + 1] == Apply(states[k], steps[k])
  }

  ghost predicate IsRun(n: nat, steps: seq<Step>, states: seq<State>) {
    && |states| == |steps| + 1
    && states[0] == Start(n)
    && (forall k {:trigger NextAt(steps, states, k)} :: 0 <= k < |steps| ==> NextAt(steps, states, k))
  }

  // ------------------------------------------------------------------- invariant

  /** In how many places message i is: fetch loop, channel, a worker, finished. */
  ghost function Places(s: State, i: nat): nat {
    (if s.hold == Some(i) then 1 else 0) + multiset(s.queue)[i] + multiset(s.workers)[Busy(i)]
    + multiset(s.workers)[Committing(i)] + multiset(s.finished)[i]
  }

  /** Every fetched message is in exactly one place, and nothing else is anywhere. */
  ghost predicate Conserved(s: State) {
    forall i: nat {:trigger Places(s, i)} :: Places(s, i) == if i < |s.fetched| then 1 else 0
  }

  function Decodable(fetched: seq<bool>): seq<nat> {
    if fetched == [] then []
    else
      var n := |fetched| - 1;
      Decodable(fetched[..n]) + (if fetched[n] then [n] else [])
  }

  function Held(s: State): seq<nat> {
    if s.hold.Some? && s.hold.value < |s.fetched| && s.fetched[s.hold.value] then [s.hold.value] else []
  }

  /** Workers receive the decodable messages in fetch order, none skipped. */
  ghost predicate InOrder(s: State) {
    s.started + s.queue + Held(s) == Decodable(s.fetched)
  }

  /** A finished message was committed exactly if it was undecodable or Process returned nil. */
  ghost predicate CommitRule(s: State, i: nat) {
    && (multiset(s.commits)[i] <= multiset(s.finished)[i])
    && (i in multiset(s.finished) ==>
          && i < |s.fetched|
          && (s.fetched[i] ==> i in s.results)
          && (i in multiset(s.commits) <==> !s.fetched[i] || s.results[i]))
  }

  ghost predicate Control(s: State) {
    && |s.workers| == s.n && |s.queue| <= s.n
    && (s.hold.Some? ==> !s.fetchDone)
    && (s.workClosed ==> s.fetchDone)
    && (s.consumerClosed ==> s.workClosed && forall w :: 0 <= w < |s.workers| ==> s.workers[w] == Exited)
    && (forall w :: 0 <= w < |s.workers| && s.workers[w] == Exited ==> s.workClosed && s.queue == [])
  }

  ghost predicate WorkersOk(s: State) {
    && (forall w :: 0 <= w < |s.workers| && s.workers[w].Busy? ==>
          s.workers[w].item < |s.fetched| && s.fetched[s.workers[w].item])
    && (forall w :: 0 <= w < |s.workers| && s.workers[w].Committing? ==>
          s.workers[w].item < |s.fetched| && s.fetched[s.workers[w].item]
          && s.workers[w].item in s.results && s.results[s.workers[w].item])
    && (forall k :: 0 <= k < |s.queue| ==> s.queue[k] < |s.fetched| && s.fetched[s.queue[k]])
    && (s.hold.Some? ==> s.hold.value == |s.fetched| - 1)
  }

  ghost predicate Inv(s: State) {
    && Control(s) && WorkersOk(s) && Conserved(s) && InOrder(s)
    && (forall i: nat {:trigger CommitRule(s, i)} :: CommitRule(s, i))
  }

  lemma ControlStep(s: State, step: Step)
    requires Control(s) && Enabled(s, step)
    ensures Control(Apply(s, step))
  {
  }

  /** Two workers never have the same message. */
  lemma OneWorker(s: State, v: nat, w: nat)
    requires Conserved(s) && v < |s.workers| && w < |s.workers|
    requires s.workers[v].Busy? && s.workers[w].Committing?
    ensures s.workers[v].item != s.workers[w].item
  {
    assert s.workers[v] in multiset(s.workers) && s.workers[w] in multiset(s.workers);
    assert Places(s, s.workers[v].item) <= 1;
  }

  lemma ReturnWorkers(s: State, w: nat, ok: bool)
    requires WorkersOk(s) && Conserved(s) && Enabled(s, ProcessReturns(w, ok))
    ensures WorkersOk(Apply(s, ProcessReturns(w, ok)))
  {
    forall v | 0 <= v < |s.workers| && s.workers[v].Committing?
      ensures s.workers[v].item != s.workers[w].item
    {
      OneWorker(s, w, v);
    }
  }

  lemma WorkersStep(s: State, step: Step)
    requires WorkersOk(s) && Conserved(s) && Enabled(s, step)
    ensures WorkersOk(Apply(s, step))
  {
    if step.ProcessReturns? {
      ReturnWorkers(s, step.w, step.ok);
    }
  }

  lemma QueueHead(q: seq<nat>, i: nat)
    requires q != []
    ensures multiset(q)[i] == multiset(q[1..])[i] + (if q[0] == i then 1 else 0)
  {
    assert q == [q[0]] + q[1..];
  }

  lemma WorkerChange(workers: seq<Worker>, w: nat, x: Worker, y: Worker)
    requires w < |workers|
    ensures multiset(workers[w := x])[y] + (if workers[w] == y then 1 else 0)
         == multiset(workers)[y] + (if x == y then 1 else 0)
  {
  }

  lemma Appended(q: seq<nat>, x: nat, i: nat)
    ensures multiset(q + [x])[i] == multiset(q)[i] + (if x == i then 1 else 0)
  {
  }

  /** A worker's step moves one message from one place to another. */
  lemma TakePlaces(s: State, w: nat, i: nat)
    requires Enabled(s, Take(w))
    ensures Places(Apply(s, Take(w)), i) == Places(s, i)
  {
    WorkerChange(s.workers, w, Busy(s.queue[0]), Busy(i));
    WorkerChange(s.workers, w, Busy(s.queue[0]), Committing(i));
    QueueHead(s.queue, i);
  }

  lemma ReturnPlaces(s: State, w: nat, ok: bool, i: nat)
    requires Enabled(s, ProcessReturns(w, ok))
    ensures Places(Apply(s, ProcessReturns(w, ok)), i) == Places(s, i)
  {
    var x := if ok then Committing(s.workers[w].item) else Idle;
    WorkerChange(s.workers, w, x, Busy(i));
    WorkerChange(s.workers, w, x, Committing(i));
    Appended(s.finished, s.workers[w].item, i);
  }

  lemma CommitPlaces(s: State, w: nat, i: nat)
    requires Enabled(s, Commit(w))
    ensures Places(Apply(s, Commit(w)), i) == Places(s, i)
  {
    WorkerChange(s.workers, w, Idle, Busy(i));
    WorkerChange(s.workers, w, Idle, Committing(i));
    Appended(s.finished, s.workers[w].item, i);
  }

  lemma ExitPlaces(s: State, w: nat, i: nat)
    requires Enabled(s, Exit(w))
    ensures Places(Apply(s, Exit(w)), i) == Places(s, i)
  {
    WorkerChange(s.workers, w, Exited, Busy(i));
    WorkerChange(s.workers, w, Exited, Committing(i));
  }

  lemma LoopPlaces(s: State, step: Step, i: nat)
    requires WorkersOk(s) && Enabled(s, step)
    requires !step.Take? && !step.ProcessReturns? && !step.Commit? && !step.Exit?
    ensures Places(Apply(s, step), i) == Places(s, i) + (if step.Fetch? && i == |s.fetched| then 1 else 0)
  {
    match step
    case SkipPoison => Appended(s.finished, s.hold.value, i);
    case Dispatch => Appended(s.queue, s.hold.value, i);
    case _ =>
  }

  lemma ConservedStep(s: State, step: Step)
    requires WorkersOk(s) && Conserved(s) && Enabled(s, step)
    ensures Conserved(Apply(s, step))
  {
    var s' := Apply(s, step);
    forall i: nat ensures Places(s', i) == if i < |s'.fetched| then 1 else 0 {
      assert Places(s, i) == if i < |s.fetched| then 1 else 0;
      match step
      case Take(w) => TakePlaces(s, w, i);
      case ProcessReturns(w, ok) => ReturnPlaces(s, w, ok, i);
      case Commit(w) => CommitPlaces(s, w, i);
      case Exit(w) => ExitPlaces(s, w, i);
      case _ => LoopPlaces(s, step, i);
    }
  }

  lemma InOrderStep(s: State, step: Step)
    requires Control(s) && WorkersOk(s) && InOrder(s) && Enabled(s, step)
    ensures InOrder(Apply(s, step))
  {
    var s' := Apply(s, step);
    match step
    case Fetch(decodes) =>
      assert s'.fetched[..|s.fetched|] == s.fetched;
      assert s.started + s.queue + [] == s.started + s.queue;
    case SkipPoison =>
    case Dispatch =>
      assert s.started + (s.queue + [s.hold.value]) + [] == s.started + s.queue + [s.hold.value];
    case Take(w) =>
      assert s.queue == [s.queue[0]] + s.queue[1..];
      assert s.started + [s.queue[0]] + s.queue[1..] == s.started + s.queue;
    case _ =>
  }

  lemma SkipCommitRule(s: State, i: nat)
    requires WorkersOk(s) && Conserved(s) && Enabled(s, SkipPoison) && CommitRule(s, i)
    ensures CommitRule(Apply(s, SkipPoison), i)
  {
    assert Places(s, i) <= 1;
    Appended(s.finished, s.hold.value, i);
    Appended(s.commits, s.hold.value, i);
  }

  lemma ReturnCommitRule(s: State, w: nat, ok: bool, i: nat)
    requires WorkersOk(s) && Conserved(s) && Enabled(s, ProcessReturns(w, ok)) && CommitRule(s, i)
    ensures CommitRule(Apply(s, ProcessReturns(w, ok)), i)
  {
    assert s.workers[w] in multiset(s.workers);
    assert Places(s, i) <= 1;
    Appended(s.finished, s.workers[w].item, i);
  }

  lemma CommitCommitRule(s: State, w: nat, i: nat)
    requires WorkersOk(s) && Conserved(s) && Enabled(s, Commit(w)) && CommitRule(s, i)
    ensures CommitRule(Apply(s, Commit(w)), i)
  {
    assert s.workers[w] in multiset(s.workers);
    assert Places(s, i) <= 1;
    Appended(s.finished, s.workers[w].item, i);
    Appended(s.commits, s.workers[w].item, i);
  }

  lemma CommitRuleStep(s: State, step: Step, i: nat)
    requires WorkersOk(s) && Conserved(s) && Enabled(s, step) && CommitRule(s, i)
    ensures CommitRule(Apply(s, step), i)
  {
    match step
    case SkipPoison => SkipCommitRule(s, i);
    case ProcessReturns(w, ok) => ReturnCommitRule(s, w, ok, i);
    case Commit(w) => CommitCommitRule(s, w, i);
    case _ =>
  }

  lemma StepInv(s: State, step: Step)
    requires Inv(s) && Enabled(s, step)
    ensures Inv(Apply(s, step))
  {
    ControlStep(s, step);
    WorkersStep(s, step);
    ConservedStep(s, step);
    InOrderStep(s, step);
    forall i: nat ensures CommitRule(Apply(s, step), i) {
      assert CommitRule(s, i);
      CommitRuleStep(s, step, i);
    }
  }

  lemma StartInv(n: nat)
    ensures Inv(Start(n))
  {
    assert forall i: nat :: Busy(i) !in Start(n).workers && Committing(i) !in Start(n).workers;
  }

  lemma {:induction false} RunInv(n: nat, steps: seq<Step>, states: seq<State>, k: nat)
    requires IsRun(n, steps, states) && k <= |steps|
    ensures Inv(states[k])
  {
    if k == 0 {
      StartInv(n);
    } else {
      RunInv(n, steps, states, k - 1);
      assert NextAt(steps, states, k - 1);
      StepInv(states[k - 1], steps[k - 1]);
    }
  }

  // -------------------------------------------------------------------- theorems

  ghost function Load(w: Worker): nat {
    if w.Busy? || w.Committing? then 1 else 0
  }

  ghost function Working(workers: seq<Worker>): nat {
    if workers == [] then 0 else Working(workers[..|workers| - 1]) + Load(workers[|workers| - 1])
  }

  ghost function InFlight(s: State): nat {
    (if s.hold.Some? then 1 else 0) + |s.queue| + Working(s.workers)
  }

  lemma {:induction false} WorkingUpdate(workers: seq<Worker>, w: nat, x: Worker)
    requires w < |workers|
    ensures Working(workers[w := x]) + Load(workers[w]) == Working(workers) + Load(x)
  {
    var n := |workers| - 1;
    if w == n {
      assert workers[w := x][..n] == workers[..n];
    } else {
      WorkingUpdate(workers[..n], w, x);
      assert workers[w := x][..n] == workers[..n][w := x];
    }
  }

  lemma {:induction false} WorkingBound(workers: seq<Worker>)
    ensures Working(workers) <= |workers|
  {
    if workers == [] {
    } else {
      WorkingBound(workers[..|workers| - 1]);
    }
  }

  lemma {:induction false} WorkingStart(n: nat)
    ensures Working(seq(n, _ => Idle)) == 0
  {
    if n == 0 {
    } else {
      WorkingStart(n - 1);
      assert seq(n, _ => Idle)[..n - 1] == seq(n - 1, _ => Idle);
    }
  }

  lemma BalanceStep(s: State, step: Step)
    requires Enabled(s, step) && |s.fetched| == InFlight(s) + |s.finished|
    ensures |Apply(s, step).fetched| == InFlight(Apply(s, step)) + |Apply(s, step).finished|
  {
    match step
    case Take(w) => WorkingUpdate(s.workers, w, Busy(s.queue[0]));
    case ProcessReturns(w, ok) =>
      WorkingUpdate(s.workers, w, if ok then Committing(s.workers[w].item) else Idle);
    case Commit(w) => WorkingUpdate(s.workers, w, Idle);
    case Exit(w) => WorkingUpdate(s.workers, w, Exited);
    case _ =>
  }

  lemma {:induction false} Balance(n: nat, steps: seq<Step>, states: seq<State>, k: nat)
    requires IsRun(n, steps, states) && k <= |steps|
    ensures |states[k].fetched| == InFlight(states[k]) + |states[k].finished| && states[k].n == n
  {
    if k == 0 {
      WorkingStart(n);
    } else {
      Balance(n, steps, states, k - 1);
      assert NextAt(steps, states, k - 1);
      BalanceStep(states[k - 1], steps[k - 1]);
    }
  }

  /** Conservation: in every reachable state each fetched message is in exactly one place, at
      most 2n + 1 of them are in flight, the rest are finished, and workers have received a
      prefix of the decodable messages in fetch order. */
  lemma PoolConservation(n: nat, steps: seq<Step>, states: seq<State>, k: nat)
    requires IsRun(n, steps, states) && k <= |steps|
    ensures Conserved(states[k])
    ensures |states[k].fetched| - |states[k].finished| == InFlight(states[k]) <= 2 * n + 1
    ensures states[k].started <= Decodable(states[k].fetched)
  {
    RunInv(n, steps, states, k);
    Balance(n, steps, states, k);
    WorkingBound(states[k].workers);
    assert states[k].started + states[k].queue + Held(states[k])
        == states[k].started + (states[k].queue + Held(states[k]));
  }

  /** Commit is called at most once per message, and for a finished message exactly if it
      could not be decoded or its Process returned nil. */
  lemma CommitsExactly(n: nat, steps: seq<Step>, states: seq<State>, k: nat, i: nat)
    requires IsRun(n, steps, states) && k <= |steps| && i in multiset(states[k].finished)
    ensures multiset(states[k].commits)[i] <= 1 && i < |states[k].fetched|
    ensures states[k].fetched[i] ==> i in states[k].results
    ensures i in multiset(states[k].commits) <==> !states[k].fetched[i] || states[k].results[i]
  {
    RunInv(n, steps, states, k);
    assert CommitRule(states[k], i);
    assert Places(states[k], i) == 1;
  }

  /** When the consumer is closed every fetched message is finished. */
  lemma DrainedWhenClosed(n: nat, steps: seq<Step>, states: seq<State>, k: nat)
    requires IsRun(n, steps, states) && k <= |steps| && states[k].consumerClosed
    ensures InFlight(states[k]) == 0 && |states[k].finished| == |states[k].fetched|
    ensures states[k].started == Decodable(states[k].fetched)
  {
    RunInv(n, steps, states, k);
    Balance(n, steps, states, k);
    AllExited(states[k].workers);
    var s := states[k];
    assert s.n > 0 ==> s.workers[0] == Exited;
    assert s.started + [] + [] == s.started;
  }

  lemma {:induction false} AllExited(workers: seq<Worker>)
    requires forall w :: 0 <= w < |workers| ==> workers[w] == Exited
    ensures Working(workers) == 0
  {
    if workers == [] {
    } else {
      AllExited(workers[..|workers| - 1]);
    }
  }

  // -------------------------------------------------------------------- progress

  ghost predicate Stuck(s: State) {
    s.n == 0 && s.hold.Some? && s.hold.value < |s.fetched| && s.fetched[s.hold.value]
  }

  /** A step other than a failed fetch, which changes nothing. */
  ghost predicate CanMove(s: State) {
    exists step :: Enabled(s, step) && step != FetchError
  }

  /** Until the consumer is closed some component can move, except in a pool of no workers
      whose fetch loop holds a decodable message. */
  lemma Progress(s: State)
    requires Inv(s) && !s.consumerClosed
    ensures CanMove(s) <==> !Stuck(s)
  {
    if Stuck(s) {
      forall step | step != FetchError ensures !Enabled(s, step) {
      }
    } else if s.hold.Some? {
      if !s.fetched[s.hold.value] {
        assert Enabled(s, SkipPoison);
      } else if |s.queue| < s.n {
        assert Enabled(s, Dispatch);
      } else {
        WorkerMoves(s, 0);
      }
    } else if !s.fetchDone {
      assert Enabled(s, FetchCancelled);
    } else if !s.workClosed {
      assert Enabled(s, CloseWork);
    } else if forall w :: 0 <= w < |s.workers| ==> s.workers[w] == Exited {
      assert Enabled(s, CloseConsumer);
    } else {
      var w :| 0 <= w < |s.workers| && s.workers[w] != Exited;
      WorkerMoves(s, w);
    }
  }

  lemma WorkerMoves(s: State, w: nat)
    requires Inv(s) && w < |s.workers| && s.workers[w] != Exited
    requires s.queue != [] || s.workClosed
    ensures CanMove(s)
  {
    match s.workers[w]
    case Idle =>
      if s.queue != [] {
        assert Enabled(s, Take(w));
      } else {
        assert Enabled(s, Exit(w));
      }
    case Busy(i) => assert Enabled(s, ProcessReturns(w, true));
    case Committing(i) => assert Enabled(s, Commit(w));
  }

  ghost function Weight(w: Worker): nat {
    match w case Exited => 0 case Idle => 1 case Committing(_) => 2 case Busy(_) => 3
  }

  ghost function Weights(workers: seq<Worker>): nat {
    if workers == [] then 0 else Weights(workers[..|workers| - 1]) + Weight(workers[|workers| - 1])
  }

  lemma {:induction false} WeightsUpdate(workers: seq<Worker>, w: nat, x: Worker)
    requires w < |workers|
    ensures Weights(workers[w := x]) + Weight(workers[w]) == Weights(workers) + Weight(x)
  {
    var n := |workers| - 1;
    if w == n {
      assert workers[w := x][..n] == workers[..n];
    } else {
      WeightsUpdate(workers[..n], w, x);
      assert workers[w := x][..n] == workers[..n][w := x];
    }
  }

  /** What is left to do once fetching has stopped. */
  ghost function Remaining(s: State): nat {
    3 * |s.queue| + Weights(s.workers) + (if s.workClosed then 0 else 1) + (if s.consumerClosed then 0 else 1)
  }

  /** After the fetch loop has returned every step brings the pool strictly closer to being
      closed, so with Progress the drain always terminates, within Remaining steps. */
  lemma DrainTerminates(s: State, step: Step)
    requires Inv(s) && s.fetchDone && Enabled(s, step)
    ensures Apply(s, step).fetchDone && Remaining(Apply(s, step)) < Remaining(s)
  {
    match step
    case Take(w) => WeightsUpdate(s.workers, w, Busy(s.queue[0]));
    case ProcessReturns(w, ok) =>
      WeightsUpdate(s.workers, w, if ok then Committing(s.workers[w].item) else Idle);
    case Commit(w) => WeightsUpdate(s.workers, w, Idle);
    case Exit(w) => WeightsUpdate(s.workers, w, Exited);
    case _ =>
  }

  lemma DrainStep(n: nat, steps: seq<Step>, states: seq<State>, k: nat)
    requires IsRun(n, steps, states) && k < |steps| && states[k].fetchDone
    ensures states[k + 1].fetchDone && Remaining(states[k + 1]) < Remaining(states[k])
  {
    RunInv(n, steps, states, k);
    assert NextAt(steps, states, k);
    DrainTerminates(states[k], steps[k]);
  }

  /** Every run that has stopped fetching takes at most Remaining further steps, ... */
  lemma {:induction false} DrainBound(n: nat, steps: seq<Step>, states: seq<State>, i: nat, k: nat)
    requires IsRun(n, steps, states) && i <= k <= |steps| && states[i].fetchDone
    ensures states[k].fetchDone && k - i + Remaining(states[k]) <= Remaining(states[i])
    decreases k
  {
    if i < k {
      DrainBound(n, steps, states, i, k - 1);
      DrainStep(n, steps, states, k - 1);
    }
  }

  /** ... and one in which no component can move any more has closed the consumer. */
  lemma StoppedIsClosed(n: nat, steps: seq<Step>, states: seq<State>, k: nat)
    requires IsRun(n, steps, states) && k <= |steps| && states[k].fetchDone && !CanMove(states[k])
    ensures states[k].consumerClosed
  {
    RunInv(n, steps, states, k);
    if !states[k].consumerClosed {
      Progress(states[k]);
    }
  }
}
