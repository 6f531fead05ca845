/** Webhook delivery as one system of interleaved atomic steps: any number of dispatches
    (internal/service/webhook.go Dispatch) and webhook workers (internal/worker/webhook_worker.go).

    Creating a delivery row, publishing its message, fetching a record, each POST, the final
    database write and the offset commit are single steps; any external call may fail.  A
    record may be fetched by any worker, any number of times.  Row ids are supplied by the
    database and are fresh.  The event payload and the signature are opaque. */
module WebhookProtocol {
  import opened Collections

  datatype DeliveryStatus = Pending | Delivered | Failed

  /** What the final write of a processing records. */
  datatype Outcome = Outcome(status: DeliveryStatus, attempt: int, response: Option<int>, failed: bool)

  datatype Delivery = Delivery(endpoint: nat, notification: nat, event: string, outcome: Outcome)

  type Table = map<nat, Delivery>

  const UNTRIED := Outcome(Pending, 0, None, false)

  datatype Endpoint = Endpoint(id: nat, url: string, secret: string)

  datatype WebhookMessage = WebhookMessage(
    tenant: nat, endpoint: nat, deliveryId: nat, notification: nat, event: string,
    url: string, secret: string, attempt: int, maxAttempts: int)

  /** What a record of the topic holds. */
  datatype Raw = Undecodable | Decoded(msg: WebhookMessage)

  datatype Http = Responded(code: int) | NoResponse

  /** A dispatch: the endpoints still to do, and the row made for the first of them if its
      message has not been published yet. */
  datatype Dispatcher = Dispatcher(tenant: nat, notification: nat, event: string, todo: seq<Endpoint>, row: Option<nat>)

  /** Where a worker stands with record k, and the answers to its POSTs so far. */
  datatype Worker =
    | Idle
    | Posting(k: nat, posts: seq<Http>)
    | Waiting(k: nat, posts: seq<Http>)
    | Storing(k: nat, posts: seq<Http>, outcome: Outcome)
    | Committing(k: nat)

  datatype Action = Stored(k: nat, id: nat, posts: seq<Http>, outcome: Outcome) | Committed(k: nat)

  datatype State = State(
    deliveries: Table, topic: seq<Raw>, dispatchers: seq<Dispatcher>, workers: seq<Worker>, history: seq<Action>)

  datatype Step =
    | BeginDispatch(tenant: nat, notification: nat, event: string, listed: seq<Endpoint>)
    | CreateRow(p: nat, id: nat, up: bool)
    | PublishMessage(p: nat, up: bool)
    | Poison
    | Fetch(w: nat, k: nat)
    | MarshalFails(w: nat)
    | Post(w: nat, answer: Http)
    | Wake(w: nat)
    | CancelWait(w: nat)
    | Store(w: nat, up: bool)
    | Commit(w: nat, up: bool)

  /** send: an error unless the endpoint answered 2xx. */
  predicate Accepted(h: Http) {
    h.Responded? && 200 <= h.code < 300
  }

  function StatusCode(h: Http): int {
    if h.Responded? then h.code else 0
  }

  // ------------------------------------------------------------- rows and messages

  function NewDelivery(ep: Endpoint, notification: nat, event: string): Delivery {
    Delivery(ep.id, notification, event, UNTRIED)
  }

  function NewMessage(ep: Endpoint, tenant: nat, notification: nat, event: string, id: nat, maxAttempts: int): WebhookMessage {
    WebhookMessage(tenant, ep.id, id, notification, event, ep.url, ep.secret, 1, maxAttempts)
  }

  /** markDelivered, after the POST that was accepted. */
  function Success(msg: WebhookMessage, posts: seq<Http>): Outcome
    requires posts != []
  {
    Outcome(Delivered, msg.attempt + |posts| - 1, Some(StatusCode(posts[|posts| - 1])), false)
  }

  /** markFailed: the attempt recorded is the budget; without an answer there is no response. */
  function Failure(msg: WebhookMessage, posts: seq<Http>): Outcome {
    var code := if posts == [] then 0 else StatusCode(posts[|posts| - 1]);
    Outcome(Failed, msg.maxAttempts, if code != 0 then Some(code) else None, true)
  }

  // ------------------------------------------------------------------------ steps

  /** Worker w holds record k, which decodes. */
  predicate Holds(s: State, k: nat) {
    k < |s.topic| && s.topic[k].Decoded?
  }

  ghost predicate Enabled(s: State, step: Step) {
    match step
    case BeginDispatch(_, _, _, _) => true
    case CreateRow(p, id, _) =>
      p < |s.dispatchers| && s.dispatchers[p].todo != [] && s.dispatchers[p].row.None? && id !in s.deliveries
    case PublishMessage(p, _) => p < |s.dispatchers| && s.dispatchers[p].todo != [] && s.dispatchers[p].row.Some?
    case Poison => true
    case Fetch(w, k) => w < |s.workers| && s.workers[w] == Idle && k < |s.topic|
    case MarshalFails(w) => w < |s.workers| && s.workers[w].Posting? && s.workers[w].posts == [] && Holds(s, s.workers[w].k)
    case Post(w, _) => w < |s.workers| && s.workers[w].Posting? && Holds(s, s.workers[w].k)
    case Wake(w) => w < |s.workers| && s.workers[w].Waiting?
    case CancelWait(w) => w < |s.workers| && s.workers[w].Waiting?
    case Store(w, _) => w < |s.workers| && s.workers[w].Storing? && Holds(s, s.workers[w].k)
    case Commit(w, _) => w < |s.workers| && s.workers[w].Committing?
  }

  /** The endpoint at hand is done with. */
  function NextEndpoint(d: Dispatcher): Dispatcher
    requires d.todo != []
  {
    d.(todo := d.todo[1..], row := None)
  }

  /** What a worker does with the answer to a POST. */
  function AfterPost(msg: WebhookMessage, k: nat, posts: seq<Http>): Worker
    requires posts != []
  {
    if Accepted(posts[|posts| - 1]) then Storing(k, posts, Success(msg, posts))
    else if msg.attempt + |posts| - 1 >= msg.maxAttempts then Storing(k, posts, Failure(msg, posts))
    else Waiting(k, posts)
  }

  ghost function Apply(maxAttempts: int, s: State, step: Step): State
    requires Enabled(s, step)
  {
    match step
    case BeginDispatch(tenant, notification, event, listed) =>
      s.(dispatchers := s.dispatchers + [Dispatcher(tenant, notification, event, listed, None)])
    case CreateRow(p, id, up) =>
      var d := s.dispatchers[p];
      if up then
        s.(deliveries := s.deliveries[id := NewDelivery(d.todo[0], d.notification, d.event)],
           dispatchers := s.dispatchers[p := d.(row := Some(id))])
      else s.(dispatchers := s.dispatchers[p := NextEndpoint(d)])
    case PublishMessage(p, up) =>
      var d := s.dispatchers[p];
      var msg := NewMessage(d.todo[0], d.tenant, d.notification, d.event, d.row.value, maxAttempts);
      s.(topic := if up then s.topic + [Decoded(msg)] else s.topic, dispatchers := s.dispatchers[p := NextEndpoint(d)])
    case Poison => s.(topic := s.topic + [Undecodable])
    case Fetch(w, k) => Move(s, w, if s.topic[k].Decoded? then Posting(k, []) else Committing(k))
    case MarshalFails(w) =>
      var k := s.workers[w].k;
      Move(s, w, Storing(k, [], Failure(s.topic[k].msg, [])))
    case Post(w, answer) =>
      var k := s.workers[w].k;
      Move(s, w, AfterPost(s.topic[k].msg, k, s.workers[w].posts + [answer]))
    case Wake(w) => Move(s, w, Posting(s.workers[w].k, s.workers[w].posts))
    case CancelWait(w) => Move(s, w, Idle)
    case Store(w, up) => ApplyStore(s, w, up)
    case Commit(w, up) =>
      Move(s, w, Idle).(history := if up then s.history + [Committed(s.workers[w].k)] else s.history)
  }

  function Move(s: State, w: nat, worker: Worker): State
    requires w < |s.workers|
  {
    s.(workers := s.workers[w := worker])
  }

  /** UpdateDelivery: an error, and no commit, when the database is down or the row is gone. */
  function ApplyStore(s: State, w: nat, up: bool): State
    requires w < |s.workers| && s.workers[w].Storing? && Holds(s, s.workers[w].k)
  {
    var worker := s.workers[w];
    var id := s.topic[worker.k].msg.deliveryId;
    if up && id in s.deliveries then
      Move(s, w, Committing(worker.k)).(
        deliveries := s.deliveries[id := s.deliveries[id].(outcome := worker.outcome)],
        history := s.history + [Stored(worker.k, id, worker.posts, worker.outcome)])
    else Move(s, w, Idle)
  }

  // ------------------------------------------------------------------------- runs

  function Start(n: nat): State {
    State(map[], [], [], seq(n, _ => Idle), [])
  }

  ghost predicate NextAt(max: int, steps: seq<Step>, states: seq<State>, k: nat)
    requires k < |steps| && k + 1 < |states|
  {
    Enabled(states[k], steps[k]) && states[k + 1] == Apply(max, states[k], steps[k])
  }

  ghost predicate Path(max: int, steps: seq<Step>, states: seq<State>) {
    && |states| == |steps| + 1
    && (forall k {:trigger NextAt(max, steps, states, k)} :: 0 <= k < |steps| ==> NextAt(max, steps, states, k))
  }

  /** Any interleaving, of any length, of any number of dispatches and n workers. */
  ghost predicate IsRun(max: int, n: nat, steps: seq<Step>, states: seq<State>) {
    Path(max, steps, states) && states[0] == Start(n)
  }

  /** Reaching s' from s by taking steps. */
  ghost predicate Reaches(max: int, s: State, steps: seq<Step>, s': State) {
    exists states :: Path(max, steps, states) && states[0] == s && states[|steps|] == s'
  }

  lemma ReachesNone(max: int, s: State)
    ensures Reaches(max, s, [], s)
  {
    assert Path(max, [], [s]);
  }

  lemma ReachesOn(max: int, s: State, first: seq<Step>, m: State, more: seq<Step>, s': State)
    requires Reaches(max, s, first, m) && Reaches(max, m, more, s')
    ensures Reaches(max, s, first + more, s')
  {
    var before :| Path(max, first, before) && before[0] == s && before[|first|] == m;
    var after :| Path(max, more, after) && after[0] == m && after[|more|] == s';
    var all, states := first + more, before + after[1..];
    forall k | 0 <= k < |all| ensures NextAt(max, all, states, k) {
      if k < |first| {
        assert NextAt(max, first, before, k);
      } else {
        assert NextAt(max, more, after, k - |first|);
      }
    }
    assert Path(max, all, states);
  }

  lemma ReachesStep(max: int, s: State, steps: seq<Step>, m: State, step: Step)
    requires Reaches(max, s, steps, m) && Enabled(m, step)
    ensures Reaches(max, s, steps + [step], Apply(max, m, step))
  {
    var states := [m, Apply(max, m, step)];
    assert NextAt(max, [step], states, 0);
    assert Path(max, [step], states);
    ReachesOn(max, s, steps, m, [step], Apply(max, m, step));
  }

  // ---------------------------------------------------------- what a processing shows

  /** The POSTs so far were all refused, and none was the last the budget allows. */
  ghost predicate Refused(msg: WebhookMessage, posts: seq<Http>) {
    forall i :: 0 <= i < |posts| ==> !Accepted(posts[i]) && msg.attempt + i < msg.maxAttempts
  }

  /** A processing that made these POSTs comes to this outcome. */
  ghost predicate Concludes(msg: WebhookMessage, posts: seq<Http>, o: Outcome) {
    if posts == [] then o == Failure(msg, [])
    else
      var n := |posts| - 1;
      && Refused(msg, posts[..n])
      && (Accepted(posts[n]) || msg.attempt + n >= msg.maxAttempts)
      && o == if Accepted(posts[n]) then Success(msg, posts) else Failure(msg, posts)
  }

  /** The last outcome stored for a delivery. */
  function LastOutcome(history: seq<Action>, id: nat): Option<Outcome> {
    if history == [] then None
    else
      var n := |history| - 1;
      if history[n].Stored? && history[n].id == id then Some(history[n].outcome) else LastOutcome(history[..n], id)
  }

  /** Before position p, an outcome of record k was stored. */
  ghost predicate StoredBefore(history: seq<Action>, p: nat, k: nat) {
    exists q :: 0 <= q < p && q < |history| && history[q].Stored? && history[q].k == k
  }

  // -------------------------------------------------------------------- invariants

  ghost predicate RowFor(t: Table, id: nat, endpoint: nat, notification: nat, event: string) {
    id in t && t[id].endpoint == endpoint && t[id].notification == notification && t[id].event == event
  }

  /** A message names a delivery made for its own endpoint, and is a first attempt. */
  ghost predicate Faithful(max: int, t: Table, m: WebhookMessage) {
    RowFor(t, m.deliveryId, m.endpoint, m.notification, m.event) && m.attempt == 1 && m.maxAttempts == max
  }

  ghost predicate DispatcherOk(t: Table, d: Dispatcher) {
    d.row.Some? ==> d.todo != [] && RowFor(t, d.row.value, d.todo[0].id, d.notification, d.event)
  }

  ghost predicate WorkerOk(s: State, worker: Worker) {
    match worker
    case Idle => true
    case Posting(k, posts) => Holds(s, k) && Refused(s.topic[k].msg, posts)
    case Waiting(k, posts) => Holds(s, k) && Refused(s.topic[k].msg, posts)
    case Storing(k, posts, o) => Holds(s, k) && Concludes(s.topic[k].msg, posts, o)
    case Committing(k) => k < |s.topic| && (s.topic[k].Decoded? ==> StoredBefore(s.history, |s.history|, k))
  }

  ghost predicate ActionOk(s: State, p: nat)
    requires p < |s.history|
  {
    match s.history[p]
    case Stored(k, id, posts, o) => Holds(s, k) && s.topic[k].msg.deliveryId == id && Concludes(s.topic[k].msg, posts, o)
    case Committed(k) => k < |s.topic| && (s.topic[k].Decoded? ==> StoredBefore(s.history, p, k))
  }

  /** A row says what was last stored for it, or that nothing was. */
  ghost predicate RowOk(s: State, id: nat)
    requires id in s.deliveries
  {
    s.deliveries[id].outcome == match LastOutcome(s.history, id) case None => UNTRIED case Some(o) => o
  }

  ghost predicate Inv(max: int, s: State) {
    && (forall k :: 0 <= k < |s.topic| && s.topic[k].Decoded? ==> Faithful(max, s.deliveries, s.topic[k].msg))
    && (forall p :: 0 <= p < |s.dispatchers| ==> DispatcherOk(s.deliveries, s.dispatchers[p]))
    && (forall w :: 0 <= w < |s.workers| ==> WorkerOk(s, s.workers[w]))
    && (forall p :: 0 <= p < |s.history| ==> ActionOk(s, p))
    && (forall id :: id in s.deliveries ==> RowOk(s, id))
    && (forall id :: LastOutcome(s.history, id).Some? ==> id in s.deliveries)
  }

  // ------------------------------------------------------------------ preservation

  /** Topic and history only grow, and rows stay, made for the same endpoint and event. */
  ghost predicate Later(s: State, s': State) {
    && (forall id :: id in s.deliveries ==>
          RowFor(s'.deliveries, id, s.deliveries[id].endpoint, s.deliveries[id].notification, s.deliveries[id].event))
    && |s.topic| <= |s'.topic| && (forall k :: 0 <= k < |s.topic| ==> s'.topic[k] == s.topic[k])
    && |s.history| <= |s'.history| && (forall p :: 0 <= p < |s.history| ==> s'.history[p] == s.history[p])
  }

  lemma StepLater(max: int, s: State, step: Step)
    requires Enabled(s, step)
    ensures Later(s, Apply(max, s, step))
  {
  }

  lemma StoredStays(h: seq<Action>, h': seq<Action>, p: nat, k: nat)
    requires StoredBefore(h, p, k) && |h| <= |h'| && forall q :: 0 <= q < |h| ==> h'[q] == h[q]
    ensures StoredBefore(h', p, k)
  {
    var q :| 0 <= q < p && q < |h| && h[q].Stored? && h[q].k == k;
    assert h'[q] == h[q];
  }

  lemma WorkerStays(s: State, s': State, worker: Worker)
    requires WorkerOk(s, worker) && Later(s, s')
    ensures WorkerOk(s', worker)
  {
    if worker.Committing? && s.topic[worker.k].Decoded? {
      StoredStays(s.history, s'.history, |s.history|, worker.k);
      var q :| 0 <= q < |s.history| && s'.history[q].Stored? && s'.history[q].k == worker.k;
      assert q < |s'.history|;
    }
  }

  lemma ActionStays(s: State, s': State, p: nat)
    requires p < |s.history| && ActionOk(s, p) && Later(s, s')
    ensures ActionOk(s', p)
  {
    if s.history[p].Committed? && s.topic[s.history[p].k].Decoded? {
      StoredStays(s.history, s'.history, p, s.history[p].k);
    }
  }

  lemma OutcomeAppend(h: seq<Action>, a: Action, id: nat)
    ensures LastOutcome(h + [a], id) == if a.Stored? && a.id == id then Some(a.outcome) else LastOutcome(h, id)
  {
    assert (h + [a])[..|h|] == h;
  }

  lemma MessagesInv(max: int, s: State, step: Step)
    requires Inv(max, s) && Enabled(s, step)
    ensures var s' := Apply(max, s, step);
            && (forall k :: 0 <= k < |s'.topic| && s'.topic[k].Decoded? ==> Faithful(max, s'.deliveries, s'.topic[k].msg))
            && (forall p :: 0 <= p < |s'.dispatchers| ==> DispatcherOk(s'.deliveries, s'.dispatchers[p]))
  {
    var s' := Apply(max, s, step);
    StepLater(max, s, step);
    forall k | 0 <= k < |s'.topic| && s'.topic[k].Decoded? ensures Faithful(max, s'.deliveries, s'.topic[k].msg) {
      if k < |s.topic| {
        assert Faithful(max, s.deliveries, s.topic[k].msg);
      } else {
        assert DispatcherOk(s.deliveries, s.dispatchers[step.p]);
      }
    }
    forall p | 0 <= p < |s'.dispatchers| ensures DispatcherOk(s'.deliveries, s'.dispatchers[p]) {
      if p < |s.dispatchers| {
        assert DispatcherOk(s.deliveries, s.dispatchers[p]);
      }
    }
  }

  /** The worker that took the step is where it should be. */
  lemma MovedOk(max: int, s: State, step: Step)
    requires Inv(max, s) && Enabled(s, step)
    requires step.Fetch? || step.MarshalFails? || step.Post? || step.Wake? || step.CancelWait? || step.Store? || step.Commit?
    ensures WorkerOk(Apply(max, s, step), Apply(max, s, step).workers[step.w])
  {
    var s' := Apply(max, s, step);
    assert WorkerOk(s, s.workers[step.w]);
    match step
    case Post(w, answer) =>
      var posts := s.workers[w].posts + [answer];
      assert posts[..|posts| - 1] == s.workers[w].posts;
    case Store(w, up) =>
      if s'.workers[w].Committing? {
        assert s'.history[|s.history|].Stored? && s'.history[|s.history|].k == s.workers[w].k;
      }
    case _ =>
  }

  lemma WorkersInv(max: int, s: State, step: Step)
    requires Inv(max, s) && Enabled(s, step)
    ensures forall w :: 0 <= w < |Apply(max, s, step).workers| ==> WorkerOk(Apply(max, s, step), Apply(max, s, step).workers[w])
  {
    var s' := Apply(max, s, step);
    StepLater(max, s, step);
    forall w | 0 <= w < |s'.workers| ensures WorkerOk(s', s'.workers[w]) {
      if s'.workers[w] == s.workers[w] {
        WorkerStays(s, s', s.workers[w]);
      } else {
        MovedOk(max, s, step);
      }
    }
  }

  lemma HistoryInv(max: int, s: State, step: Step)
    requires Inv(max, s) && Enabled(s, step)
    ensures forall p :: 0 <= p < |Apply(max, s, step).history| ==> ActionOk(Apply(max, s, step), p)
  {
    var s' := Apply(max, s, step);
    StepLater(max, s, step);
    forall p | 0 <= p < |s'.history| ensures ActionOk(s', p) {
      if p < |s.history| {
        ActionStays(s, s', p);
      } else {
        assert WorkerOk(s, s.workers[step.w]);
        if step.Commit? && s.topic[s.workers[step.w].k].Decoded? {
          StoredStays(s.history, s'.history, |s.history|, s.workers[step.w].k);
        }
      }
    }
  }

  lemma RowsInv(max: int, s: State, step: Step)
    requires Inv(max, s) && Enabled(s, step)
    ensures var s' := Apply(max, s, step);
            && (forall id :: id in s'.deliveries ==> RowOk(s', id))
            && (forall id :: LastOutcome(s'.history, id).Some? ==> id in s'.deliveries)
  {
    var s' := Apply(max, s, step);
    if |s'.history| > |s.history| {
      var a := s'.history[|s.history|];
      assert s'.history == s.history + [a];
      forall id ensures LastOutcome(s'.history, id)
                     == if a.Stored? && a.id == id then Some(a.outcome) else LastOutcome(s.history, id) {
        OutcomeAppend(s.history, a, id);
      }
    }
    forall id | id in s'.deliveries ensures RowOk(s', id) {
      if id in s.deliveries {
        assert RowOk(s, id);
      }
    }
  }

  lemma StepInv(max: int, s: State, step: Step)
    requires Inv(max, s) && Enabled(s, step)
    ensures Inv(max, Apply(max, s, step))
  {
    MessagesInv(max, s, step);
    WorkersInv(max, s, step);
    HistoryInv(max, s, step);
    RowsInv(max, s, step);
  }

  lemma {:induction false} PathInv(max: int, steps: seq<Step>, states: seq<State>, k: nat)
    requires Path(max, steps, states) && Inv(max, states[0]) && k <= |steps|
    ensures Inv(max, states[k])
  {
    if k == 0 {
    } else {
      PathInv(max, steps, states, k - 1);
      assert NextAt(max, steps, states, k - 1);
      StepInv(max, states[k - 1], steps[k - 1]);
    }
  }

  lemma RunInv(max: int, n: nat, steps: seq<Step>, states: seq<State>, k: nat)
    requires IsRun(max, n, steps, states) && k <= |steps|
    ensures Inv(max, states[k])
  {
    PathInv(max, steps, states, k);
  }

  // ---------------------------------------------------------------------- theorems

  /** Rows are kept, stay their endpoint's, and none goes back to pending. */
  ghost predicate NoReturn(before: Table, after: Table) {
    forall id :: id in before ==>
      && RowFor(after, id, before[id].endpoint, before[id].notification, before[id].event)
      && (before[id].outcome.status != Pending ==> after[id].outcome.status != Pending)
  }

  lemma StepNoReturn(max: int, s: State, step: Step)
    requires Inv(max, s) && Enabled(s, step)
    ensures NoReturn(s.deliveries, Apply(max, s, step).deliveries)
  {
    StepLater(max, s, step);
    if step.Store? {
      assert WorkerOk(s, s.workers[step.w]);
    }
  }

  /** Under every interleaving of dispatches and workers, no delivery goes back to pending. */
  lemma {:induction false} NeverBackToPending(max: int, n: nat, steps: seq<Step>, states: seq<State>, i: nat, j: nat)
    requires IsRun(max, n, steps, states) && i <= j <= |steps|
    ensures NoReturn(states[i].deliveries, states[j].deliveries)
    decreases j
  {
    if i == j {
    } else {
      NeverBackToPending(max, n, steps, states, i, j - 1);
      RunInv(max, n, steps, states, j - 1);
      assert NextAt(max, steps, states, j - 1);
      StepNoReturn(max, states[j - 1], steps[j - 1]);
    }
  }

  /** Dispatch p was begun with a listing of which the endpoints it has still to do are the last. */
  lemma {:induction false} DispatchBegan(max: int, n: nat, steps: seq<Step>, states: seq<State>, j: nat, p: nat) returns (b: nat)
    requires IsRun(max, n, steps, states) && j <= |steps| && p < |states[j].dispatchers|
    ensures b < j && steps[b].BeginDispatch? && |states[b].dispatchers| == p
    ensures var d := states[j].dispatchers[p];
            && d.tenant == steps[b].tenant && d.notification == steps[b].notification && d.event == steps[b].event
            && |d.todo| <= |steps[b].listed| && d.todo == steps[b].listed[|steps[b].listed| - |d.todo|..]
  {
    if j == 0 {
    } else {
      assert NextAt(max, steps, states, j - 1);
      if p < |states[j - 1].dispatchers| {
        b := DispatchBegan(max, n, steps, states, j - 1, p);
        var todo, listed := states[j - 1].dispatchers[p].todo, steps[b].listed;
        if todo != [] {
          assert todo[1..] == listed[|listed| - |todo| + 1..];
        }
      } else {
        b := j - 1;
        assert steps[b].listed[0..] == steps[b].listed;
      }
    }
  }

  /** Every message on the topic was published by one dispatch, for one endpoint of its listing:
      it has the tenant, notification and event of that dispatch and the id, url and secret of
      that endpoint, is a first attempt with the configured budget, and names a delivery made for
      the same endpoint, notification and event. */
  lemma {:induction false} MessagesFaithful(max: int, n: nat, steps: seq<Step>, states: seq<State>, j: nat, k: nat)
    returns (b: nat, q: nat, i: nat)
    requires IsRun(max, n, steps, states) && j <= |steps| && Holds(states[j], k)
    ensures b < q < j && steps[b].BeginDispatch? && steps[q] == PublishMessage(|states[b].dispatchers|, true)
    ensures |states[q].topic| == k && i < |steps[b].listed|
    ensures var m, ep := states[j].topic[k].msg, steps[b].listed[i];
            && m.tenant == steps[b].tenant && m.notification == steps[b].notification && m.event == steps[b].event
            && m.endpoint == ep.id && m.url == ep.url && m.secret == ep.secret && m.attempt == 1 && m.maxAttempts == max
            && m.deliveryId in states[j].deliveries
            && var row := states[j].deliveries[m.deliveryId];
               row.endpoint == ep.id && row.notification == steps[b].notification && row.event == steps[b].event
  {
    RunInv(max, n, steps, states, j);
    assert Faithful(max, states[j].deliveries, states[j].topic[k].msg);
    if j == 0 {
    } else {
      assert NextAt(max, steps, states, j - 1);
      if k < |states[j - 1].topic| {
        b, q, i := MessagesFaithful(max, n, steps, states, j - 1, k);
      } else {
        q := j - 1;
        b := DispatchBegan(max, n, steps, states, q, steps[q].p);
        i := |steps[b].listed| - |states[q].dispatchers[steps[q].p].todo|;
      }
    }
  }

  /** Every delivery was made by one dispatch, for one endpoint of its listing. */
  lemma {:induction false} DeliveryMade(max: int, n: nat, steps: seq<Step>, states: seq<State>, j: nat, id: nat)
    returns (b: nat, q: nat, i: nat)
    requires IsRun(max, n, steps, states) && j <= |steps| && id in states[j].deliveries
    ensures b < q < j && steps[b].BeginDispatch? && steps[q] == CreateRow(|states[b].dispatchers|, id, true)
    ensures i < |steps[b].listed|
    ensures var row := states[j].deliveries[id];
            row.endpoint == steps[b].listed[i].id && row.notification == steps[b].notification && row.event == steps[b].event
  {
    if j == 0 {
    } else {
      assert NextAt(max, steps, states, j - 1);
      if id in states[j - 1].deliveries {
        b, q, i := DeliveryMade(max, n, steps, states, j - 1, id);
        StepLater(max, states[j - 1], steps[j - 1]);
      } else {
        q := j - 1;
        b := DispatchBegan(max, n, steps, states, q, steps[q].p);
        i := |steps[b].listed| - |states[q].dispatchers[steps[q].p].todo|;
      }
    }
  }

  /** Until an outcome has been stored for it, a delivery is pending, untried and unanswered. */
  lemma UntriedUntilStored(max: int, n: nat, steps: seq<Step>, states: seq<State>, j: nat, id: nat)
    requires IsRun(max, n, steps, states) && j <= |steps| && id in states[j].deliveries
    requires forall p :: 0 <= p < |states[j].history| && states[j].history[p].Stored? ==> states[j].history[p].id != id
    ensures states[j].deliveries[id].outcome == Outcome(Pending, 0, None, false)
  {
    RunInv(max, n, steps, states, j);
    assert RowOk(states[j], id);
    if LastOutcome(states[j].history, id).Some? {
      var q := OutcomeStored(states[j].history, id);
    }
  }

  lemma ReachesInv(max: int, s: State, steps: seq<Step>, s': State)
    requires Inv(max, s) && Reaches(max, s, steps, s')
    ensures Inv(max, s') && NoReturn(s.deliveries, s'.deliveries) && Later(s, s')
  {
    var states :| Path(max, steps, states) && states[0] == s && states[|steps|] == s';
    PathNoReturn(max, steps, states, |steps|);
  }

  lemma {:induction false} PathNoReturn(max: int, steps: seq<Step>, states: seq<State>, j: nat)
    requires Path(max, steps, states) && Inv(max, states[0]) && j <= |steps|
    ensures Inv(max, states[j]) && NoReturn(states[0].deliveries, states[j].deliveries) && Later(states[0], states[j])
  {
    if j == 0 {
    } else {
      PathNoReturn(max, steps, states, j - 1);
      assert NextAt(max, steps, states, j - 1);
      StepNoReturn(max, states[j - 1], steps[j - 1]);
      StepLater(max, states[j - 1], steps[j - 1]);
      StepInv(max, states[j - 1], steps[j - 1]);
    }
  }

  /** A decodable record is committed only after an outcome of its processing was stored, and
      its delivery is terminal from then on. */
  lemma StoredBeforeCommit(max: int, n: nat, steps: seq<Step>, states: seq<State>, j: nat, p: nat)
    requires IsRun(max, n, steps, states) && j <= |steps|
    requires p < |states[j].history| && states[j].history[p].Committed? && Holds(states[j], states[j].history[p].k)
    ensures StoredBefore(states[j].history, p, states[j].history[p].k)
    ensures var id := states[j].topic[states[j].history[p].k].msg.deliveryId;
            id in states[j].deliveries && states[j].deliveries[id].outcome.status != Pending
  {
    RunInv(max, n, steps, states, j);
    CommittedSettled(max, states[j], p);
  }

  ghost predicate Settled(s: State, k: nat) {
    Holds(s, k) ==>
      s.topic[k].msg.deliveryId in s.deliveries && s.deliveries[s.topic[k].msg.deliveryId].outcome.status != Pending
  }

  lemma CommittedSettled(max: int, s: State, p: nat)
    requires Inv(max, s) && p < |s.history| && s.history[p].Committed?
    ensures s.history[p].k < |s.topic| && Settled(s, s.history[p].k)
    ensures Holds(s, s.history[p].k) ==> StoredBefore(s.history, p, s.history[p].k)
  {
    var k := s.history[p].k;
    assert ActionOk(s, p);
    if Holds(s, k) {
      var q :| 0 <= q < p && q < |s.history| && s.history[q].Stored? && s.history[q].k == k;
      assert ActionOk(s, q);
      StoredIsTerminal(s, q);
    }
  }

  /** What was stored once is never untried again. */
  lemma StoredIsTerminal(s: State, q: nat)
    requires q < |s.history| && s.history[q].Stored?
    requires forall p :: 0 <= p < |s.history| ==> ActionOk(s, p)
    requires forall id :: id in s.deliveries ==> RowOk(s, id)
    requires forall id :: LastOutcome(s.history, id).Some? ==> id in s.deliveries
    ensures s.history[q].id in s.deliveries && s.deliveries[s.history[q].id].outcome.status != Pending
  {
    var r := LastStore(s.history, s.history[q].id, q);
    assert ActionOk(s, r);
    assert RowOk(s, s.history[q].id);
  }

  /** The action that stored the last outcome, given that some action stored one. */
  lemma {:induction false} LastStore(h: seq<Action>, id: nat, q: nat) returns (r: nat)
    requires q < |h| && h[q].Stored? && h[q].id == id
    ensures r < |h| && h[r].Stored? && h[r].id == id && LastOutcome(h, id) == Some(h[r].outcome)
    ensures forall p :: r < p < |h| && h[p].Stored? ==> h[p].id != id
  {
    var n := |h| - 1;
    if h[n].Stored? && h[n].id == id {
      r := n;
    } else {
      r := LastStore(h[..n], id, q);
    }
  }

  lemma {:induction false} OutcomeStored(h: seq<Action>, id: nat) returns (q: nat)
    requires LastOutcome(h, id).Some?
    ensures q < |h| && h[q].Stored? && h[q].id == id
  {
    var n := |h| - 1;
    if h[n].Stored? && h[n].id == id {
      q := n;
    } else {
      q := OutcomeStored(h[..n], id);
    }
  }

  /** What an outcome tells of the POSTs made: delivered exactly if the last was answered with a
      code from 200 to 299; no POST before it was; a failure comes after as many POSTs as the
      budget allows, at least one, or none if there was nothing to POST; the attempt recorded is
      the number of POSTs for a success and the budget for a failure; the response is the last
      answer's code, if there was an answer. */
  ghost predicate Truthful(msg: WebhookMessage, posts: seq<Http>, o: Outcome) {
    && o.status != Pending && (o.failed <==> o.status == Failed)
    && (o.status == Delivered <==> posts != [] && Accepted(posts[|posts| - 1]))
    && (forall i :: 0 <= i < |posts| - 1 ==> !Accepted(posts[i]))
    && |posts| <= (if msg.maxAttempts > 1 then msg.maxAttempts else 1)
    && (o.status == Failed && posts != [] ==> |posts| == if msg.maxAttempts > 1 then msg.maxAttempts else 1)
    && o.attempt == (if o.status == Delivered then |posts| else msg.maxAttempts)
    && (posts != [] && StatusCode(posts[|posts| - 1]) != 0 ==> o.response == Some(StatusCode(posts[|posts| - 1])))
    && (posts == [] || posts[|posts| - 1].NoResponse? ==> o.response == None)
  }

  lemma ConclusionTruthful(msg: WebhookMessage, posts: seq<Http>, o: Outcome)
    requires Concludes(msg, posts, o) && msg.attempt == 1
    ensures Truthful(msg, posts, o)
    ensures var last := posts != [] && posts[|posts| - 1].Responded? && 200 <= posts[|posts| - 1].code < 300;
            && o.status == (if last then Delivered else Failed) && o.failed == !last
            && o.attempt == (if last then |posts| else msg.maxAttempts)
            && (!last && posts != [] ==> |posts| == if msg.maxAttempts > 1 then msg.maxAttempts else 1)
            && o.response == if posts != [] && posts[|posts| - 1].Responded? && posts[|posts| - 1].code != 0
                             then Some(posts[|posts| - 1].code) else None
    ensures forall i :: 0 <= i < |posts| - 1 ==> posts[i].NoResponse? || posts[i].code < 200 || posts[i].code >= 300
    ensures |posts| > 1 ==> |posts| <= msg.maxAttempts
  {
    if posts == [] {
    } else {
      var n := |posts| - 1;
      forall i | 0 <= i < n ensures !Accepted(posts[i]) && 1 + i < msg.maxAttempts {
        assert posts[..n][i] == posts[i];
      }
      if n > 0 {
        assert !Accepted(posts[n - 1]);
      }
    }
  }

  /** In every reachable state a delivery that is not pending shows, truthfully, the outcome of
      one processing of its own message, the last that stored one. */
  lemma RecordsTruthful(max: int, n: nat, steps: seq<Step>, states: seq<State>, j: nat, id: nat) returns (q: nat)
    requires IsRun(max, n, steps, states) && j <= |steps|
    requires id in states[j].deliveries && states[j].deliveries[id].outcome.status != Pending
    ensures q < |states[j].history| && states[j].history[q].Stored? && states[j].history[q].id == id
    ensures forall p :: q < p < |states[j].history| && states[j].history[p].Stored? ==> states[j].history[p].id != id
    ensures states[j].deliveries[id].outcome == states[j].history[q].outcome
    ensures Holds(states[j], states[j].history[q].k)
    ensures var msg := states[j].topic[states[j].history[q].k].msg;
            msg.deliveryId == id && Truthful(msg, states[j].history[q].posts, states[j].deliveries[id].outcome)
  {
    RunInv(max, n, steps, states, j);
    var s := states[j];
    assert RowOk(s, id);
    var some := OutcomeStored(s.history, id);
    q := LastStore(s.history, id, some);
    assert ActionOk(s, q);
    assert Faithful(max, s.deliveries, s.topic[s.history[q].k].msg);
    ConclusionTruthful(s.topic[s.history[q].k].msg, s.history[q].posts, s.history[q].outcome);
  }
}
