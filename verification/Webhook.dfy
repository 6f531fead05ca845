/** The code of webhook fan-out and delivery (internal/service/webhook.go Dispatch,
    internal/worker/webhook_worker.go), each call proved to be a run of the webhook protocol.

    Database, broker and HTTP outcomes are inputs. */
module Webhook {
  import opened Collections
  import opened Backoff
  import opened WebhookProtocol

  /** One record's processing: does the payload marshal, what does the k-th POST give, is the
      context cancelled while waiting after it, do the final write and the commit succeed? */
  datatype Env = Env(marshals: bool, post: nat -> Http, cancelled: nat -> bool, storeUp: bool, commitUp: bool)

  /** One dispatch: the event, and for the i-th endpoint the id of its row and whether its
      insert and its publish succeed. */
  datatype Fan = Fan(tenant: nat, notification: nat, event: string, maxAttempts: int,
                     ids: nat -> nat, createUp: nat -> bool, publishUp: nat -> bool)

  // -------------------------------------------------------------------- dispatch

  /** Messages published for the first n endpoints, one for each row created and published. */
  function FanOut(eps: seq<Endpoint>, f: Fan, n: nat): seq<Raw>
    requires n <= |eps|
  {
    if n == 0 then []
    else
      FanOut(eps, f, n - 1)
      + (if f.createUp(n - 1) && f.publishUp(n - 1)
         then [Decoded(NewMessage(eps[n - 1], f.tenant, f.notification, f.event, f.ids(n - 1), f.maxAttempts))] else [])
  }

  /** The table after creating a pending row for each of them whose insert works. */
  function Created(t: Table, eps: seq<Endpoint>, f: Fan, n: nat): Table
    requires n <= |eps|
  {
    if n == 0 then t
    else
      var before := Created(t, eps, f, n - 1);
      if f.createUp(n - 1) then before[f.ids(n - 1) := NewDelivery(eps[n - 1], f.notification, f.event)] else before
  }

  /** Fan-out is exact: the rows added are one pending row per endpoint whose insert worked,
      made for that endpoint, and every older row is untouched. */
  lemma {:induction false} CreatedExactly(t: Table, eps: seq<Endpoint>, f: Fan, n: nat)
    requires n <= |eps| && FreshIds(t, f.ids, |eps|)
    ensures var t' := Created(t, eps, f, n);
            && (forall id :: id in t ==> id in t' && t'[id] == t[id])
            && (forall i: nat :: i < |eps| ==> (f.ids(i) in t' <==> i < n && f.createUp(i)))
            && (forall i: nat :: i < n && f.createUp(i) ==>
                  f.ids(i) in t' && t'[f.ids(i)] == Delivery(eps[i].id, f.notification, f.event, Outcome(Pending, 0, None, false)))
  {
    if n == 0 {
    } else {
      CreatedExactly(t, eps, f, n - 1);
    }
  }

  /** Every new row is some endpoint's. */
  lemma {:induction false} CreatedOnly(t: Table, eps: seq<Endpoint>, f: Fan, n: nat, id: nat)
    requires n <= |eps| && id in Created(t, eps, f, n) && id !in t
    ensures exists i: nat :: i < n && f.createUp(i) && f.ids(i) == id
  {
    if n == 0 {
    } else if f.createUp(n - 1) && f.ids(n - 1) == id {
    } else {
      CreatedOnly(t, eps, f, n - 1, id);
    }
  }

  /** The endpoints whose message is published. */
  function Reached(f: Fan): nat -> bool {
    (i: nat) => f.createUp(i) && f.publishUp(i)
  }

  lemma {:induction false} FanOutCount(eps: seq<Endpoint>, f: Fan, n: nat)
    requires n <= |eps|
    ensures |FanOut(eps, f, n)| == CountUp(Reached(f), n)
  {
    if n == 0 {
    } else {
      FanOutCount(eps, f, n - 1);
    }
  }

  /** Each endpoint whose insert and publish work gets one message, in the order of the listing,
      with its own url and secret, as a first attempt. */
  lemma {:induction false} FanOutExactly(eps: seq<Endpoint>, f: Fan, n: nat, i: nat)
    requires n <= |eps| && i < n && f.createUp(i) && f.publishUp(i)
    ensures CountUp(Reached(f), i) < |FanOut(eps, f, n)| == CountUp(Reached(f), n)
    ensures FanOut(eps, f, n)[CountUp(Reached(f), i)].Decoded?
    ensures var m := FanOut(eps, f, n)[CountUp(Reached(f), i)].msg;
            && m.tenant == f.tenant && m.endpoint == eps[i].id && m.url == eps[i].url && m.secret == eps[i].secret
            && m.deliveryId == f.ids(i) && m.notification == f.notification && m.event == f.event
            && m.attempt == 1 && m.maxAttempts == f.maxAttempts
  {
    FanOutCount(eps, f, n);
    FanOutCount(eps, f, n - 1);
    if i < n - 1 {
      FanOutExactly(eps, f, n - 1, i);
    }
  }

  /** Every published message is for an endpoint of the listing, has that endpoint's url and
      secret, and names the pending row made for it. */
  lemma {:induction false} FanOutFaithful(t: Table, eps: seq<Endpoint>, f: Fan, n: nat, j: nat) returns (i: nat)
    requires n <= |eps| && FreshIds(t, f.ids, |eps|) && j < |FanOut(eps, f, n)|
    ensures i < n && f.createUp(i) && f.publishUp(i) && FanOut(eps, f, n)[j].Decoded?
    ensures var m := FanOut(eps, f, n)[j].msg;
            && m.tenant == f.tenant && m.endpoint == eps[i].id && m.url == eps[i].url && m.secret == eps[i].secret
            && m.deliveryId == f.ids(i) && m.notification == f.notification && m.event == f.event
            && m.attempt == 1 && m.maxAttempts == f.maxAttempts
    ensures f.ids(i) in Created(t, eps, f, n)
    ensures var row := Created(t, eps, f, n)[f.ids(i)];
            && row.endpoint == eps[i].id && row.notification == f.notification && row.event == f.event
            && row.outcome == Outcome(Pending, 0, None, false)
  {
    CreatedExactly(t, eps, f, n);
    if n == 0 {
    } else if j < |FanOut(eps, f, n - 1)| {
      i := FanOutFaithful(t, eps, f, n - 1, j);
    } else {
      i := n - 1;
    }
  }

  /** The system when a dispatch that began in s has done n endpoints. */
  function Dispatched(s: State, eps: seq<Endpoint>, f: Fan, n: nat): State
    requires n <= |eps|
  {
    s.(deliveries := Created(s.deliveries, eps, f, n), topic := s.topic + FanOut(eps, f, n),
       dispatchers := s.dispatchers + [Dispatcher(f.tenant, f.notification, f.event, eps[n..], None)])
  }

  lemma CreateFails(s: State, eps: seq<Endpoint>, f: Fan, n: nat)
    requires n < |eps| && f.ids(n) !in Created(s.deliveries, eps, f, n) && !f.createUp(n)
    ensures var m, step := Dispatched(s, eps, f, n), CreateRow(|s.dispatchers|, f.ids(n), false);
            Enabled(m, step) && Apply(f.maxAttempts, m, step) == Dispatched(s, eps, f, n + 1)
  {
    var m := Dispatched(s, eps, f, n);
    assert eps[n..][1..] == eps[n + 1..] && FanOut(eps, f, n + 1) == FanOut(eps, f, n) + [];
    assert m.dispatchers[|s.dispatchers| := NextEndpoint(m.dispatchers[|s.dispatchers|])]
        == s.dispatchers + [Dispatcher(f.tenant, f.notification, f.event, eps[n + 1..], None)];
  }

  /** The row is made, its message not yet published. */
  function RowMade(s: State, eps: seq<Endpoint>, f: Fan, n: nat): State
    requires n < |eps|
  {
    Dispatched(s, eps, f, n).(
      deliveries := Created(s.deliveries, eps, f, n + 1),
      dispatchers := s.dispatchers + [Dispatcher(f.tenant, f.notification, f.event, eps[n..], Some(f.ids(n)))])
  }

  lemma CreateWorks(s: State, eps: seq<Endpoint>, f: Fan, n: nat)
    requires n < |eps| && f.ids(n) !in Created(s.deliveries, eps, f, n) && f.createUp(n)
    ensures var m, step := Dispatched(s, eps, f, n), CreateRow(|s.dispatchers|, f.ids(n), true);
            Enabled(m, step) && Apply(f.maxAttempts, m, step) == RowMade(s, eps, f, n)
  {
    var m, p := Dispatched(s, eps, f, n), |s.dispatchers|;
    assert eps[n..][0] == eps[n];
    assert m.dispatchers[p := m.dispatchers[p].(row := Some(f.ids(n)))]
        == s.dispatchers + [Dispatcher(f.tenant, f.notification, f.event, eps[n..], Some(f.ids(n)))];
  }

  lemma PublishDone(s: State, eps: seq<Endpoint>, f: Fan, n: nat)
    requires n < |eps| && f.createUp(n)
    ensures var m, step := RowMade(s, eps, f, n), PublishMessage(|s.dispatchers|, f.publishUp(n));
            Enabled(m, step) && Apply(f.maxAttempts, m, step) == Dispatched(s, eps, f, n + 1)
  {
    var m, p := RowMade(s, eps, f, n), |s.dispatchers|;
    assert eps[n..][0] == eps[n] && eps[n..][1..] == eps[n + 1..];
    assert m.dispatchers[p := NextEndpoint(m.dispatchers[p])]
        == s.dispatchers + [Dispatcher(f.tenant, f.notification, f.event, eps[n + 1..], None)];
    if f.publishUp(n) {
      var msg := Decoded(NewMessage(eps[n], f.tenant, f.notification, f.event, f.ids(n), f.maxAttempts));
      assert s.topic + FanOut(eps, f, n) + [msg] == s.topic + FanOut(eps, f, n + 1);
    } else {
      assert FanOut(eps, f, n + 1) == FanOut(eps, f, n) + [];
    }
  }

  /** A dispatch is a run of the protocol, one or two steps per endpoint. */
  lemma {:induction false} DispatchReaches(s: State, eps: seq<Endpoint>, f: Fan, n: nat) returns (steps: seq<Step>)
    requires n <= |eps| && FreshIds(s.deliveries, f.ids, |eps|)
    ensures Reaches(f.maxAttempts, s, steps, Dispatched(s, eps, f, n))
  {
    if n == 0 {
      var begin := BeginDispatch(f.tenant, f.notification, f.event, eps);
      ReachesNone(f.maxAttempts, s);
      ReachesStep(f.maxAttempts, s, [], s, begin);
      steps := [] + [begin];
      assert eps[0..] == eps && s.topic + [] == s.topic;
    } else {
      steps := DispatchReaches(s, eps, f, n - 1);
      CreatedExactly(s.deliveries, eps, f, n - 1);
      var p, m := |s.dispatchers|, Dispatched(s, eps, f, n - 1);
      var create := CreateRow(p, f.ids(n - 1), f.createUp(n - 1));
      if f.createUp(n - 1) {
        CreateWorks(s, eps, f, n - 1);
        PublishDone(s, eps, f, n - 1);
        ReachesStep(f.maxAttempts, s, steps, m, create);
        ReachesStep(f.maxAttempts, s, steps + [create], RowMade(s, eps, f, n - 1), PublishMessage(p, f.publishUp(n - 1)));
        steps := steps + [create] + [PublishMessage(p, f.publishUp(n - 1))];
      } else {
        CreateFails(s, eps, f, n - 1);
        ReachesStep(f.maxAttempts, s, steps, m, create);
        steps := steps + [create];
      }
    }
  }

  // ----------------------------------------------------------------- processing

  /** The loop ends with the k-th POST: accepted, out of attempts, or cancelled. */
  predicate Stops(msg: WebhookMessage, e: Env, k: nat) {
    Final(msg, e, k) || e.cancelled(k)
  }

  predicate Final(msg: WebhookMessage, e: Env, k: nat) {
    Accepted(e.post(k)) || msg.attempt + k >= msg.maxAttempts
  }

  /** What that means for the POSTs.  All but the last were refused, that is not answered with a
      code from 200 to 299, within the budget and not cancelled; the last was accepted, the last
      of the budget or cancelled after.  So the first accepted POST within the budget is reached,
      and if all are refused and nothing is cancelled the budget is used to its end. */
  lemma PostsExactly(msg: WebhookMessage, e: Env, n: nat)
    requires n > 0 && Stops(msg, e, n - 1) && forall i: nat :: i < n - 1 ==> !Stops(msg, e, i)
    ensures forall i: nat :: i < n - 1 ==>
              !e.cancelled(i) && (e.post(i).NoResponse? || e.post(i).code < 200 || e.post(i).code >= 300)
    ensures n > 1 ==> msg.attempt + (n - 1) <= msg.maxAttempts
    ensures Final(msg, e, n - 1)
       <==> msg.attempt + (n - 1) >= msg.maxAttempts || (e.post(n - 1).Responded? && 200 <= e.post(n - 1).code < 300)
    ensures !Final(msg, e, n - 1) ==> e.cancelled(n - 1)
    ensures forall k: nat ::
              e.post(k).Responded? && 200 <= e.post(k).code < 300 && (k > 0 ==> msg.attempt + k <= msg.maxAttempts)
              && (forall i: nat :: i < k ==>
                    !e.cancelled(i) && (e.post(i).NoResponse? || e.post(i).code < 200 || e.post(i).code >= 300))
              ==> n == k + 1
    ensures (forall i: nat :: !e.cancelled(i) && (e.post(i).NoResponse? || e.post(i).code < 200 || e.post(i).code >= 300)) ==>
              n == if msg.maxAttempts > msg.attempt then msg.maxAttempts - msg.attempt + 1 else 1
  {
    forall i: nat | i < n - 1
      ensures !e.cancelled(i) && msg.attempt + i < msg.maxAttempts
              && (e.post(i).NoResponse? || e.post(i).code < 200 || e.post(i).code >= 300)
    {
      assert !Stops(msg, e, i);
    }
    assert n > 1 ==> !Stops(msg, e, n - 2);
  }

  function Posts(e: Env, n: nat): (posts: seq<Http>)
    ensures |posts| == n && (n > 0 ==> posts[n - 1] == e.post(n - 1))
  {
    if n == 0 then [] else Posts(e, n - 1) + [e.post(n - 1)]
  }

  /** The outcome a processing of n POSTs that came to its end stores. */
  function OutcomeOf(msg: WebhookMessage, e: Env, n: nat): Outcome {
    if n > 0 && Accepted(e.post(n - 1)) then Success(msg, Posts(e, n)) else Failure(msg, Posts(e, n))
  }

  /** The outcome, answer by answer. */
  lemma OutcomeIs(msg: WebhookMessage, e: Env, n: nat)
    ensures OutcomeOf(msg, e, n)
         == if n > 0 && e.post(n - 1).Responded? && 200 <= e.post(n - 1).code < 300
            then Outcome(Delivered, msg.attempt + n - 1, Some(e.post(n - 1).code), false)
            else Outcome(Failed, msg.maxAttempts,
                         if n > 0 && e.post(n - 1).Responded? && e.post(n - 1).code != 0
                         then Some(e.post(n - 1).code) else None, true)
  {
  }

  lemma MoveTwice(s: State, w: nat, a: Worker, b: Worker)
    requires w < |s.workers|
    ensures Move(Move(s, w, a), w, b) == Move(s, w, b)
  {
  }

  /** POSTs that do not end the loop lead on to the next. */
  lemma {:induction false} PostsReach(max: int, s: State, before: seq<Step>, m: State, w: nat, k: nat,
                                      msg: WebhookMessage, e: Env, n: nat)
    returns (steps: seq<Step>)
    requires w < |m.workers| && k < |m.topic| && m.topic[k] == Decoded(msg)
    requires Reaches(max, s, before, Move(m, w, Posting(k, [])))
    requires forall i: nat :: i < n ==> !Stops(msg, e, i)
    ensures Reaches(max, s, steps, Move(m, w, Posting(k, Posts(e, n))))
  {
    if n == 0 {
      steps := before;
    } else {
      steps := PostsReach(max, s, before, m, w, k, msg, e, n - 1);
      var posting := Move(m, w, Posting(k, Posts(e, n - 1)));
      assert !Stops(msg, e, n - 1);
      ReachesStep(max, s, steps, posting, Post(w, e.post(n - 1)));
      MoveTwice(m, w, Posting(k, Posts(e, n - 1)), Waiting(k, Posts(e, n)));
      steps := steps + [Post(w, e.post(n - 1))];
      ReachesStep(max, s, steps, Move(m, w, Waiting(k, Posts(e, n))), Wake(w));
      MoveTwice(m, w, Waiting(k, Posts(e, n)), Posting(k, Posts(e, n)));
      steps := steps + [Wake(w)];
    }
  }

  /** A processing of n POSTs up to its final write, if it gets there. */
  lemma ConclusionReached(max: int, s: State, before: seq<Step>, m: State, w: nat, k: nat, msg: WebhookMessage, e: Env, n: nat)
    returns (steps: seq<Step>)
    requires w < |m.workers| && k < |m.topic| && m.topic[k] == Decoded(msg)
    requires Reaches(max, s, before, Move(m, w, Posting(k, [])))
    requires n > 0 ==> Stops(msg, e, n - 1) && forall i: nat :: i < n - 1 ==> !Stops(msg, e, i)
    ensures Reaches(max, s, steps, Move(m, w, if n == 0 || Final(msg, e, n - 1)
                                              then Storing(k, Posts(e, n), OutcomeOf(msg, e, n)) else Idle))
  {
    if n == 0 {
      ReachesStep(max, s, before, Move(m, w, Posting(k, [])), MarshalFails(w));
      MoveTwice(m, w, Posting(k, []), Storing(k, [], Failure(msg, [])));
      steps := before + [MarshalFails(w)];
    } else {
      steps := PostsReach(max, s, before, m, w, k, msg, e, n - 1);
      var posting := Move(m, w, Posting(k, Posts(e, n - 1)));
      ReachesStep(max, s, steps, posting, Post(w, e.post(n - 1)));
      MoveTwice(m, w, Posting(k, Posts(e, n - 1)), AfterPost(msg, k, Posts(e, n)));
      steps := steps + [Post(w, e.post(n - 1))];
      if !Final(msg, e, n - 1) {
        ReachesStep(max, s, steps, Move(m, w, Waiting(k, Posts(e, n))), CancelWait(w));
        MoveTwice(m, w, Waiting(k, Posts(e, n)), Idle);
        steps := steps + [CancelWait(w)];
      }
    }
  }

  /** The system after worker w has processed record k with n POSTs. */
  function Processed(m: State, w: nat, k: nat, msg: WebhookMessage, e: Env, n: nat): State
    requires w < |m.workers|
  {
    var id := msg.deliveryId;
    if (n == 0 || Final(msg, e, n - 1)) && e.storeUp && id in m.deliveries then
      Move(m, w, Committing(k)).(
        deliveries := m.deliveries[id := m.deliveries[id].(outcome := OutcomeOf(msg, e, n))],
        history := m.history + [Stored(k, id, Posts(e, n), OutcomeOf(msg, e, n))])
    else Move(m, w, Idle)
  }

  lemma ProcessReaches(max: int, s: State, before: seq<Step>, m: State, w: nat, k: nat, msg: WebhookMessage, e: Env, n: nat)
    returns (steps: seq<Step>)
    requires w < |m.workers| && k < |m.topic| && m.topic[k] == Decoded(msg)
    requires Reaches(max, s, before, Move(m, w, Posting(k, [])))
    requires n > 0 ==> Stops(msg, e, n - 1) && forall i: nat :: i < n - 1 ==> !Stops(msg, e, i)
    ensures Reaches(max, s, steps, Processed(m, w, k, msg, e, n))
  {
    steps := ConclusionReached(max, s, before, m, w, k, msg, e, n);
    if n == 0 || Final(msg, e, n - 1) {
      var storing := Storing(k, Posts(e, n), OutcomeOf(msg, e, n));
      ReachesStep(max, s, steps, Move(m, w, storing), Store(w, e.storeUp));
      MoveTwice(m, w, storing, Committing(k));
      MoveTwice(m, w, storing, Idle);
      steps := steps + [Store(w, e.storeUp)];
    }
  }

  class WebhookSystem {
    const maxAttempts: int
    const retryDelay: nat
    ghost const me: nat  // this worker's place among the workers
    var deliveries: Table
    var topic: seq<Raw>
    ghost var history: seq<Action>
    ghost var others: State  // dispatches and workers

    constructor (maxAttempts: int, retryDelay: nat, ghost workers: nat, ghost me: nat)
      requires me < workers
      ensures this.maxAttempts == maxAttempts && this.retryDelay == retryDelay
      ensures Valid() && View(Idle) == Start(workers)
    {
      this.retryDelay := retryDelay;
      this.maxAttempts := maxAttempts;
      this.me := me;
      deliveries := map[];
      topic := [];
      history := [];
      others := Start(workers);
      new;
      assert Start(workers).workers[me := Idle] == Start(workers).workers;
    }

    /** The protocol's state when this worker stands at worker. */
    ghost function View(worker: Worker): State
      requires me < |others.workers|
      reads this
    {
      others.(deliveries := deliveries, topic := topic, history := history, workers := others.workers[me := worker])
    }

    ghost predicate Valid()
      reads this
    {
      me < |others.workers| && Inv(maxAttempts, View(Idle))
    }

    /** Dispatch: a pending row per endpoint whose insert works, then its message.  Failing for
        one endpoint does not stop the others. */
    method Dispatch(listed: seq<Endpoint>, listUp: bool, f: Fan) returns (ok: bool, ghost steps: seq<Step>)
      requires Valid() && FreshIds(deliveries, f.ids, |listed|) && f.maxAttempts == maxAttempts
      modifies this`deliveries, this`topic, this`others
      ensures Valid() && ok == listUp
      ensures !ok ==> View(Idle) == old(View(Idle))
      ensures ok ==> View(Idle) == Dispatched(old(View(Idle)), listed, f, |listed|)
      ensures Reaches(maxAttempts, old(View(Idle)), steps, View(Idle))
    {
      ok, steps := listUp, [];
      ReachesNone(maxAttempts, View(Idle));
      if !listUp {
        return;
      }
      ghost var start := View(Idle);
      steps := DispatchReaches(start, listed, f, |listed|);
      ReachesInv(maxAttempts, start, steps, Dispatched(start, listed, f, |listed|));
      var i := 0;
      while i < |listed|
        invariant 0 <= i <= |listed| && others == old(others)
        invariant deliveries == Created(start.deliveries, listed, f, i)
        invariant topic == start.topic + FanOut(listed, f, i)
      {
        if f.createUp(i) {
          deliveries := deliveries[f.ids(i) := NewDelivery(listed[i], f.notification, f.event)];
          if f.publishUp(i) {
            topic := topic + [Decoded(NewMessage(listed[i], f.tenant, f.notification, f.event, f.ids(i), f.maxAttempts))];
          }
        }
        i := i + 1;
      }
      ghost var done := Dispatcher(f.tenant, f.notification, f.event, listed[|listed|..], None);
      others := others.(dispatchers := start.dispatchers + [done]);
    }

    /** UpdateDelivery: an error when the database is down or the row is gone. */
    method UpdateDelivery(id: nat, outcome: Outcome, up: bool, ghost k: nat, ghost posts: seq<Http>) returns (ok: bool)
      modifies this`deliveries, this`history
      ensures ok <==> up && id in old(deliveries)
      ensures !ok ==> deliveries == old(deliveries) && history == old(history)
      ensures ok ==> deliveries == old(deliveries)[id := old(deliveries)[id].(outcome := outcome)]
      ensures ok ==> history == old(history) + [Stored(k, id, posts, outcome)]
    {
      ok := up && id in deliveries;
      if ok {
        deliveries := deliveries[id := deliveries[id].(outcome := outcome)];
        history := history + [Stored(k, id, posts, outcome)];
      }
    }

    /** process: POST with inline retries, then record the outcome.  ok means it returned nil:
        the processing reached a conclusion and that conclusion was stored. */
    method Process(ghost k: nat, msg: WebhookMessage, e: Env) returns (ok: bool, sends: nat, waited: nat)
      modifies this`deliveries, this`history
      ensures e.marshals <==> sends > 0
      ensures sends > 0 ==> Stops(msg, e, sends - 1) && forall i: nat :: i < sends - 1 ==> !Stops(msg, e, i)
      ensures waited == if sends > 0 then TotalWait(retryDelay, msg.attempt, sends - 1) else 0
      ensures ok <==> (sends == 0 || Final(msg, e, sends - 1)) && e.storeUp && msg.deliveryId in old(deliveries)
      ensures !ok ==> deliveries == old(deliveries) && history == old(history)
      ensures ok ==> var id := msg.deliveryId;
                     deliveries == old(deliveries)[id := old(deliveries)[id].(outcome := OutcomeOf(msg, e, sends))]
      ensures ok ==> history == old(history) + [Stored(k, msg.deliveryId, Posts(e, sends), OutcomeOf(msg, e, sends))]
    {
      sends, waited := 0, 0;
      if !e.marshals {
        ok := UpdateDelivery(msg.deliveryId, Outcome(Failed, msg.maxAttempts, None, true), e.storeUp, k, []);
        return;
      }
      var attempt := msg.attempt;
      while true
        invariant attempt == msg.attempt + sends
        invariant forall i: nat :: i < sends ==> !Stops(msg, e, i)
        invariant sends > 0 ==> attempt <= msg.maxAttempts
        invariant waited == TotalWait(retryDelay, msg.attempt, sends)
        invariant deliveries == old(deliveries) && history == old(history)
        decreases msg.maxAttempts - attempt
      {
        var h := e.post(sends);
        sends := sends + 1;
        if Accepted(h) {
          ok := UpdateDelivery(msg.deliveryId, Outcome(Delivered, attempt, Some(h.code), false), e.storeUp, k, Posts(e, sends));
          return;
        }
        if attempt >= msg.maxAttempts {
          var code := StatusCode(h);
          var response := if code != 0 then Some(code) else None;
          ok := UpdateDelivery(msg.deliveryId, Outcome(Failed, msg.maxAttempts, response, true), e.storeUp, k, Posts(e, sends));
          return;
        }
        if e.cancelled(sends - 1) {
          ok := false;
          return;
        }
        waited := waited + Wait(retryDelay, attempt);
        attempt := attempt + 1;
      }
    }

    lemma ViewMoved(worker: Worker)
      requires me < |others.workers|
      ensures Move(View(Idle), me, worker) == View(worker)
    {
    }

    /** One record of the topic: process it if it decodes, and commit unless that failed. */
    method RunOne(k: nat, e: Env) returns (committed: bool, ghost steps: seq<Step>)
      requires Valid() && k < |topic|
      modifies this`deliveries, this`history
      ensures Valid() && NoReturn(old(deliveries), deliveries) && Later(old(View(Idle)), View(Idle))
      ensures Reaches(maxAttempts, old(View(Idle)), steps, View(Idle))
      ensures committed ==> e.commitUp && (topic[k].Undecodable? || e.storeUp)
      ensures e.commitUp && (topic[k].Undecodable? || (e.storeUp && forall i: nat :: !e.cancelled(i))) ==> committed
      ensures committed ==> Committed(k) in history
    {
      ghost var start := View(Idle);
      FetchReaches(maxAttempts, start, me, k);
      steps := [Fetch(me, k)];
      var ok := true;
      if topic[k].Decoded? {
        var sends, waited;
        ok, sends, waited := Process(k, topic[k].msg, e);
        steps := ProcessReaches(maxAttempts, start, steps, start, me, k, topic[k].msg, e, sends);
        assert Processed(start, me, k, topic[k].msg, e, sends) == View(if ok then Committing(k) else Idle);
        if sends > 0 {
          PostsExactly(topic[k].msg, e, sends);
        }
      } else {
        ViewMoved(Committing(k));
      }
      committed := ok && e.commitUp;
      if ok {
        ReachesStep(maxAttempts, start, steps, View(Committing(k)), Commit(me, e.commitUp));
        steps := steps + [Commit(me, e.commitUp)];
        if e.commitUp {
          history := history + [Committed(k)];
        }
      }
      ReachesInv(maxAttempts, start, steps, View(Idle));
    }

    /** A run of this worker that began in start, and the records it has committed. */
    ghost predicate Worked(start: State, steps: seq<Step>, commits: set<nat>)
      reads this
    {
      && Valid() && Reaches(maxAttempts, start, steps, View(Idle))
      && forall k :: k in commits ==> Committed(k) in history
    }

    /** The next record of a run. */
    method RunNext(k: nat, e: Env, commits: set<nat>, ghost start: State, ghost before: seq<Step>)
      returns (now: set<nat>, ghost steps: seq<Step>)
      requires Worked(start, before, commits) && k < |topic|
      modifies this`deliveries, this`history
      ensures Worked(start, steps, now) && commits <= now <= commits + {k}
      ensures e.commitUp && (topic[k].Undecodable? || (e.storeUp && forall i: nat :: !e.cancelled(i))) ==> k in now
    {
      ghost var m, more := View(Idle), [];
      var committed;
      committed, more := RunOne(k, e);
      StillCommitted(m.history, history, commits);
      ReachesOn(maxAttempts, start, before, m, more, View(Idle));
      steps := before + more;
      now := if committed then commits + {k} else commits;
    }

    /** Run: work off the fetched records in order; a record may come again.  If its commit works a
        record is committed when it does not decode, or when its outcome is stored, which only a
        failed write or a cancelled wait prevents; a committed record that decodes has a terminal
        status in the database, stored before the commit. */
    method Run(fetched: seq<nat>, envs: nat -> Env) returns (commits: set<nat>, ghost steps: seq<Step>)
      requires Valid() && forall i :: 0 <= i < |fetched| ==> fetched[i] < |topic|
      modifies this`deliveries, this`history
      ensures Valid() && NoReturn(old(deliveries), deliveries)
      ensures Reaches(maxAttempts, old(View(Idle)), steps, View(Idle))
      ensures forall i: nat :: i < |fetched| && envs(i).commitUp
                && (topic[fetched[i]].Undecodable? || (envs(i).storeUp && forall c: nat :: !envs(i).cancelled(c)))
                ==> fetched[i] in commits
      ensures forall k :: k in commits ==> k in fetched
      ensures forall k :: k in commits ==> Committed(k) in history && Settled(View(Idle), k)
    {
      ghost var start := View(Idle);
      commits, steps := {}, [];
      ReachesNone(maxAttempts, start);
      var i := 0;
      while i < |fetched|
        invariant 0 <= i <= |fetched| && Worked(start, steps, commits)
        invariant forall j: nat :: j < i && envs(j).commitUp
                    && (topic[fetched[j]].Undecodable? || (envs(j).storeUp && forall c: nat :: !envs(j).cancelled(c)))
                    ==> fetched[j] in commits
        invariant forall k :: k in commits ==> k in fetched
      {
        commits, steps := RunNext(fetched[i], envs(i), commits, start, steps);
        i := i + 1;
      }
      ReachesInv(maxAttempts, start, steps, View(Idle));
      AllSettled(maxAttempts, View(Idle), commits);
    }
  }

  lemma FetchReaches(max: int, s: State, w: nat, k: nat)
    requires w < |s.workers| && s.workers[w] == Idle && k < |s.topic|
    ensures Reaches(max, s, [Fetch(w, k)], Move(s, w, if s.topic[k].Decoded? then Posting(k, []) else Committing(k)))
  {
    ReachesNone(max, s);
    ReachesStep(max, s, [], s, Fetch(w, k));
    assert [] + [Fetch(w, k)] == [Fetch(w, k)];
  }

  lemma AllSettled(max: int, s: State, commits: set<nat>)
    requires Inv(max, s) && forall k :: k in commits ==> Committed(k) in s.history
    ensures forall k :: k in commits ==> Settled(s, k)
  {
    forall k | k in commits ensures Settled(s, k) {
      var p :| 0 <= p < |s.history| && s.history[p] == Committed(k);
      CommittedSettled(max, s, p);
    }
  }

  lemma StillCommitted(h: seq<Action>, h': seq<Action>, commits: set<nat>)
    requires |h| <= |h'| && forall p :: 0 <= p < |h| ==> h'[p] == h[p]
    requires forall k :: k in commits ==> Committed(k) in h
    ensures forall k :: k in commits ==> Committed(k) in h'
  {
    forall k | k in commits ensures Committed(k) in h' {
      var p :| 0 <= p < |h| && h[p] == Committed(k);
      assert h'[p] == Committed(k);
    }
  }

  /** Both loops wait the same closed form. */
  lemma WebhookWaitClosedForm(retryDelay: nat, msg: WebhookMessage, n: nat)
    requires msg.attempt == 1 && 1 <= n && (n > 1 ==> n <= msg.maxAttempts)
    requires msg.maxAttempts >= 2 ==> retryDelay * Pow2(msg.maxAttempts - 2) < INT64_LIMIT
    ensures TotalWait(retryDelay, msg.attempt, n - 1) == retryDelay * (Pow2(n - 1) - 1)
  {
    if n > 1 {
      GeometricWait(retryDelay, 1, msg.maxAttempts, n - 1);
    }
  }
}
