/** The delivery pipeline for one message (internal/worker/processor.go).

    Every dependency is an input that may fail.  The result is the returned error, if any,
    and the trace of effects attempted, in order; errors of the writes themselves are
    swallowed by the code, so the trace records attempts. */
module Processor {
  import opened Backoff
  import opened Delivery

  datatype Reason = RetriesExhausted | PermanentError | TemplateRender | NoProvider

  /** What one provider call reports; an error of any other type counts as temporary. */
  datatype SendOutcome = Sent | Temporary | Permanent

  /** The delivery log's own status, the webhook events and the label of the outcome counter
      are enumerations of their own in the source, each written as a literal in each branch. */
  datatype DeliveryResult = DeliverySuccess | DeliveryFailed

  datatype Event = EventDelivered | EventFailed | EventDropped

  datatype Label = LabelDelivered | LabelFailed | LabelDroppedPref | LabelDroppedRateLimit

  datatype Effect =
    | UpdateStatus(status: Status)
    | ProviderSend(outcome: SendOutcome)
    | LogDelivery(result: DeliveryResult)
    | PublishLetter(reason: Reason)
    | DispatchEvent(event: Event)

  datatype Check = Pass | Block | Error

  /** Attempt and budget come from the message, the rest from the environment: the k-th
      provider call of this processing reports send(k), and cancelled(k) says whether the
      context is cancelled while waiting after it. */
  datatype Env = Env(
    attempt: int, maxAttempts: int, retryDelay: nat,
    fetchUp: bool, markUp: bool, preference: Check, rateCap: int, rateLimit: Check,
    hasTemplate: bool, renderUp: bool, hasProvider: bool,
    send: nat -> SendOutcome, cancelled: nat -> bool,
    dlqEnabled: bool, dlqPublisher: bool, webhook: bool)

  datatype SendResult = SendOk | SendPermanent | SendExhausted | SendCancelled

  function SendEffects(send: nat -> SendOutcome, n: nat): seq<Effect> {
    if n == 0 then [] else SendEffects(send, n - 1) + [ProviderSend(send(n - 1))]
  }

  /** sendWithRetry: every send but the last was temporary, within the budget and not cancelled;
      the last succeeded, failed for good, used the budget up or was cancelled after, and the
      result says which.  So the first success within the budget is reached, and if nothing but
      temporary errors comes the budget is used to its end. */
  method SendWithRetry(e: Env) returns (r: SendResult, sends: nat, waited: nat)
    ensures sends >= 1
    ensures forall k: nat :: k < sends - 1 ==> e.send(k) == Temporary && !e.cancelled(k)
    ensures sends > 1 ==> e.attempt + (sends - 1) <= e.maxAttempts
    ensures r.SendOk? <==> e.send(sends - 1) == Sent
    ensures r.SendPermanent? <==> e.send(sends - 1) == Permanent
    ensures r.SendExhausted? <==> e.send(sends - 1) == Temporary && e.attempt + (sends - 1) >= e.maxAttempts
    ensures r.SendCancelled?
       <==> e.send(sends - 1) == Temporary && e.attempt + (sends - 1) < e.maxAttempts && e.cancelled(sends - 1)
    ensures forall k: nat ::
              e.send(k) == Sent && (k > 0 ==> e.attempt + k <= e.maxAttempts)
              && (forall i: nat :: i < k ==> e.send(i) == Temporary && !e.cancelled(i))
              ==> r == SendOk && sends == k + 1
    ensures (forall k: nat :: e.send(k) == Temporary && !e.cancelled(k)) ==>
              r == SendExhausted && sends == if e.maxAttempts > e.attempt then e.maxAttempts - e.attempt + 1 else 1
    ensures waited == TotalWait(e.retryDelay, e.attempt, sends - 1)
  {
    var attempt := e.attempt;
    sends, waited := 0, 0;
    while true
      invariant attempt == e.attempt + sends
      invariant forall k: nat :: k < sends ==> e.send(k) == Temporary && !e.cancelled(k)
      invariant sends > 0 ==> attempt <= e.maxAttempts
      invariant waited == TotalWait(e.retryDelay, e.attempt, sends)
      decreases e.maxAttempts - attempt
    {
      var outcome := e.send(sends);
      sends := sends + 1;
      if outcome == Sent {
        return SendOk, sends, waited;
      }
      if outcome == Permanent {
        return SendPermanent, sends, waited;
      }
      if attempt >= e.maxAttempts {
        return SendExhausted, sends, waited;
      }
      if e.cancelled(sends - 1) {
        return SendCancelled, sends, waited;
      }
      waited := waited + Wait(e.retryDelay, attempt);
      attempt := attempt + 1;
    }
  }

  /** Backoff in closed form, for messages as producers write them. */
  lemma RetryWaitClosedForm(e: Env, sends: nat)
    requires e.attempt >= 1 && 1 <= sends && (sends > 1 ==> e.attempt + sends - 1 <= e.maxAttempts)
    requires e.maxAttempts >= 2 ==> e.retryDelay * Pow2(e.maxAttempts - 2) < INT64_LIMIT
    ensures TotalWait(e.retryDelay, e.attempt, sends - 1)
         == e.retryDelay * Pow2(e.attempt - 1) * (Pow2(sends - 1) - 1)
  {
    if sends > 1 {
      GeometricWait(e.retryDelay, e.attempt, e.maxAttempts, sends - 1);
    } else {
      assert e.retryDelay * Pow2(e.attempt - 1) * 0 == 0;
    }
  }

  // --------------------------------------------------------------- the pipeline

  /** deadLetter: nothing when dead-lettering is off or has no publisher. */
  function DeadLetterEffect(e: Env, reason: Reason): seq<Effect> {
    if !e.dlqEnabled || !e.dlqPublisher then [] else [PublishLetter(reason)]
  }

  /** dispatchWebhook: nothing without a dispatcher. */
  function WebhookEffect(e: Env, event: Event): seq<Effect> {
    if !e.webhook then [] else [DispatchEvent(event)]
  }

  /** drop: log, status and event of a blocked notification. */
  method Drop(e: Env, before: seq<Effect>) returns (effects: seq<Effect>)
    requires before == [UpdateStatus(Processing)]
    ensures Ended(e, effects, Dropped, 0, NoProvider)
  {
    var rest := [LogDelivery(DeliveryFailed)];
    rest := rest + [UpdateStatus(Dropped)];
    rest := rest + WebhookEffect(e, EventDropped);
    effects := before + rest;
    assert SendEffects(e.send, 0) + rest == rest;
  }

  /** What a branch writes after the sends. */
  function Records(e: Env, status: Status, reason: Reason): seq<Effect> {
    match status
    case Delivered => [LogDelivery(DeliverySuccess)] + [UpdateStatus(Delivered)] + WebhookEffect(e, EventDelivered)
    case Failed =>
      [LogDelivery(DeliveryFailed)] + DeadLetterEffect(e, reason) + [UpdateStatus(Failed)] + WebhookEffect(e, EventFailed)
    case Dropped => [LogDelivery(DeliveryFailed)] + [UpdateStatus(Dropped)] + WebhookEffect(e, EventDropped)
    case _ => []
  }

  /** The trace of a processing that ended in status after a number of sends. */
  ghost predicate Ended(e: Env, effects: seq<Effect>, status: Status, sends: nat, reason: Reason) {
    effects == [UpdateStatus(Processing)] + (SendEffects(e.send, sends) + Records(e, status, reason))
  }

  /** The end of deliver: delivery log and final status, after the sends. */
  method LogOutcome(e: Env, before: seq<Effect>, r: SendResult, n: nat)
    returns (effects: seq<Effect>, outcome: Label, status: Status, reason: Reason)
    requires before == [UpdateStatus(Processing)]
    requires n > 0
    requires (r.SendOk? <==> e.send(n - 1) == Sent) && (r.SendPermanent? <==> e.send(n - 1) == Permanent)
    ensures status == (if r.SendOk? then Delivered else Failed) && reason == FailureReason(e, n)
    ensures outcome == if status == Delivered then LabelDelivered else LabelFailed
    ensures Ended(e, effects, status, n, reason)
  {
    if r != SendOk {
      var why := RetriesExhausted;
      if r == SendPermanent {
        why := PermanentError;
      }
      var rest := [LogDelivery(DeliveryFailed)];
      rest := rest + DeadLetterEffect(e, why);
      rest := rest + [UpdateStatus(Failed)];
      rest := rest + WebhookEffect(e, EventFailed);
      effects := before + (SendEffects(e.send, n) + rest);
      outcome, status, reason := LabelFailed, Failed, why;
    } else {
      var rest := [LogDelivery(DeliverySuccess)];
      rest := rest + [UpdateStatus(Delivered)];
      rest := rest + WebhookEffect(e, EventDelivered);
      reason := FailureReason(e, n);
      effects := before + (SendEffects(e.send, n) + rest);
      outcome, status := LabelDelivered, Delivered;
    }
  }

  /** deliver: render, send, log.  status is the terminal status written, reason why it failed. */
  method Deliver(e: Env, before: seq<Effect>)
    returns (effects: seq<Effect>, outcome: Label, status: Status, sends: nat, reason: Reason)
    requires before == [UpdateStatus(Processing)]
    ensures status == Delivered || status == Failed
    ensures outcome == if status == Delivered then LabelDelivered else LabelFailed
    ensures Ended(e, effects, status, sends, reason)
    ensures status == Delivered <==> sends > 0 && e.send(sends - 1) == Sent
    ensures sends == 0 <==> (e.hasTemplate && !e.renderUp) || !e.hasProvider
    ensures forall k: nat :: k < sends - 1 ==> e.send(k) == Temporary && !e.cancelled(k)
    ensures sends > 1 ==> e.attempt + (sends - 1) <= e.maxAttempts
    ensures sends > 0 && e.send(sends - 1) == Temporary ==>
              e.attempt + (sends - 1) >= e.maxAttempts || e.cancelled(sends - 1)
    ensures forall k: nat ::
              sends > 0 && e.send(k) == Sent && (k > 0 ==> e.attempt + k <= e.maxAttempts)
              && (forall i: nat :: i < k ==> e.send(i) == Temporary && !e.cancelled(i))
              ==> status == Delivered && sends == k + 1
    ensures reason == FailureReason(e, sends)
  {
    if e.hasTemplate && !e.renderUp {
      var rest := [LogDelivery(DeliveryFailed)];
      rest := rest + DeadLetterEffect(e, TemplateRender);
      rest := rest + [UpdateStatus(Failed)];
      rest := rest + WebhookEffect(e, EventFailed);
      effects := before + rest;
      assert SendEffects(e.send, 0) + rest == rest;
      return effects, LabelFailed, Failed, 0, TemplateRender;
    }
    if !e.hasProvider {
      var rest := [LogDelivery(DeliveryFailed)];
      rest := rest + DeadLetterEffect(e, NoProvider);
      rest := rest + [UpdateStatus(Failed)];
      rest := rest + WebhookEffect(e, EventFailed);
      effects := before + rest;
      assert SendEffects(e.send, 0) + rest == rest;
      return effects, LabelFailed, Failed, 0, NoProvider;
    }
    var r, n, waited := SendWithRetry(e);
    sends := n;
    effects, outcome, status, reason := LogOutcome(e, before, r, n);
  }

  /** Process.  ok means it returned nil.  An infrastructure error stops it after at most the
      processing mark.  Otherwise it marks the row processing, makes its sends and writes its
      records; EndedExactly spells that trace out, and EndedAgrees says that it agrees with
      itself.  A notification that is not blocked, renders and has a provider is delivered by the
      first send that succeeds within the budget.  The counted outcome is the terminal one, but
      delivered when the processing failed. */
  method Process(e: Env)
    returns (ok: bool, effects: seq<Effect>, outcome: Label, status: Status, sends: nat, reason: Reason)
    ensures ok <==> e.fetchUp && e.markUp && e.preference != Error
                    && !(e.preference == Pass && e.rateCap > 0 && e.rateLimit == Error)
    ensures !ok ==> effects == (if e.fetchUp then [UpdateStatus(Processing)] else []) && outcome == LabelDelivered
    ensures ok ==> Ended(e, effects, status, sends, reason)
    ensures ok ==> status == Dropped || status == Delivered || status == Failed
    ensures ok ==> (status == Dropped <==> e.preference == Block || (e.rateCap > 0 && e.rateLimit == Block))
    ensures ok ==> (status == Dropped ==> sends == 0)
    ensures ok ==> (status == Delivered <==> sends > 0 && e.send(sends - 1) == Sent)
    ensures ok && status != Dropped ==> (sends == 0 <==> (e.hasTemplate && !e.renderUp) || !e.hasProvider)
    ensures forall k: nat :: ok && k < sends - 1 ==> e.send(k) == Temporary && !e.cancelled(k)
    ensures ok && sends > 1 ==> e.attempt + (sends - 1) <= e.maxAttempts
    ensures ok && sends > 0 && e.send(sends - 1) == Temporary ==>
              e.attempt + (sends - 1) >= e.maxAttempts || e.cancelled(sends - 1)
    ensures forall k: nat ::
              ok && sends > 0 && e.send(k) == Sent && (k > 0 ==> e.attempt + k <= e.maxAttempts)
              && (forall i: nat :: i < k ==> e.send(i) == Temporary && !e.cancelled(i))
              ==> status == Delivered && sends == k + 1
    ensures ok && status == Failed ==>
              reason == if e.hasTemplate && !e.renderUp then TemplateRender else if !e.hasProvider then NoProvider
                        else if e.send(sends - 1) == Permanent then PermanentError else RetriesExhausted
    ensures ok ==> outcome == if status == Delivered then LabelDelivered else if status == Failed then LabelFailed
                              else if e.preference == Block then LabelDroppedPref else LabelDroppedRateLimit
  {
    ok, effects, outcome, status, sends, reason := false, [], LabelDelivered, Processing, 0, NoProvider;
    if e.fetchUp {
      effects := [UpdateStatus(Processing)];
      if e.markUp && e.preference != Error {
        if e.preference == Block {
          ok, outcome, status := true, LabelDroppedPref, Dropped;
          effects := Drop(e, effects);
        } else if e.rateCap > 0 && e.rateLimit == Error {
        } else if e.rateCap > 0 && e.rateLimit == Block {
          ok, outcome, status := true, LabelDroppedRateLimit, Dropped;
          effects := Drop(e, effects);
        } else {
          ok := true;
          effects, outcome, status, sends, reason := Deliver(e, effects);
        }
      }
    }
  }

  /** The whole trace of a completed processing, outcome by outcome. */
  lemma EndedExactly(e: Env, effects: seq<Effect>, status: Status, sends: nat, reason: Reason)
    requires Ended(e, effects, status, sends, reason) && (status == Delivered || status == Failed || status == Dropped)
    ensures sends + 1 < |effects| && effects[0] == UpdateStatus(Processing)
    ensures forall k :: 0 <= k < sends ==> effects[k + 1] == ProviderSend(e.send(k))
    ensures status == Delivered ==>
              effects[sends + 1..] == [LogDelivery(DeliverySuccess), UpdateStatus(Delivered)]
                                      + (if e.webhook then [DispatchEvent(EventDelivered)] else [])
    ensures status == Failed ==>
              effects[sends + 1..] == [LogDelivery(DeliveryFailed)]
                                      + (if e.dlqEnabled && e.dlqPublisher then [PublishLetter(reason)] else [])
                                      + [UpdateStatus(Failed)] + (if e.webhook then [DispatchEvent(EventFailed)] else [])
    ensures status == Dropped ==>
              effects[sends + 1..] == [LogDelivery(DeliveryFailed), UpdateStatus(Dropped)]
                                      + (if e.webhook then [DispatchEvent(EventDropped)] else [])
  {
    SendsOnlySend(e.send, sends);
  }

  function FailureReason(e: Env, sends: nat): Reason {
    if sends > 0 then (if e.send(sends - 1) == Permanent then PermanentError else RetriesExhausted)
    else (if e.hasTemplate && !e.renderUp then TemplateRender else NoProvider)
  }

  // ---------------------------------------------------------- effects that agree

  /** How often an effect occurs among the first n, ... */
  function CountTo(t: seq<Effect>, n: nat, x: Effect): nat
    requires n <= |t|
  {
    if n == 0 then 0 else CountTo(t, n - 1, x) + One(t[n - 1] == x)
  }

  /** ... and in all. */
  function Count(t: seq<Effect>, x: Effect): nat {
    CountTo(t, |t|, x)
  }

  lemma {:induction false} CountFirst(a: seq<Effect>, b: seq<Effect>, n: nat, x: Effect)
    requires n <= |a|
    ensures CountTo(a + b, n, x) == CountTo(a, n, x)
  {
    if n == 0 {
    } else {
      CountFirst(a, b, n - 1, x);
    }
  }

  lemma {:induction false} CountBoth(a: seq<Effect>, b: seq<Effect>, n: nat, x: Effect)
    requires n <= |b|
    ensures CountTo(a + b, |a| + n, x) == Count(a, x) + CountTo(b, n, x)
  {
    if n == 0 {
      CountFirst(a, b, |a|, x);
    } else {
      CountBoth(a, b, n - 1, x);
    }
  }

  lemma CountJoin(a: seq<Effect>, b: seq<Effect>, x: Effect)
    ensures Count(a + b, x) == Count(a, x) + Count(b, x)
  {
    CountBoth(a, b, |b|, x);
  }

  lemma CountOne(y: Effect, x: Effect)
    ensures Count([y], x) == One(y == x)
  {
    assert CountTo([y], 1, x) == CountTo([y], 0, x) + One(y == x);
  }

  lemma {:induction false} CountNone(t: seq<Effect>, n: nat, x: Effect)
    requires n <= |t|
    ensures CountTo(t, n, x) == 0 <==> forall i :: 0 <= i < n ==> t[i] != x
  {
    if n == 0 {
    } else {
      CountNone(t, n - 1, x);
    }
  }

  /** Numbers of log entries, terminal statuses, other statuses but the processing mark, events,
      dead letters and successful sends. */
  datatype Tally = Tally(logs: nat, terminals: nat, others: nat, events: nat, letters: nat, successes: nat)

  /** How many of each kind there are, ... */
  ghost function All(t: seq<Effect>): Tally {
    Tally(Count(t, LogDelivery(DeliverySuccess)) + Count(t, LogDelivery(DeliveryFailed)),
          Count(t, UpdateStatus(Delivered)) + Count(t, UpdateStatus(Failed)) + Count(t, UpdateStatus(Dropped)),
          Count(t, UpdateStatus(Pending)) + Count(t, UpdateStatus(Queued)),
          Count(t, DispatchEvent(EventDelivered)) + Count(t, DispatchEvent(EventFailed)) + Count(t, DispatchEvent(EventDropped)),
          Count(t, PublishLetter(RetriesExhausted)) + Count(t, PublishLetter(PermanentError))
          + Count(t, PublishLetter(TemplateRender)) + Count(t, PublishLetter(NoProvider)),
          Count(t, ProviderSend(Sent)))
  }

  /** ... how many say this status and reason, ... */
  ghost function Agreeing(t: seq<Effect>, status: Status, reason: Reason): Tally {
    Tally(Count(t, LogDelivery(ResultOf(status))), Count(t, UpdateStatus(status)), 0, Count(t, DispatchEvent(EventOf(status))),
          Count(t, PublishLetter(reason)), Count(t, ProviderSend(Sent)))
  }

  /** ... and how many an outcome calls for. */
  function Wanted(e: Env, status: Status): Tally {
    Tally(1, 1, 0, One(e.webhook), One(NeedsLetter(e, status)), One(status == Delivered))
  }

  function One(b: bool): nat {
    if b then 1 else 0
  }

  function ResultOf(status: Status): DeliveryResult {
    if status == Delivered then DeliverySuccess else DeliveryFailed
  }

  function EventOf(status: Status): Event {
    if status == Delivered then EventDelivered else if status == Failed then EventFailed else EventDropped
  }

  predicate NeedsLetter(e: Env, status: Status) {
    status == Failed && e.dlqEnabled && e.dlqPublisher
  }

  /** Mark, sends, log, dead letter, terminal status, event. */
  function Rank(x: Effect): nat {
    match x
    case UpdateStatus(status) => if status == Processing then 0 else 4
    case ProviderSend(_) => 1
    case LogDelivery(_) => 2
    case PublishLetter(_) => 3
    case DispatchEvent(_) => 5
  }

  ghost predicate InOrder(t: seq<Effect>) {
    forall i, j {:trigger Before(t, i, j)} :: Before(t, i, j)
  }

  ghost predicate Before(t: seq<Effect>, i: nat, j: nat) {
    i < j < |t| ==> Rank(t[i]) <= Rank(t[j])
  }

  /** Every record is there as often as it should be, says the same, and is in its place. */
  ghost predicate Agreement(e: Env, t: seq<Effect>, status: Status, reason: Reason) {
    All(t) == Agreeing(t, status, reason) == Wanted(e, status) && InOrder(t)
  }

  /** A worker never makes a row pending or queued. */
  ghost predicate WorkerTrace(t: seq<Effect>) {
    forall i :: 0 <= i < |t| && t[i].UpdateStatus? ==> t[i].status != Pending && t[i].status != Queued
  }

  /** How often each effect belongs into the records of an outcome. */
  function Expected(e: Env, status: Status, reason: Reason, x: Effect): nat {
    match x
    case UpdateStatus(s) => One(s == status)
    case LogDelivery(result) => One(result == ResultOf(status))
    case PublishLetter(why) => One(NeedsLetter(e, status) && why == reason)
    case DispatchEvent(event) => One(e.webhook && event == EventOf(status))
    case ProviderSend(_) => 0
  }

  /** t holds exactly the records of the outcome, in order. */
  ghost predicate Written(e: Env, t: seq<Effect>, status: Status, reason: Reason) {
    && (forall x: Effect {:trigger Count(t, x)} :: Count(t, x) == Expected(e, status, reason, x))
    && InOrder(t)
  }

  /** The records as the branches write them. */
  lemma FailedWritten(e: Env, why: Reason)
    ensures Written(e, [LogDelivery(DeliveryFailed)] + DeadLetterEffect(e, why) + [UpdateStatus(Failed)]
                       + WebhookEffect(e, EventFailed), Failed, why)
  {
    var l, d := [LogDelivery(DeliveryFailed)], DeadLetterEffect(e, why);
    var s, w := [UpdateStatus(Failed)], WebhookEffect(e, EventFailed);
    forall x ensures Count(l + d + s + w, x) == Expected(e, Failed, why, x) {
      CountJoin(l + d + s, w, x);
      CountJoin(l + d, s, x);
      CountJoin(l, d, x);
      CountOne(LogDelivery(DeliveryFailed), x);
      CountOne(PublishLetter(why), x);
      CountOne(UpdateStatus(Failed), x);
      CountOne(DispatchEvent(EventFailed), x);
    }
    FailedInOrder(why, d, w);
  }

  lemma FailedInOrder(why: Reason, d: seq<Effect>, w: seq<Effect>)
    requires d == [] || d == [PublishLetter(why)]
    requires w == [] || w == [DispatchEvent(EventFailed)]
    ensures InOrder([LogDelivery(DeliveryFailed)] + d + [UpdateStatus(Failed)] + w)
  {
    var l, s := [LogDelivery(DeliveryFailed)], [UpdateStatus(Failed)];
    OrderJoin(l, d, 2);
    OrderJoin(l + d, s, 3);
    OrderJoin(l + d + s, w, 4);
  }

  lemma DeliveredWritten(e: Env, reason: Reason)
    ensures Written(e, [LogDelivery(DeliverySuccess)] + [UpdateStatus(Delivered)] + WebhookEffect(e, EventDelivered),
                    Delivered, reason)
  {
    var l, s, w := [LogDelivery(DeliverySuccess)], [UpdateStatus(Delivered)], WebhookEffect(e, EventDelivered);
    forall x ensures Count(l + s + w, x) == Expected(e, Delivered, reason, x) {
      CountJoin(l + s, w, x);
      CountJoin(l, s, x);
      CountOne(LogDelivery(DeliverySuccess), x);
      CountOne(UpdateStatus(Delivered), x);
      CountOne(DispatchEvent(EventDelivered), x);
    }
    OrderJoin(l, s, 2);
    OrderJoin(l + s, w, 4);
  }

  lemma DroppedWritten(e: Env, reason: Reason)
    ensures Written(e, [LogDelivery(DeliveryFailed)] + [UpdateStatus(Dropped)] + WebhookEffect(e, EventDropped),
                    Dropped, reason)
  {
    var l, s, w := [LogDelivery(DeliveryFailed)], [UpdateStatus(Dropped)], WebhookEffect(e, EventDropped);
    forall x ensures Count(l + s + w, x) == Expected(e, Dropped, reason, x) {
      CountJoin(l + s, w, x);
      CountJoin(l, s, x);
      CountOne(LogDelivery(DeliveryFailed), x);
      CountOne(UpdateStatus(Dropped), x);
      CountOne(DispatchEvent(EventDropped), x);
    }
    OrderJoin(l, s, 2);
    OrderJoin(l + s, w, 4);
  }

  lemma {:induction false} SendsOnlySend(send: nat -> SendOutcome, n: nat)
    ensures |SendEffects(send, n)| == n
    ensures forall i :: 0 <= i < n ==> SendEffects(send, n)[i] == ProviderSend(send(i))
  {
    if n == 0 {
    } else {
      SendsOnlySend(send, n - 1);
    }
  }

  lemma SendsCount(send: nat -> SendOutcome, n: nat, x: Effect)
    ensures !x.ProviderSend? ==> Count(SendEffects(send, n), x) == 0
    ensures (forall k :: 0 <= k < n ==> send(k) != Sent) ==> Count(SendEffects(send, n), ProviderSend(Sent)) == 0
  {
    SendsOnlySend(send, n);
    CountNone(SendEffects(send, n), |SendEffects(send, n)|, x);
    CountNone(SendEffects(send, n), |SendEffects(send, n)|, ProviderSend(Sent));
  }

  /** Of sends of which all but the last were retried, the last alone can have succeeded. */
  lemma SuccessCount(e: Env, sends: nat)
    requires sends > 0 && forall k: nat :: k < sends - 1 ==> e.send(k) == Temporary
    ensures Count(SendEffects(e.send, sends), ProviderSend(Sent)) == One(e.send(sends - 1) == Sent)
  {
    SendsCount(e.send, sends - 1, UpdateStatus(Processing));
    CountJoin(SendEffects(e.send, sends - 1), [ProviderSend(e.send(sends - 1))], ProviderSend(Sent));
    CountOne(ProviderSend(e.send(sends - 1)), ProviderSend(Sent));
  }

  lemma OrderJoin(a: seq<Effect>, b: seq<Effect>, rank: nat)
    requires InOrder(a) && InOrder(b)
    requires forall i :: 0 <= i < |a| ==> Rank(a[i]) <= rank
    requires forall j :: 0 <= j < |b| ==> rank <= Rank(b[j])
    ensures InOrder(a + b)
  {
    forall i: nat, j: nat ensures Before(a + b, i, j) {
      if j < |a| {
        assert Before(a, i, j);
      } else if |a| <= i {
        assert Before(b, i - |a|, j - |a|);
      }
    }
  }

  lemma SendsInOrder(send: nat -> SendOutcome, n: nat)
    ensures InOrder(SendEffects(send, n))
  {
    SendsOnlySend(send, n);
  }

  lemma RecordsRank(e: Env, rest: seq<Effect>, status: Status, reason: Reason)
    requires Written(e, rest, status, reason) && status != Processing
    ensures forall j :: 0 <= j < |rest| ==> Rank(rest[j]) >= 2
  {
    forall j | 0 <= j < |rest| ensures Rank(rest[j]) >= 2 {
      CountNone(rest, |rest|, rest[j]);
      assert Count(rest, rest[j]) == Expected(e, status, reason, rest[j]);
    }
  }

  /** The mark, then the sends, then the records. */
  lemma PipelineOrder(e: Env, sends: nat, records: seq<Effect>, status: Status, reason: Reason)
    requires Written(e, records, status, reason) && status != Processing
    ensures InOrder([UpdateStatus(Processing)] + (SendEffects(e.send, sends) + records))
  {
    SendsOnlySend(e.send, sends);
    SendsInOrder(e.send, sends);
    RecordsRank(e, records, status, reason);
    OrderJoin(SendEffects(e.send, sends), records, 1);
    OrderJoin([UpdateStatus(Processing)], SendEffects(e.send, sends) + records, 0);
  }

  lemma PipelineCount(e: Env, sends: nat, records: seq<Effect>, status: Status, reason: Reason, x: Effect)
    requires Written(e, records, status, reason)
    ensures Count([UpdateStatus(Processing)] + (SendEffects(e.send, sends) + records), x)
         == One(x == UpdateStatus(Processing)) + Count(SendEffects(e.send, sends), x) + Expected(e, status, reason, x)
  {
    CountJoin([UpdateStatus(Processing)], SendEffects(e.send, sends) + records, x);
    CountJoin(SendEffects(e.send, sends), records, x);
    CountOne(UpdateStatus(Processing), x);
  }

  lemma PipelineSuccesses(e: Env, sends: nat, records: seq<Effect>, status: Status, reason: Reason)
    requires Written(e, records, status, reason)
    requires sends > 0 ==> forall k: nat :: k < sends - 1 ==> e.send(k) == Temporary
    ensures Count([UpdateStatus(Processing)] + (SendEffects(e.send, sends) + records), ProviderSend(Sent))
         == One(sends > 0 && e.send(sends - 1) == Sent)
  {
    PipelineCount(e, sends, records, status, reason, ProviderSend(Sent));
    if sends == 0 {
      SendsCount(e.send, sends, UpdateStatus(Processing));
    } else {
      SuccessCount(e, sends);
    }
  }

  /** Every effect but a send is there as often as expected, and the mark once more. */
  ghost predicate Counted(e: Env, t: seq<Effect>, status: Status, reason: Reason) {
    forall x: Effect {:trigger Count(t, x)} :: !x.ProviderSend? ==>
      Count(t, x) == One(x == UpdateStatus(Processing)) + Expected(e, status, reason, x)
  }

  lemma StatusesCounted(e: Env, t: seq<Effect>, status: Status, reason: Reason)
    requires Counted(e, t, status, reason) && (status == Delivered || status == Failed || status == Dropped)
    ensures All(t).terminals == Agreeing(t, status, reason).terminals == 1 && All(t).others == 0
  {
    forall s ensures Count(t, UpdateStatus(s)) == One(s == Processing) + One(s == status) {
    }
  }

  lemma RecordsCounted(e: Env, t: seq<Effect>, status: Status, reason: Reason)
    requires Counted(e, t, status, reason)
    ensures All(t).logs == Agreeing(t, status, reason).logs == 1
    ensures All(t).events == Agreeing(t, status, reason).events == One(e.webhook)
  {
    forall event ensures Count(t, DispatchEvent(event)) == One(e.webhook && event == EventOf(status)) {
    }
  }

  lemma LettersCounted(e: Env, t: seq<Effect>, status: Status, reason: Reason)
    requires Counted(e, t, status, reason)
    ensures All(t).letters == Agreeing(t, status, reason).letters == One(NeedsLetter(e, status))
  {
    forall why ensures Count(t, PublishLetter(why)) == One(NeedsLetter(e, status) && why == reason) {
    }
  }

  /** Pipeline effect agreement, over the whole trace. */
  lemma PipelineAgrees(e: Env, sends: nat, records: seq<Effect>, t: seq<Effect>, status: Status, reason: Reason)
    requires status == Delivered || status == Failed || status == Dropped
    requires t == [UpdateStatus(Processing)] + (SendEffects(e.send, sends) + records) && Written(e, records, status, reason)
    requires sends > 0 ==> forall k: nat :: k < sends - 1 ==> e.send(k) == Temporary
    requires status == Delivered <==> sends > 0 && e.send(sends - 1) == Sent
    ensures Agreement(e, t, status, reason)
  {
    PipelineOrder(e, sends, records, status, reason);
    PipelineSuccesses(e, sends, records, status, reason);
    forall x: Effect | !x.ProviderSend?
      ensures Count(t, x) == One(x == UpdateStatus(Processing)) + Expected(e, status, reason, x)
    {
      PipelineCount(e, sends, records, status, reason, x);
      SendsCount(e.send, sends, x);
    }
    StatusesCounted(e, t, status, reason);
    RecordsCounted(e, t, status, reason);
    LettersCounted(e, t, status, reason);
  }

  /** One log entry, one terminal status and, with a dispatcher, one event, all of one outcome; a
      dead letter with the reason, once, exactly for a failure with dead-lettering on; one send
      succeeded exactly if delivered; and each kind of effect has its place in the order. */
  lemma EndedAgrees(e: Env, effects: seq<Effect>, status: Status, sends: nat, reason: Reason)
    requires Ended(e, effects, status, sends, reason) && (status == Delivered || status == Failed || status == Dropped)
    requires forall k: nat :: k < sends - 1 ==> e.send(k) == Temporary
    requires status == Delivered <==> sends > 0 && e.send(sends - 1) == Sent
    ensures All(effects) == Agreeing(effects, status, reason) == Wanted(e, status) && InOrder(effects)
  {
    FailedWritten(e, reason);
    DeliveredWritten(e, reason);
    DroppedWritten(e, reason);
    PipelineAgrees(e, sends, Records(e, status, reason), effects, status, reason);
  }

  // --------------------------------------------------- the pipeline in the machine

  function ReasonText(reason: Reason): string {
    match reason
    case RetriesExhausted => "retries_exhausted"
    case PermanentError => "permanent"
    case TemplateRender => "template_render"
    case NoProvider => "no_provider"
  }

  /** What attempting the effects for message i leaves, where up(k) says whether the k-th write
      works: the code swallows errors of all but the first. */
  function Played(s: State, i: nat, t: seq<Effect>, up: nat -> bool): State
    requires i < |s.log|
  {
    if t == [] then s
    else
      var n := |t| - 1;
      var m, msg := Played(s, i, t[..n], up), s.log[i].msg;
      if t[n].UpdateStatus? && up(n) then m.(rows := SetStatus(m.rows, msg.notificationId, t[n].status))
      else if t[n].PublishLetter? && up(n) then
        m.(dlq := m.dlq + [DlqRecord(msg, msg.channel, ReasonText(t[n].reason), msg.attempt)])
      else m
  }

  /** The trace of a completed processing is a worker's. */
  lemma AgreementIsWorkers(e: Env, t: seq<Effect>, status: Status, reason: Reason)
    requires Agreement(e, t, status, reason)
    ensures WorkerTrace(t)
  {
    assert All(t).others == 0;
    forall i | 0 <= i < |t| && t[i].UpdateStatus? ensures t[i].status != Pending && t[i].status != Queued {
      CountNone(t, |t|, t[i]);
    }
  }

  /** Processing a message is a run of the delivery machine's worker steps. */
  lemma {:induction false} ProcessReaches(cfg: Config, s: State, i: nat, t: seq<Effect>, up: nat -> bool)
    returns (steps: seq<Step>)
    requires AtWork(s, i) && WorkerTrace(t)
    ensures Reaches(cfg, s, steps, Played(s, i, t, up))
    ensures var s' := Played(s, i, t, up);
            s'.log == s.log && s'.busy == s.busy && s'.acked == s.acked && AtWork(s', i)
  {
    if t == [] {
      steps := [];
      ReachesNone(cfg, s);
    } else {
      var n := |t| - 1;
      steps := ProcessReaches(cfg, s, i, t[..n], up);
      var m := Played(s, i, t[..n], up);
      if t[n].UpdateStatus? && up(n) {
        ReachesStep(cfg, s, steps, m, WorkerStatus(i, t[n].status));
        steps := steps + [WorkerStatus(i, t[n].status)];
      } else if t[n].PublishLetter? && up(n) {
        ReachesStep(cfg, s, steps, m, WorkerDeadLetter(i, ReasonText(t[n].reason)));
        steps := steps + [WorkerDeadLetter(i, ReasonText(t[n].reason))];
      }
    }
  }

  /** The system after a worker has fetched message i, made these effects and let go of it,
      committing it or not. */
  function Handled(s: State, i: nat, t: seq<Effect>, up: nat -> bool, commit: bool): State
    requires i < |s.log|
  {
    Played(s.(busy := s.busy + multiset{i}), i, t, up).(
      busy := s.busy, acked := if commit then s.acked + {i} else s.acked)
  }

  /** From fetch to commit, handling a message is a run of the machine. */
  lemma HandleReaches(cfg: Config, s: State, i: nat, t: seq<Effect>, up: nat -> bool, commit: bool)
    returns (steps: seq<Step>)
    requires i < |s.log| && i !in s.acked && Fetchable(s.rows, s.log[i].msg.tenant, s.log[i].msg.notificationId) && WorkerTrace(t)
    ensures Reaches(cfg, s, steps, Handled(s, i, t, up, commit))
  {
    var m := s.(busy := s.busy + multiset{i});
    ReachesFirst(cfg, s, WorkerFetch(i));
    var more := ProcessReaches(cfg, m, i, t, up);
    ReachesOn(cfg, s, [WorkerFetch(i)], m, more, Played(m, i, t, up));
    ReachesStep(cfg, s, [WorkerFetch(i)] + more, Played(m, i, t, up), WorkerDone(i, commit));
    steps := [WorkerFetch(i)] + more + [WorkerDone(i, commit)];
    assert m.busy - multiset{i} == s.busy;
  }

  /** After the one terminal update no other status is attempted. */
  lemma TerminalIsLast(e: Env, t: seq<Effect>, status: Status, reason: Reason, k: nat, j: nat)
    requires Agreement(e, t, status, reason) && status != Processing
    requires k < j < |t| && t[k] == UpdateStatus(status)
    ensures !t[j].UpdateStatus?
  {
    AgreementIsWorkers(e, t, status, reason);
    assert All(t).terminals == 1;
    assert Before(t, k, j);
    forall s ensures Count(t, UpdateStatus(s)) >= One(s == status) + One(UpdateStatus(s) == t[j]) {
      CountTwo(t, k, j, UpdateStatus(s));
    }
  }

  lemma CountTwo(t: seq<Effect>, k: nat, j: nat, x: Effect)
    requires k < j < |t|
    ensures Count(t, x) >= One(x == t[k]) + One(x == t[j])
  {
    assert t == t[..j] + t[j..];
    CountJoin(t[..j], t[j..], x);
    assert t[..j][k] == t[k] && t[j..][0] == t[j];
    CountNone(t[..j], j, x);
    CountNone(t[j..], |t| - j, x);
  }

  lemma {:induction false} LastStatusStays(s: State, i: nat, t: seq<Effect>, up: nat -> bool, k: nat)
    requires i < |s.log| && s.log[i].msg.notificationId in s.rows
    requires k < |t| && t[k].UpdateStatus? && up(k) && forall j :: k < j < |t| ==> !t[j].UpdateStatus?
    ensures var id := s.log[i].msg.notificationId;
            id in Played(s, i, t, up).rows && Played(s, i, t, up).rows[id].status == t[k].status
  {
    var n := |t| - 1;
    if k == n {
      PlayedRows(s, i, t[..n], up);
    } else {
      LastStatusStays(s, i, t[..n], up, k);
    }
  }

  lemma {:induction false} PlayedRows(s: State, i: nat, t: seq<Effect>, up: nat -> bool)
    requires i < |s.log|
    ensures Played(s, i, t, up).rows.Keys == s.rows.Keys
  {
    if t == [] {
    } else {
      PlayedRows(s, i, t[..|t| - 1], up);
    }
  }

  /** Of the rows, effects change at most the status of the message's own, ... */
  lemma {:induction false} PlayedOthers(s: State, i: nat, t: seq<Effect>, up: nat -> bool, id: nat)
    requires i < |s.log| && id in s.rows
    ensures id in Played(s, i, t, up).rows
    ensures var row := Played(s, i, t, up).rows[id]; row == s.rows[id].(status := row.status)
    ensures id != s.log[i].msg.notificationId ==> Played(s, i, t, up).rows[id] == s.rows[id]
  {
    if t == [] {
    } else {
      PlayedOthers(s, i, t[..|t| - 1], up, id);
    }
  }

  /** ... and of the dead letters, they add the one they tell of, if its publish works: the whole
      message as it was fetched, with its topic, its attempt and the reason. */
  lemma {:induction false} PlayedLetter(s: State, i: nat, t: seq<Effect>, up: nat -> bool, k: nat)
    requires i < |s.log| && k <= |t| && forall j :: 0 <= j < |t| && t[j].PublishLetter? ==> j == k
    ensures k == |t| || !t[k].PublishLetter? || !up(k) ==> Played(s, i, t, up).dlq == s.dlq
    ensures k < |t| && t[k].PublishLetter? && up(k) ==>
              var msg := s.log[i].msg;
              Played(s, i, t, up).dlq == s.dlq + [DlqRecord(
                msg, msg.channel,
                match t[k].reason
                case RetriesExhausted => "retries_exhausted"
                case PermanentError => "permanent"
                case TemplateRender => "template_render"
                case NoProvider => "no_provider",
                msg.attempt)]
  {
    if t == [] {
    } else {
      var n := |t| - 1;
      PlayedLetter(s, i, t[..n], up, if k <= n then k else n);
    }
  }

  /** A completed processing whose terminal update works leaves the row with the status that its
      log entry, its event and its dead letter, or the lack of one, tell of. */
  lemma ProcessEnds(e: Env, s: State, i: nat, t: seq<Effect>, status: Status, reason: Reason, up: nat -> bool, k: nat)
    requires i < |s.log| && s.log[i].msg.notificationId in s.rows
    requires Agreement(e, t, status, reason) && status != Processing
    requires k < |t| && t[k] == UpdateStatus(status) && up(k)
    ensures var id := s.log[i].msg.notificationId;
            id in Played(s, i, t, up).rows && Played(s, i, t, up).rows[id].status == status
  {
    forall j | k < j < |t| ensures !t[j].UpdateStatus? {
      TerminalIsLast(e, t, status, reason, k, j);
    }
    LastStatusStays(s, i, t, up, k);
  }
}
