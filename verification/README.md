# NotifyHub: a verified model

NotifyHub accepts notification requests over HTTP, stores them in Postgres, hands them to
workers through Kafka topics, and delivers them by e-mail, push, SMS, an in-app inbox with a
WebSocket stream, and webhooks. This project models the parts of it that are protocols and
algorithms, and proves what they keep over every input, every run and every interleaving.

## How to read the project

| file | what it models |
|---|---|
| `Delivery.dfy` | one machine for the whole delivery path: concurrent calls of Send, the scheduler, workers, the dead-letter consumer, replay and cancel, as interleaved atomic steps any of which may fail |
| `Idempotency.dfy`, `EnvelopeInvariant.dfy`, `Contents.dfy`, `Rescue.dfy`, `Deliverable.dfy`, `TerminalStatus.dfy` | what every run of that machine keeps: duplicate suppression, what each row keeps of its request and each queue message says about its row, what becomes of a failed publish, which rows can still be delivered, and what becomes of a finished row |
| `Scheduler.dfy`, `SendService.dfy`, `DeadLetters.dfy` | the imperative code of those components, each call proved to be a run of the machine; draining a backlog; bulk sends |
| `Pool.dfy`, `PoolOrder.dfy` | the worker pool: fetch loop, bounded channel, workers, shutdown, as a machine with exact places for every fetched message; the order in which processing finishes |
| `Processor.dfy`, `Backoff.dfy` | the processing pipeline with its retries and the writes of each of its branches, also a run of the machine, and the arithmetic of exponential backoff in 64-bit nanoseconds |
| `WebhookProtocol.dfy`, `Webhook.dfy` | webhook dispatches and workers as a machine, and their code, proved to be runs of it |
| `Inbox.dfy`, `OrderedQuery.dfy`, `Paging.dfy` | the in-app message table, the meaning of its ordered and limited queries, keyset paging |
| `Hub.dfy`, `HubLoop.dfy`, `Reconnect.dfy`, `InAppProvider.dfy` | the WebSocket hub, its publish loop step by step, the reconnect protocol, and the provider that stores and publishes |
| `RateLimit.dfy` | the sliding-window limiter over its pruned and expiring log |
| `FrontMatter.dfy`, `QuietHours.dfy` | template files and quiet hours |
| `Collections.dfy`, `Strings.dfy` | an option type, facts about sets and string functions |

Operations are proved against specification functions, and what those functions come to is stated
again without them, field by field, by lemmas whose names mostly end in `Is`, `Iff` or `Exactly`.

State machines are a `Step` datatype with `Enabled` and `Apply`; `IsRun` is any finite
sequence of enabled steps from the empty system, and `Delivery.RunGoesOn` extends a run by
what is reached from it. `Reaches` says that a piece of imperative
code took the system from one state to another by such steps, which is what carries the
theorems about runs over to the code.

External calls are parameters: a boolean or a function from the number of the call to its
outcome. Clocks and database-chosen ids are parameters too.

Assumptions about the environment:

- A database statement, a Kafka publish and a Redis command are each atomic. The Redis
  pipeline of the rate limiter applies as a whole or not at all.
- Kafka topics only grow, and a message on them may be fetched any number of times, by several
  workers at once, until it is committed.
- JSON encoding of messages and payloads is lossless. UUIDs are natural numbers, or strings
  without a colon where they are part of a channel name; the zero UUID is no tenant.
- Fan-out of one message and cancel of one subscription are atomic in `Hub.dfy`. The source sends
  after releasing the lock, and closes after releasing it; `HubLoop.dfy` has each of those as a
  step of its own, and `HubLoop.Undisturbed` says when a loop amounts to the atomic one. Iterating
  over a map while it changes has the meaning the Go specification gives it for one goroutine.
- A time zone is a fixed offset from UTC.

## Where the code and what is said about it differ

The model follows the code.

- Duplicate suppression is described as per tenant (line 10 of the repository's README.md). The
  lookup is, but the column is unique across all tenants (`migrations/000001_init.up.sql:52`), so
  a key used by one tenant makes another tenant's send with it fail, and a second send of the same
  tenant fails as well if the first inserts between its lookup and its insert. Over every run these,
  and a repeated empty key, are all the ways a working insert is refused:
  `Idempotency.InsertRefusedIff`, `Idempotency.RaceRefused`, `SendService.TwoTenants`.
- A notification whose publish failed is said to stay pending so that the scheduler can rescue
  it (`internal/service/notification.go:104`). The scheduler lists only rows with a schedule, so
  it publishes exactly those, and an immediate send is never published: `Rescue.RescueIff`,
  `Rescue.ImmediateIsLost`. Even then the rescue is a publish and never a delivery, because no
  worker can resolve the scheduler's message: `Deliverable.FailedPublishUnprocessed`,
  `Deliverable.DeliverableIff`.
- Scheduled delivery (line 11 of the repository's README.md) has no other publisher, so a
  notification scheduled for a future time is never processed by any worker, whatever happens:
  `Deliverable.ScheduledUnprocessed`.
- Topics are said to keep per-recipient order for a pool of configurable concurrency (line 9 of the
  repository's README.md). Messages are queued and fetched in order, but a pool with two or more
  workers can finish the later of two messages first; processing finishes in fetch order if and only
  if there is at most one worker: `PoolOrder.FinishesInOrderIff`, `PoolOrder.Overtaken`.
- The scheduler's envelope leaves the tenant at zero (`internal/service/scheduler.go:111-123`),
  and the worker fetches by tenant, so no scheduler message ever finds its row:
  `EnvelopeInvariant.FetchableIffNotScheduler`.
- Log entries of the rate limiter are called unique (`internal/service/ratelimit.go:42`), but
  they are timestamps, so attempts at the same instant count as one: `RateLimit.CountsAttemptsIff`,
  `RateLimit.BurstVerdicts`.
- Denied attempts are recorded as well, so a steady overload is never let through again:
  `RateLimit.AllowedExactly`, `RateLimit.OverloadLockout`.
- The first inbox page orders by creation time only, later pages by time and id, so rows created
  at the same instant can be skipped or repeated between the first two pages. That happens exactly
  if the page is full and another matching row shares its last row's instant: `Paging.FirstPageIff`,
  `Paging.FirstPageCanLose`.
- A finished notification's status can change again, and a cancelled one can be delivered:
  `TerminalStatus.TerminalChangesIff`, `TerminalStatus.CancelledIsDelivered`.
- A failed webhook delivery records the attempt budget as its attempt number:
  `WebhookProtocol.RecordsTruthful`.
- A processing that fails on an infrastructure error is counted as delivered in the metrics
  (`internal/worker/processor.go:97-100`): `Processor.Process`.
- A template name or subject that ends in three dashes ends the header early:
  `FrontMatter.RoundTrip`, `FrontMatter.DashedName`.
- Publish never blocks (`internal/realtime/hub.go:61-62`), but it sends on a closed channel, and so
  panics, if and only if the channel's subscriber closed it between the loop's reaching it and the
  send: `HubLoop.PanicIff`, `HubLoop.PanicReachable`.

## Model

| member | source | states |
|---|---|---|
| `Delivery.StepKeepsRows` | internal/db/notification.sql.go:321-326 | every step of the system keeps every row, changes nothing of it but its status, and never makes it pending again |
| `Delivery.PendingNeverReentered` | internal/db/notification.sql.go:321-326 | the same between any two moments of any run: pending is never re-entered |
| `TerminalStatus.TerminalChangesIff` | internal/db/notification.sql.go:321-326 | in every reachable state, some continuation of the run changes a delivered, failed or dropped row if and only if a worker has, or can still fetch, an uncommitted message that resolves to it, or it has a dead letter, or a call of Send has still to publish or mark it, or the scheduler has it in its batch or has still to mark it |
| `TerminalStatus.SettledForever` | internal/db/notification.sql.go:321-326 | a finished row nobody holds keeps its status in every continuation |
| `TerminalStatus.RunTraced` | internal/worker/processor.go:280-302 | whatever was dead-lettered is still on its topic, in every reachable state |
| `TerminalStatus.CancelledIsDelivered` | internal/db/notification.sql.go:16-21 | a run in which a notification cancelled between its insert and its publish is delivered |
| `Idempotency.AtMostOneRow` | migrations/000001_init.up.sql:52 | in every reachable state, under any interleaving of calls, at most one row carries an idempotency key |
| `Idempotency.AtMostOnePublish` | internal/service/notification.go:75-121 | calls of Send never publish two messages for one notification |
| `Idempotency.SameKeySameNotification` | internal/service/notification.go:75-121 | all calls that succeed with one key return the same notification, and are one tenant's |
| `Idempotency.OtherTenantsBlocked` | internal/service/notification.go:75-95 | once a tenant's row carries a key, no call of another tenant with that key succeeds at any later point of any run |
| `Idempotency.InsertRefusedIff` | internal/service/notification.go:75-95 | over every run and interleaving, a working insert is refused if and only if a row carries the key that the call's lookup could not find: another tenant's, one of its own inserted after the lookup, or any if the key is empty |
| `Idempotency.OnlyInsertRefuses` | internal/service/notification.go:62-122 | a call none of whose external calls fail errs only at its insert |
| `Idempotency.RaceRefused` | internal/service/notification.go:75-95 | a run of two calls of one tenant with one key in which nothing fails and the second is refused |
| `SendService.RefusedIff` | internal/service/notification.go:75-95 | a send that nothing interrupts and whose external calls all work is refused if and only if another tenant's row carries its key, or any row does and the key is empty |
| `SendService.TwoTenants` | migrations/000001_init.up.sql:52 | a run in which two tenants send with one key, nothing fails, and the second is refused |
| `EnvelopeInvariant.EnvelopesAlwaysOk` | internal/service/notification.go:171-192 | in every reachable state each queued message, dead-letter record and dead-letter row names a stored notification, agrees with its channel, recipient and tenant, and is a first attempt; only scheduler messages lack the tenant |
| `EnvelopeInvariant.FetchableIffNotScheduler` | internal/service/scheduler.go:111-131 | a queued message can be resolved to its row if and only if the scheduler did not write it |
| `EnvelopeInvariant.ReplayRestores` | internal/api/handler/dlq.go:142-154 | a replay appends one message, the dead-lettered original with a fresh budget, on the right topic under the right key, and it can be fetched |
| `Contents.RowKeepsRequest` | internal/repository/notification.go:34-60 | in every reachable state each row was inserted by one call of Send and has that call's tenant, key, type, channel, recipient, address, template, payload and schedule, and its priority, with 5 for 0 |
| `Contents.AfterInsert` | internal/service/notification.go:97-109 | an insert that works and meets no row with its key leaves a pending row, and the call goes on to publish exactly unless the scheduled time is after the present |
| `Contents.MessageSaysRow` | internal/service/notification.go:171-192 | in every reachable state each message, by Send, scheduler or replay, has its row's channel, recipient, address, template, payload and priority, is on the row's topic under its recipient, and is a first attempt with the budget of whoever wrote it; the scheduler's have tenant zero, the others the row's |
| `Contents.LetterHolds` | internal/worker/processor.go:280-302 | each dead letter is the message a worker was processing, with its topic, its attempt and that worker's reason |
| `Contents.PersistedHolds` | internal/worker/dlq_consumer.go:42-94 | each dead-letter row is a record of the topic, under its notification's id and tenant |
| `Contents.StatusWritten` | internal/db/notification.sql.go:321-326 | which step of a run gives a row which status: queued by the update of Send or the scheduler, what a worker writes, dropped by its own tenant while pending or queued, and otherwise none |
| `Rescue.LostForever` | internal/service/notification.go:103-109 | a row that is neither held nor listable by the scheduler, nor heard of by any replayable message, stays so and is not published in any continuation |
| `Rescue.RescueIff` | internal/service/notification.go:103-109 | after a failed publish some continuation of the run publishes the row, which is not to deliver it, if and only if the scheduler holds it or it is pending with a schedule |
| `Rescue.ImmediateIsLost` | internal/service/notification.go:97-109 | without a schedule, no continuation of any run publishes it |
| `Rescue.RunNothingSent` | internal/service/notification.go:171-192 | until a call of Send has published its row, nothing but scheduler messages mentions it anywhere |
| `Deliverable.RunUntouched` | internal/service/scheduler.go:111-131 | in every reachable state a row no call of Send has published is neither processing nor delivered nor failed, and only scheduler messages mention it |
| `Deliverable.FailedPublishUnprocessed` | internal/service/notification.go:103-109 | a notification whose publish failed, with or without a schedule, is processed at no later point of any run |
| `Deliverable.ScheduledUnprocessed` | internal/service/notification.go:97-101 | nor is one inserted with a schedule in the future |
| `Deliverable.DeliverableIff` | internal/service/scheduler.go:111-131 | in every reachable state some continuation delivers a row if and only if it is delivered, a worker has or can fetch a message for it, it has a dead letter, or a call of Send is about to publish it |
| `Deliverable.DormantForever` | internal/worker/processor.go:69-157 | a row of which none of these holds stays so, and is not processed any more |
| `Scheduler.PublishesBounded` | internal/service/scheduler.go:85-100 | over any run the scheduler publishes a row at most once more often than its update of that row failed |
| `Scheduler.PublishedBeforeMarked` | internal/service/scheduler.go:87-99 | a row the scheduler marks queued was published by it before |
| `Scheduler.TickReaches` | internal/service/scheduler.go:72-108 | a whole tick, whatever fails in it, is a run of the machine with the stated rows and messages |
| `Scheduler.SchedulerProcess.EnqueueRow` | internal/service/scheduler.go:86-99 | a row is marked only if published, and its message is appended exactly then |
| `Scheduler.SchedulerProcess.Tick` | internal/service/scheduler.go:72-108 | the batch holds pending rows whose time has come, and none left out has a smaller priority, or the same and an earlier time, than one in it; messages and statuses are those of its rows, independently of each other's failures; the tick is a run of the machine |
| `Scheduler.BatchIs` | internal/db/notification.sql.go:209-216 | any answer to the due query, field by field: pending, due, by ascending priority and then time, none twice, full if a due row is left out |
| `Scheduler.MarkedExactly` | internal/service/scheduler.go:86-99 | a tick queues exactly the rows whose publish and update both work and changes nothing else |
| `Scheduler.TickRemoves` | internal/service/scheduler.go:72-108 | a tick without failures removes exactly its batch from what is due, at that time and at any other |
| `Scheduler.DrainCount` | internal/service/scheduler.go:72-108 | after k such ticks of size b, at whatever times between which no row falls due, max(0, n - k*b) of n due rows remain |
| `Scheduler.DrainSorted` | internal/db/notification.sql.go:209-216 | the rows published over all ticks are exactly those due before and not after, each once, by ascending priority and, for equal priorities, ascending scheduled time, across ticks |
| `Scheduler.DrainComplete` | internal/db/notification.sql.go:209-216 | in that order the ticks publish exactly the due rows if and only if k*b >= n |
| `Scheduler.DrainReaches` | internal/service/scheduler.go:72-108 | the whole drain is a run of the machine, and the messages it appends are those of the batches' rows, tick after tick |
| `Scheduler.EnqueuedExactly` | internal/service/scheduler.go:111-131 | a tick appends one message per row whose publish works, in the batch's order, with the row's channel, recipient, address, template, payload and priority, tenant zero, first attempt, and the scheduler's budget |
| `SendService.NotificationService.FindByKey` | internal/repository/notification.go:75-88 | the lookup finds a row of this tenant with this key if there is one, and none otherwise; rows without a key never match |
| `SendService.NotificationService.Send` | internal/service/notification.go:62-122 | the rows, messages and answer of a call, for every outcome of the lookup, insert, publish and update; the call is a run of the machine and keeps keys unique |
| `SendService.InsertedExactly` | internal/service/notification.go:90-121 | a call that inserts stores every field of its request, publishes one message with the same fields unless its time lies ahead, leaves the row queued exactly if publish and update work, and what it answers |
| `SendService.NotInserted` | internal/service/notification.go:75-95 | any other call changes nothing and answers with the notification its lookup found, or with an error |
| `SendService.SendReaches` | internal/service/notification.go:62-122 | those effects are reached by enabled steps of the machine |
| `SendService.NotificationService.SendBulk` | internal/service/notification.go:124-157 | results, errors, table and messages are those of the recipients in order; the whole call is a run of the machine and keeps keys unique |
| `SendService.BulkExactly` | internal/service/notification.go:124-157 | each recipient whose insert works has one row of its own, and older rows are untouched |
| `SendService.BulkRowIs` | internal/service/notification.go:132-147 | that row, field by field: a payload key is there exactly if request or recipient has it, with the recipient's value if it has one; queued if publish and update worked and pending otherwise |
| `SendService.BulkMessageIs` | internal/service/notification.go:132-154 | one message per recipient whose insert and publish work, in order, with the fields of its row and a first attempt of the configured budget |
| `SendService.BulkAddsOnly` | internal/service/notification.go:132-154 | every other row was there before |
| `SendService.BulkReaches` | internal/service/notification.go:124-157 | the effects of a bulk send are reached by enabled steps of the machine |
| `SendService.BulkAccounts` | internal/service/notification.go:129-156 | the recipients split, in order, into those whose notifications the results list and those the errors name: every one is in exactly one |
| `DeadLetters.PersistedExactly` | internal/worker/dlq_consumer.go:42-94 | each decodable record whose insert works is in the table as it was dead-lettered, and the old rows are untouched |
| `DeadLetters.PersistedOnly` | internal/worker/dlq_consumer.go:42-94 | every new row is such a record's |
| `DeadLetters.DeadLetterService.Consume` | internal/worker/dlq_consumer.go:42-94 | the loop leaves that table, commits exactly undecodable and persisted records, and is a run of the machine |
| `DeadLetters.DeadLetterService.ReplayOne` | internal/api/handler/dlq.go:114-169 | not found exactly for a missing or foreign row; a failed publish changes nothing; otherwise the original is republished as a first attempt and the row marked if the update works; a run of the machine |
| `Pool.RunInv` | internal/worker/pool.go:45-119 | the invariant of the pool, in every reachable state |
| `Pool.PoolConservation` | internal/worker/pool.go:45-119 | each fetched message is in exactly one of fetch loop, channel, workers, finished; at most 2n+1 are in flight with n workers |
| `Pool.CommitsExactly` | internal/worker/pool.go:67-113 | a finished message was committed, once, if and only if it was undecodable or its processing succeeded |
| `Pool.DrainedWhenClosed` | internal/worker/pool.go:54-61 | when the consumer is closed nothing is in flight, and every decodable message was handed to processing |
| `Pool.Progress` | internal/worker/pool.go:45-119 | a reachable pool that is not closed can always move, except exactly when it has no workers and holds a decodable message |
| `Pool.DrainTerminates` | internal/worker/pool.go:54-64 | once fetching has stopped every step shrinks a bound on the work left |
| `Pool.DrainBound` | internal/worker/pool.go:54-64 | so every run takes at most that many further steps |
| `Pool.StoppedIsClosed` | internal/worker/pool.go:54-64 | and a run that has stopped after fetching ended has closed the consumer |
| `PoolOrder.FinishesInOrderIff` | internal/worker/pool.go:45-119 | processing finishes in fetch order in every run if and only if the pool has at most one worker |
| `PoolOrder.OneWorkerInOrder` | internal/worker/pool.go:67-87 | at every moment of a run with at most one worker the decodable messages finished are in fetch order |
| `PoolOrder.Overtaken` | internal/worker/pool.go:67-87 | with two or more workers, a run in which the second of two messages is finished first |
| `Processor.SendWithRetry` | internal/worker/processor.go:227-275 | the first success within the budget is reached and reported; if nothing but temporary errors comes and nothing is cancelled the whole budget is used, at least one send; which of the four results it gives, each if and only if; the exact total wait |
| `Processor.RetryWaitClosedForm` | internal/worker/processor.go:257-270 | that wait is base * 2^(attempt-1) * (2^(sends-1) - 1) when no shift overflows |
| `Processor.Deliver` | internal/worker/processor.go:163-223 | delivered exactly if the last send succeeded, which the first success within the budget does; no send exactly if the template fails or the provider is missing; the reason of a failure; the trace written |
| `Processor.LogOutcome` | internal/worker/processor.go:202-222 | the writes after the sends, for success and for failure |
| `Processor.Drop` | internal/worker/processor.go:311-315 | the writes of a blocked notification agree |
| `Processor.Process` | internal/worker/processor.go:69-157 | an error exactly if fetch, mark, preference check or applicable rate limit fails, leaving at most the processing mark; dropped exactly if preference or applicable rate limit block; otherwise rendered and provided notifications are delivered by the first success within the budget; the reason of a failure; the label counted, which is delivered also for an error |
| `Processor.EndedExactly` | internal/worker/processor.go:163-329 | the trace of each outcome in full: mark, sends, then log, dead letter with the reason if enabled, terminal status and event if there is a dispatcher |
| `Processor.EndedAgrees` | internal/worker/processor.go:163-329 | in it, one log, one terminal status and at most one event say the same outcome, a dead letter comes exactly for enabled failures, and one send succeeded if delivered and none otherwise |
| `Processor.PlayedLetter` | internal/worker/processor.go:280-302 | what its dead letter adds to the topic, with the text of each reason, if the publish works |
| `Processor.PlayedOthers` | internal/worker/processor.go:367-375 | the effects change nothing of any row but the status of the message's own |
| `Processor.PipelineAgrees` | internal/worker/processor.go:69-329 | the mark, any sends of which only the last can succeed, and the records a branch wrote make up a trace whose counts agree |
| `Processor.ProcessReaches` | internal/worker/processor.go:69-157 | the status updates and dead letters of a processing, each of which may fail, are a run of the delivery machine's worker steps |
| `Processor.HandleReaches` | internal/worker/pool.go:67-113 | so is all of handling a message, from its fetch over the effects of its processing to its commit or the lack of one |
| `Processor.ProcessEnds` | internal/worker/processor.go:367-375 | if its terminal update works, the row ends with the status the log, the event and the dead letter tell of |
| `Processor.SuccessCount` | internal/worker/processor.go:227-275 | the number of successful sends in the effects is one for delivered and zero otherwise |
| `Backoff.NoOverflowIff` | internal/worker/processor.go:261 | every delay of a retry budget equals its mathematical value if and only if base * 2^(max-2) is below 2^63 |
| `Backoff.DelayIs` | internal/worker/processor.go:261-270 | every delay, with overflow or without: base times the power of two modulo 2^64 as a signed number, zero below the first attempt; one that is not positive is not waited for |
| `Backoff.GeometricWait` | internal/worker/processor.go:261 | without overflow k retries wait base * 2^(first-1) * (2^k - 1) in total |
| `WebhookProtocol.RunInv` | internal/worker/webhook_worker.go:53-138 | the invariant of the webhook protocol, in every reachable state of any number of dispatches and workers, with redelivery |
| `WebhookProtocol.NeverBackToPending` | internal/db/webhook.sql.go:219-224 | between any two moments of any run no delivery is removed, changes its endpoint or event, or returns to pending |
| `WebhookProtocol.MessagesFaithful` | internal/service/webhook.go:119-160 | in every run each message on the topic was published by one dispatch for one endpoint of its listing, with that dispatch's tenant, notification and event and that endpoint's id, url and secret, as a first attempt with the configured budget, and names a delivery made for the same |
| `WebhookProtocol.DeliveryMade` | internal/service/webhook.go:119-135 | each delivery was made by one dispatch for one endpoint of its listing |
| `WebhookProtocol.UntriedUntilStored` | internal/service/webhook.go:119-127 | until an outcome is stored for it, it is pending with attempt 0 and no response |
| `WebhookProtocol.StoredBeforeCommit` | internal/worker/webhook_worker.go:74-85 | a decodable record is committed only after an outcome of its processing was stored, and its delivery is terminal from then on |
| `WebhookProtocol.RecordsTruthful` | internal/worker/webhook_worker.go:96-193 | a delivery that is not pending shows the outcome of one processing of its own message, the last to store one, truthfully |
| `WebhookProtocol.ConclusionTruthful` | internal/worker/webhook_worker.go:96-193 | the outcome of a processing: delivered exactly if the last answer was 200 to 299 and no earlier one was; failed after exactly the budget of POSTs, at least one, or with none to make; the attempt is the number of POSTs or, for a failure, the budget; the response is the last answer's code |
| `Webhook.CreatedExactly` | internal/service/webhook.go:108-168 | dispatch adds, for each endpoint whose insert works, one delivery with its id, the notification and event, pending with attempt 0, and leaves older rows untouched |
| `Webhook.CreatedOnly` | internal/service/webhook.go:119-135 | every new row is such an endpoint's |
| `Webhook.FanOutFaithful` | internal/service/webhook.go:137-160 | every published message has the url and secret of an endpoint of the list, the tenant, notification and event of the dispatch, and names the pending delivery made for that endpoint |
| `Webhook.FanOutExactly` | internal/service/webhook.go:137-160 | and each endpoint whose insert and publish work gets one, in the order of the list |
| `Webhook.DispatchReaches` | internal/service/webhook.go:108-168 | a dispatch is a run of the protocol |
| `Webhook.WebhookSystem.Dispatch` | internal/service/webhook.go:108-168 | the deliveries and messages after a dispatch, as a run of the protocol; one endpoint's failure does not affect the others; a failed listing changes nothing |
| `Webhook.WebhookSystem.UpdateDelivery` | internal/db/webhook.sql.go:219-224 | succeeds exactly on an existing row and then writes it |
| `Webhook.WebhookSystem.Process` | internal/worker/webhook_worker.go:96-138 | POSTs until the first that stops; the total wait; success exactly if an outcome was stored, and which outcome that is |
| `Webhook.PostsExactly` | internal/worker/webhook_worker.go:108-137 | which POST that is: the first accepted one within the budget, and with none and nothing cancelled the last of the budget |
| `Webhook.OutcomeIs` | internal/worker/webhook_worker.go:140-193 | the outcome stored, answer by answer |
| `Webhook.ProcessReaches` | internal/worker/webhook_worker.go:96-138 | a processing is a run of the protocol |
| `Webhook.WebhookSystem.RunOne` | internal/worker/webhook_worker.go:53-92 | fetching, processing and committing one record is a run of the protocol; if the commit works a record is committed when it does not decode, or its write works and nothing is cancelled, and never without one of the two |
| `Webhook.WebhookSystem.Run` | internal/worker/webhook_worker.go:53-92 | so is working off any sequence of records, repeated ones included; the same records are committed, and every committed record is undecodable or settled |
| `Webhook.WebhookWaitClosedForm` | internal/worker/webhook_worker.go:128-136 | the wait of n POSTs is base * (2^(n-1) - 1) when no shift overflows |
| `OrderedQuery.Select` | internal/db/inapp.sql.go:199-207 | every filtered, ordered and limited query has a legal answer, here by repeated selection |
| `OrderedQuery.FirstUnique` | internal/db/inapp.sql.go:199-207 | the answer is unique when the order has no ties |
| `OrderedQuery.ShortPageIsAll` | internal/db/inapp.sql.go:199-207 | a page shorter than its limit holds every matching row |
| `Inbox.InAppRepo.Insert` | internal/repository/inapp.go:33-47 | adds exactly one unread row under a fresh id, or nothing on failure |
| `Inbox.InAppRepo.MarkRead` | internal/repository/inapp.go:143-152 | stamps exactly the named row, if it is the recipient's and unread |
| `Inbox.InAppRepo.MarkAllRead` | internal/repository/inapp.go:154-162 | stamps exactly the recipient's unread rows with the given time, which leaves the recipient nothing unread |
| `Inbox.InAppRepo.ListAfter` | internal/repository/inapp.go:61-90 | the first rows strictly below the cursor, or an error exactly for an unknown cursor or a failure |
| `Inbox.InAppRepo.ListTop` | internal/repository/inapp.go:91-106 | the page that starts at the offset of a legal listing, newest first with rows of one instant in any order; an error exactly for a failure or a negative offset |
| `Inbox.InAppRepo.ListSince` | internal/repository/inapp.go:108-130 | the first 200 rows strictly above the cursor, oldest first, or an error exactly for an unknown cursor or a failure |
| `Inbox.AfterPageIs` | internal/db/inapp.sql.go:199-207 | a page after a cursor, field by field: the recipient's rows below it by creation time and id, unread if asked, descending, at most the limit or 50, full if a row is left out, which comes after all of them |
| `Inbox.TopPageIs` | internal/db/inapp.sql.go:109-117 | a first page likewise, descending by creation time alone |
| `Inbox.SincePageIs` | internal/db/inapp.sql.go:258-265 | the gap batch likewise: rows above the cursor, ascending, the first 200 |
| `Inbox.InAppRepo.CountUnread` | internal/repository/inapp.go:132-141 | the number of rows an unread listing ranges over |
| `Paging.KeysetPaging` | internal/repository/inapp.go:61-90 | a client walking pages to the first short one, with inserts and read marks between reads, gets strictly descending rows, none twice, only matching rows, and every row below its cursor that matched throughout |
| `Paging.WalkDescends` | internal/db/inapp.sql.go:199-207 | the rows of any walk, complete or not, descend strictly below the cursor |
| `Paging.WalkFinds` | internal/db/inapp.sql.go:199-207 | a row below the cursor that matches at every read is returned |
| `Paging.WalkContinues` | internal/repository/inapp.go:64-72 | the last row of a full page is still a valid cursor at any later time |
| `Paging.FirstPageExact` | internal/db/inapp.sql.go:109-117 | which rows the step from the first page to the second loses or repeats, with inserts and read marks in between: exactly those of the last row's instant on the wrong side of its id |
| `Paging.FirstPageIff` | internal/db/inapp.sql.go:109-117 | after a full first page every row matching at both reads comes exactly once, whichever legal page was returned and whatever is written in between, if and only if no other matching row was created at the instant of the page's last row |
| `Paging.TieMisses` | internal/db/inapp.sql.go:109-117 | if one was, a legal first page that loses or repeats a row, in any such table |
| `Paging.FirstPageCanLose` | internal/db/inapp.sql.go:109-117 | two rows of one instant and pages of one: a row no page returns |
| `Hub.ChannelRoundTrip` | internal/realtime/hub.go:95-113 | parsing a channel name gives back tenant and recipient if and only if the tenant has no colon, whatever the recipient |
| `Hub.ParsesIff` | internal/realtime/hub.go:95-106 | which names are understood, and as which tenant and recipient, with or without the prefix |
| `Hub.KeyInjective` | internal/realtime/hub.go:39 | hub keys of colon-free tenants are equal only for equal pairs |
| `Hub.Hub.constructor` | internal/realtime/hub.go:23-33 | an empty hub, with a buffer of 32 when none is configured |
| `Hub.Hub.Subscribe` | internal/realtime/hub.go:38-48 | a new open channel under its key, as the step machine says |
| `Hub.Hub.Cancel` | internal/realtime/hub.go:49-57 | closes and unregisters exactly that channel, dropping an emptied key |
| `Hub.Hub.Publish` | internal/realtime/hub.go:63-78 | whatever order an undisturbed loop takes, each channel of the key gets the message if it has room, and no other channel changes |
| `Hub.Hub.RunOne` | internal/realtime/hub.go:91-106 | one Redis message is fanned out by its parsed name, or ignored if malformed |
| `Hub.RunConsistent` | internal/realtime/hub.go:38-78 | in every run a channel is registered exactly while open, under its own key only; no key keeps an empty entry; buffers stay within capacity |
| `Hub.RunTracks` | internal/realtime/hub.go:38-78 | keys and open channels agree with what the trace of operations says |
| `Hub.FifoRefinement` | internal/realtime/hub.go:38-78 | what a subscriber received plus its buffer is an in-order subsequence of the messages to its pair while subscribed, shorter by the number dropped, and equal to them if and only if none was dropped |
| `Hub.PickedChannelOpenIff` | internal/realtime/hub.go:63-78 | a channel registered at some point of a run is open later if and only if it was not cancelled in between |
| `HubLoop.RunInv` | internal/realtime/hub.go:38-78 | the invariant of any number of publish loops going on while subscribers come and go, in every reachable state |
| `HubLoop.LoopExact` | internal/realtime/hub.go:63-78 | a loop sends to channels of its own key only and to none twice, and when it has ended it has sent to each it found at its beginning that is not leaving |
| `HubLoop.EndedIff` | internal/realtime/hub.go:68-77 | a loop has ended exactly if its last step was taken |
| `HubLoop.InitialIsRegistered` | internal/realtime/hub.go:63-68 | what it finds at its beginning are exactly the registered channels of its key |
| `HubLoop.StayersGetIt` | internal/realtime/hub.go:63-78 | a channel registered before a publish and still registered after it was sent to exactly once, whoever else comes and goes |
| `HubLoop.PickedOpenIff` | internal/realtime/hub.go:49-70 | a channel the loop has reached is open until the send if and only if it is not closed in between |
| `HubLoop.PanicIff` | internal/realtime/hub.go:49-70 | a send panics if and only if its channel was closed between the loop's reaching it and the send |
| `HubLoop.PanickedIff` | internal/realtime/hub.go:63-78 | and the hub has panicked if and only if some send was on a closed channel |
| `HubLoop.PanicReachable` | internal/realtime/hub.go:49-70 | a run in which that happens, for every key, message and buffer size |
| `HubLoop.Undisturbed` | internal/realtime/hub.go:63-78 | a loop nothing comes in between of offers the message once to every registered channel of the key, changes no other, and does not panic: the atomic step of the hub |
| `Reconnect.RunInv` | internal/api/handler/inbox.go:237-307 | the invariant of the reconnect protocol, in every reachable state |
| `Reconnect.RunLater` | internal/api/handler/inbox.go:237-307 | along a run rows stay and the phase only advances; a client that is still listening keeps its channel, its history and all that entered its buffer |
| `Reconnect.StoredIsReplayed` | internal/db/inapp.sql.go:258-265 | a row of the client above its cursor and stored at the query is in the batch, or more than 200 rows are above the cursor and the whole batch is older than it |
| `Reconnect.NoMissReconnect` | internal/api/handler/inbox.go:237-307 | in every interleaving each message above the cursor that the hub fans out, before, between or after subscribe and query, is in the history batch or entered the client's buffer, unless the gap exceeded 200 rows and the batch ends before it, or it was inserted after the query and met a full buffer |
| `Reconnect.GivenIff` | internal/api/handler/inbox.go:237-307 | exactly what a reconnect gives: a message above the cursor that the hub takes is in the history batch or entered the buffer if and only if it was stored at the query and not cut off, or the client listened and had room when the hub took it |
| `Reconnect.InHistoryIff` | internal/db/inapp.sql.go:258-265 | it is in the batch if and only if it was stored at the query and not cut off |
| `Reconnect.SeenIff` | internal/realtime/hub.go:63-78 | it entered the buffer if and only if the client listened and had room when the hub took it |
| `Reconnect.TakenOnce` | internal/realtime/hub.go:91-106 | the hub takes a published message at most once |
| `Reconnect.FramesInOrder` | internal/api/handler/inbox.go:250-307 | the client's frames are the history batch in order as history frames, then what it received live in order as live frames, and only its own messages |
| `InAppProvider.Provider.Send` | internal/provider/inapp/inapp.go:31-66 | permanent failure exactly for an empty title or body, where a non-empty rendered value wins over the plain one; otherwise the row is stored before it is published, a failed publish is not an error, and both are steps of the reconnect protocol |
| `RateLimit.RateLimiter.AllowKey` | internal/service/ratelimit.go:51-79 | the verdict and the new log of the key; no other key changes |
| `RateLimit.RateLimiter.Allow` | internal/service/ratelimit.go:35-38 | the same for a user and channel; no other pair's log changes |
| `RateLimit.CallIs` | internal/service/ratelimit.go:51-79 | one call: how many live timestamps of the window decide it, and the log it leaves, to expire one second after the window |
| `RateLimit.UserKeyInjective` | internal/service/ratelimit.go:36 | keys of colon-free channels are equal only for equal pairs, whatever the user |
| `RateLimit.StoredIsWindow` | internal/service/ratelimit.go:53-70 | pruning and expiry leave exactly what a complete history shows in the window, at any later instant |
| `RateLimit.PrunedLogRefinesHistory` | internal/service/ratelimit.go:51-79 | every verdict is the one computed from the complete history of attempts |
| `RateLimit.SpreadBound` | internal/service/ratelimit.go:51-79 | any allowed instants that lie within one window number at most the cap |
| `RateLimit.SlidingWindowBound` | internal/service/ratelimit.go:51-79 | every window, at whatever position, has at most cap allowed instants |
| `RateLimit.CountsAttemptsIff` | internal/service/ratelimit.go:42-78 | a verdict agrees, for every cap, with the one that counts attempts if and only if the recorded attempts in its window were made at pairwise different instants, or the call itself failed |
| `RateLimit.BurstVerdicts` | internal/service/ratelimit.go:60-78 | of any number of attempts at one instant all are allowed if the cap is two or more, the first if it is one, none below |
| `RateLimit.AllowedExactly` | internal/service/ratelimit.go:51-79 | of attempts at different instants, allowed or denied, exactly the first cap are allowed and those that come a window or more after the attempt cap places before |
| `RateLimit.OverloadLockout` | internal/service/ratelimit.go:49-78 | if every cap+1 attempts in a row fall within a window, exactly the first cap are ever allowed |
| `RateLimit.PacedLockout` | internal/service/ratelimit.go:49-78 | an attempt every d with cap * d below the window gets exactly the first cap |
| `RateLimit.SilenceRecovers` | internal/service/ratelimit.go:53-78 | after a window of silence the next attempt is allowed if and only if the cap is positive |
| `FrontMatter.ParseLines` | internal/template/loader.go:85-107 | each field is the value of its last line |
| `FrontMatter.ParseFile` | internal/template/loader.go:61-117 | the loop computes the declared meaning of a file, with its three errors |
| `FrontMatter.Unopened` | internal/template/loader.go:68-70 | exactly a file without an opening fence is refused as such |
| `FrontMatter.Unclosed` | internal/template/loader.go:72-75 | and exactly one without a later fence |
| `FrontMatter.MeaningIs` | internal/template/loader.go:72-78 | header and body are what is before and after the first closing fence |
| `FrontMatter.AssembleIs` | internal/template/loader.go:80-116 | empty body, missing name and unknown channel are errors, in that order, and otherwise the template is made of the fields |
| `FrontMatter.FieldIs` | internal/template/loader.go:85-107 | a field has the value of the last line that has its key, and none if no line has |
| `FrontMatter.LineIs` | internal/template/loader.go:86-97 | key and value of a line are its trimmed parts before and after the first colon, and a line without a colon has none |
| `Strings.TrimSpaceIs` | internal/template/loader.go:78-97 | trimming removes white space, and all of it, from both ends and nothing else |
| `Strings.SplitJoins` | internal/template/loader.go:85 | the lines of a split, put together again, are the text |
| `FrontMatter.FirstFence` | internal/template/loader.go:73-83 | where the header of a rendered file is found to end |
| `FrontMatter.ReadHeader` | internal/template/loader.go:85-116 | reading a rendered header gives back the fields rendered |
| `FrontMatter.RoundTrip` | internal/template/loader.go:61-117 | parsing a rendered file gives back the file if and only if neither its name nor its subject ends in three dashes |
| `FrontMatter.DashedName` | internal/template/loader.go:73-83 | a well-formed template whose rendering is not parsed back to it |
| `QuietHours.ClockRoundTrip` | internal/repository/convert.go:103-120 | every stored time of day is formatted and parsed back to itself |
| `QuietHours.WindowIsCircular` | internal/service/preference.go:79-107 | the computation with anchored dates is membership in the circular interval from start to end |
| `QuietHours.WindowPeriodic` | internal/service/preference.go:79-107 | the window repeats every day |
| `QuietHours.WindowComplement` | internal/service/preference.go:79-107 | swapping the ends gives the complement if and only if they differ; equal ends never block |
| `QuietHours.WindowEnds` | internal/service/preference.go:98-106 | the start is inside and the end outside, on every day |
| `QuietHours.AnswerIs` | internal/service/preference.go:53-75 | every answer for every lookup: an error exactly for a failed lookup, allowed without a record, disabled exactly if the channel is, quiet exactly if it is enabled and both ends are times between which, around the clock, the local time lies, and allowed otherwise |
| `QuietHours.ParsesIff` | internal/service/preference.go:87-97 | which texts are times of day: those the repository writes, with or without a leading zero |
| `QuietHours.FormatShape` | internal/repository/convert.go:103-120 | what the repository writes, digit by digit |
| `QuietHours.AllowedIff` | internal/service/preference.go:53-75 | with stored quiet hours a notification is allowed if and only if the channel is enabled and the local time is outside the circular interval |

## Left out

- HTTP routing, middleware, authentication, request validation, configuration, metrics other than the outcome label, tracing and logging: they hold no state of the protocols modelled here.
- Create, read, update and delete of tenants, templates, preferences and webhook endpoints: one statement each.
- The e-mail, push and SMS providers: they are calls into other services, here an outcome per send.
- Template execution and JSON: the pipeline only sees whether rendering worked.
- Kafka consumer groups, cumulative offsets and rebalancing: a message may instead be fetched and handled any number of times until it is committed.
- Messages between Redis and the hub: a published message may reach the hub at any later time, once, or never.
- Offset paging of the notification list, and the parsing of query parameters.
- Heartbeat frames and the read pump of the WebSocket stream: they end a stream but do not change what it carries.
- Hub.Hub.Publish: the iteration after the lock is released is one step here; `HubLoop.dfy` has it as many.
- HubLoop.StayersGetIt: Go leaves open what an unsynchronised iteration does while another goroutine writes to the map, up to ending the program; the loop is taken to follow the rules for one goroutine.
- Reconnect.NoMissReconnect: a row that commits after the query with a creation time below the client's cursor is outside the statement, because the cursor order is by creation time.
- Deletion of a tenant with its rows: tables only grow here.
- Signing of webhook requests, the listing of subscribed endpoints and the payload of an event.
- RateLimit.RateLimiter.AllowKey: scores are integers; the rounding of nanosecond timestamps to 64-bit floats is not modelled.
- Backoff.NoOverflowIff: for exponents of 63 and more the conversion from floating point is left to the platform by Go, and the model takes it to wrap.
- Daylight saving: a zone is a fixed offset at the instant of the check.
