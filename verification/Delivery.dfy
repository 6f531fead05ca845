/** The delivery protocol as one system of interleaved atomic steps: API sends
    (internal/service/notification.go), the scheduler (internal/service/scheduler.go), the
    workers' database and dead-letter writes (internal/worker/processor.go), the dead-letter
    consumer (internal/worker/dlq_consumer.go), replay (internal/api/handler/dlq.go) and cancel.

    Each database statement and each publish is one step; any external call may fail.  The
    message codec is lossless.  Topics are append-only logs: until a message is committed it may
    be fetched any number of times, by several workers at once, and a worker that fetched it
    goes on with it whatever the others commit. */
module Delivery {
  import opened Collections
  import opened OrderedQuery

  datatype Channel = Email | Push | Sms | InApp

  datatype Status = Pending | Queued | Processing | Delivered | Failed | Dropped

  /** Template variables; NotifyHub keeps them as a JSON object. */
  type Payload = map<string, string>

  /** The zero UUID, which no tenant has. */
  const NO_TENANT: nat := 0

  const PRIORITY_NORMAL := 5

  datatype Notification = Notification(
    id: nat, tenant: nat, key: Option<string>, kind: string, channel: Channel, recipient: string, address: string,
    template: Option<nat>, payload: Payload, priority: int, status: Status, scheduledAt: Option<int>)

  type Table = map<nat, Notification>

  datatype SendRequest = SendRequest(
    tenant: nat, key: Option<string>, kind: string, channel: Channel, recipient: string, address: string,
    template: Option<nat>, payload: Payload, priority: int, scheduledAt: Option<int>)

  /** The queue envelope (internal/queue/message.go). */
  datatype Envelope = Envelope(
    notificationId: nat, tenant: nat, channel: Channel, recipient: string, address: string,
    template: Option<nat>, payload: Payload, priority: int, attempt: int, maxAttempts: int)

  datatype Source = BySend(p: nat) | ByScheduler | ByReplay

  /** A message on the topic of a channel. */
  datatype Record = Record(topic: Channel, key: string, msg: Envelope, source: Source)

  datatype DlqRecord = DlqRecord(original: Envelope, originalTopic: Channel, reason: string, lastAttempt: int)

  datatype DeadLetter = DeadLetter(tenant: nat, notificationId: nat, record: DlqRecord, replayed: bool)

  /** Where a call of Send stands.  Some(n) in created is the row this call inserted. */
  datatype Pc = Lookup | Create | Enqueue | MarkQueued | Returned(id: nat) | Errored

  datatype SendCall = SendCall(req: SendRequest, pc: Pc, created: Option<Notification>)

  /** The scheduler's loop: rows of the current batch not yet handled, and the row that has
      been published but not yet marked queued. */
  datatype Sched = Sched(todo: seq<Notification>, marking: Option<Notification>)

  datatype Config = Config(sendRetries: int, schedulerRetries: int, replayAttempts: int)

  datatype State = State(
    rows: Table, sends: seq<SendCall>, log: seq<Record>, sched: Sched,
    dlq: seq<DlqRecord>, dead: map<nat, DeadLetter>,
    busy: multiset<nat>,  // messages workers are processing, by position in the log
    acked: set<nat>)      // committed messages

  const EMPTY := State(map[], [], [], Sched([], None), [], map[], multiset{}, {})

  datatype Step =
    | BeginSend(req: SendRequest)
    | LookupKey(p: nat, up: bool)
    | InsertRow(p: nat, id: nat, now: int, up: bool)
    | SendPublish(p: nat, up: bool)
    | SendMark(p: nat, up: bool)
    | SchedList(now: int, batch: nat, due: seq<Notification>)
    | SchedPublish(id: nat, up: bool)
    | SchedMark(id: nat, up: bool)
    | WorkerFetch(i: nat)
    | WorkerStatus(i: nat, status: Status)
    | WorkerDeadLetter(i: nat, reason: string)
    | WorkerDone(i: nat, commit: bool)
    | Persist(i: nat, id: nat)
    | Replay(id: nat, up: bool)
    | MarkReplayed(id: nat)
    | Discard(id: nat)
    | Cancel(tenant: nat, id: nat)

  // ------------------------------------------------------------ database queries

  predicate Keyed(rows: Table) {
    forall id :: id in rows ==> rows[id].id == id
  }

  /** The idempotency-key column is unique across the whole table, whatever the tenant. */
  predicate KeyTaken(rows: Table, key: Option<string>) {
    key.Some? && exists id :: id in rows && rows[id].key == key
  }

  /** GetByIdempotencyKey: looks only at the tenant's own rows. */
  predicate IsHit(rows: Table, tenant: nat, key: Option<string>, id: nat) {
    id in rows && rows[id].tenant == tenant && rows[id].key == key
  }

  /** GetByID: the row must be the named tenant's. */
  predicate Fetchable(rows: Table, tenant: nat, id: nat) {
    id in rows && rows[id].tenant == tenant
  }

  function SetStatus(rows: Table, id: nat, status: Status): Table {
    if id in rows then rows[id := rows[id].(status := status)] else rows
  }

  /** WHERE clause of ListDueScheduledNotifications */
  function Due(rows: Table, now: int): set<Notification> {
    set id | id in rows && IsDue(rows[id], now) :: rows[id]
  }

  predicate IsDue(n: Notification, now: int) {
    n.status == Pending && n.scheduledAt.Some? && n.scheduledAt.value <= now
  }

  /** ORDER BY priority ASC, scheduled_at ASC */
  predicate MoreUrgent(a: Notification, b: Notification) {
    a.priority < b.priority || (a.priority == b.priority && Time(a) <= Time(b))
  }

  function Time(n: Notification): int {
    if n.scheduledAt.Some? then n.scheduledAt.value else 0
  }

  // ------------------------------------------------------------------- envelopes

  function SendEnvelope(cfg: Config, tenant: nat, n: Notification): Envelope {
    Envelope(n.id, tenant, n.channel, n.recipient, n.address, n.template, n.payload, n.priority, 1, cfg.sendRetries)
  }

  /** The scheduler's envelope leaves the tenant at its zero value. */
  function SchedulerEnvelope(cfg: Config, n: Notification): Envelope {
    Envelope(n.id, NO_TENANT, n.channel, n.recipient, n.address, n.template, n.payload, n.priority, 1, cfg.schedulerRetries)
  }

  function ReplayEnvelope(cfg: Config, original: Envelope): Envelope {
    original.(attempt := 1, maxAttempts := cfg.replayAttempts)
  }

  function NewRow(id: nat, req: SendRequest): Notification {
    Notification(id, req.tenant, req.key, req.kind, req.channel, req.recipient, req.address, req.template, req.payload,
                 if req.priority == 0 then PRIORITY_NORMAL else req.priority, Pending, req.scheduledAt)
  }

  /** An empty key skips the lookup, but is stored like any other. */
  predicate HasKey(req: SendRequest) {
    req.key.Some? && req.key.value != ""
  }

  predicate InFuture(req: SendRequest, now: int) {
    req.scheduledAt.Some? && req.scheduledAt.value > now
  }

  // ----------------------------------------------------------------------- steps

  predicate At(s: State, p: nat, pc: Pc) {
    p < |s.sends| && s.sends[p].pc == pc
  }

  /** A worker is processing message i, and has found its row. */
  predicate AtWork(s: State, i: nat) {
    i in s.busy && i < |s.log| && Fetchable(s.rows, s.log[i].msg.tenant, s.log[i].msg.notificationId)
  }

  ghost predicate Enabled(s: State, step: Step) {
    match step
    case BeginSend(req) => req.tenant != NO_TENANT
    case LookupKey(p, _) => At(s, p, Lookup)
    case InsertRow(p, id, _, _) => At(s, p, Create) && id !in s.rows
    case SendPublish(p, _) => At(s, p, Enqueue) && s.sends[p].created.Some?
    case SendMark(p, _) => At(s, p, MarkQueued) && s.sends[p].created.Some?
    case SchedList(now, batch, due) =>
      s.sched == Sched([], None) && IsFirst(Due(s.rows, now), MoreUrgent, batch, due)
    case SchedPublish(id, _) => s.sched.marking.None? && s.sched.todo != [] && s.sched.todo[0].id == id
    case SchedMark(id, _) => s.sched.marking.Some? && s.sched.marking.value.id == id
    case WorkerFetch(i) => i < |s.log| && i !in s.acked
    case WorkerStatus(i, status) => AtWork(s, i) && status != Pending && status != Queued
    case WorkerDeadLetter(i, _) => AtWork(s, i)
    case WorkerDone(i, _) => i in s.busy
    case Persist(i, id) => i < |s.dlq| && id !in s.dead
    case Replay(id, _) => id in s.dead
    case MarkReplayed(id) => id in s.dead
    case Discard(id) => id in s.dead
    case Cancel(tenant, id) =>
      Fetchable(s.rows, tenant, id) && (s.rows[id].status == Pending || s.rows[id].status == Queued)
  }

  function Goto(s: State, p: nat, pc: Pc): State
    requires p < |s.sends|
  {
    s.(sends := s.sends[p := s.sends[p].(pc := pc)])
  }

  ghost function Apply(cfg: Config, s: State, step: Step): State
    requires Enabled(s, step)
  {
    match step
    case BeginSend(req) =>
      s.(sends := s.sends + [SendCall(req, if HasKey(req) then Lookup else Create, None)])
    case LookupKey(p, up) => ApplyLookup(s, p, up)
    case InsertRow(p, id, now, up) => ApplyInsert(s, p, id, now, up)
    case SendPublish(p, up) =>
      var n := s.sends[p].created.value;
      if up then
        Goto(s, p, MarkQueued).(
          log := s.log + [Record(n.channel, n.recipient, SendEnvelope(cfg, s.sends[p].req.tenant, n), BySend(p))])
      else Goto(s, p, Errored)
    case SendMark(p, up) =>
      var id := s.sends[p].created.value.id;
      if up && id in s.rows then Goto(s, p, Returned(id)).(rows := SetStatus(s.rows, id, Queued))
      else Goto(s, p, Errored)
    case SchedList(_, _, due) => s.(sched := Sched(due, None))
    case SchedPublish(_, up) =>
      var n, rest := s.sched.todo[0], s.sched.todo[1..];
      if up then
        s.(sched := Sched(rest, Some(n)),
           log := s.log + [Record(n.channel, n.recipient, SchedulerEnvelope(cfg, n), ByScheduler)])
      else s.(sched := Sched(rest, None))
    case SchedMark(id, up) =>
      s.(sched := s.sched.(marking := None), rows := if up then SetStatus(s.rows, id, Queued) else s.rows)
    case WorkerFetch(i) => s.(busy := s.busy + multiset{i})
    case WorkerStatus(i, status) => s.(rows := SetStatus(s.rows, s.log[i].msg.notificationId, status))
    case WorkerDeadLetter(i, reason) =>
      var msg := s.log[i].msg;
      s.(dlq := s.dlq + [DlqRecord(msg, msg.channel, reason, msg.attempt)])
    case WorkerDone(i, commit) =>
      s.(busy := s.busy - multiset{i}, acked := if commit then s.acked + {i} else s.acked)
    case Persist(i, id) =>
      var d := s.dlq[i];
      s.(dead := s.dead[id := DeadLetter(d.original.tenant, d.original.notificationId, d, false)])
    case Replay(id, up) =>
      var d := s.dead[id].record;
      if up then
        s.(log := s.log + [Record(d.originalTopic, d.original.recipient, ReplayEnvelope(cfg, d.original), ByReplay)])
      else s
    case MarkReplayed(id) => s.(dead := s.dead[id := s.dead[id].(replayed := true)])
    case Discard(id) => s.(dead := s.dead - {id})
    case Cancel(_, id) => s.(rows := SetStatus(s.rows, id, Dropped))
  }

  ghost function ApplyLookup(s: State, p: nat, up: bool): State
    requires p < |s.sends|
  {
    var req := s.sends[p].req;
    if !up then Goto(s, p, Errored)
    else if exists id :: IsHit(s.rows, req.tenant, req.key, id) then
      var id :| IsHit(s.rows, req.tenant, req.key, id);
      Goto(s, p, Returned(id))
    else Goto(s, p, Create)
  }

  /** INSERT fails on a taken key, whoever's row holds it. */
  ghost function ApplyInsert(s: State, p: nat, id: nat, now: int, up: bool): State
    requires p < |s.sends|
  {
    var call := s.sends[p];
    if !up || KeyTaken(s.rows, call.req.key) then Goto(s, p, Errored)
    else
      var n := NewRow(id, call.req);
      var pc := if InFuture(call.req, now) then Returned(id) else Enqueue;
      s.(rows := s.rows[id := n], sends := s.sends[p := call.(pc := pc, created := Some(n))])
  }

  // ------------------------------------------------------------------------ runs

  ghost predicate NextAt(cfg: Config, steps: seq<Step>, states: seq<State>, k: nat)
    requires k < |steps| && k + 1 < |states|
  {
    Enabled(states[k], steps[k]) && states[k + 1] == Apply(cfg, states[k], steps[k])
  }

  /** states are passed through, one step each. */
  ghost predicate Path(cfg: Config, steps: seq<Step>, states: seq<State>) {
    && |states| == |steps| + 1
    && (forall k {:trigger NextAt(cfg, steps, states, k)} :: 0 <= k < |steps| ==> NextAt(cfg, steps, states, k))
  }

  /** Any interleaving of the components, of any length, from an empty system. */
  ghost predicate IsRun(cfg: Config, steps: seq<Step>, states: seq<State>) {
    Path(cfg, steps, states) && states[0] == EMPTY
  }

  /** What every step keeps: rows are never deleted, only their status changes, and no row
      goes back to pending. */
  ghost predicate RowsEvolve(before: Table, after: Table) {
    forall id :: id in before ==>
      && id in after
      && after[id] == before[id].(status := after[id].status)
      && (before[id].status != Pending ==> after[id].status != Pending)
  }

  lemma RowsEvolveTransitive(a: Table, b: Table, c: Table)
    requires RowsEvolve(a, b) && RowsEvolve(b, c)
    ensures RowsEvolve(a, c)
  {
  }

  lemma StatusEvolves(rows: Table, id: nat, status: Status)
    requires Keyed(rows) && status != Pending
    ensures RowsEvolve(rows, SetStatus(rows, id, status)) && Keyed(SetStatus(rows, id, status))
  {
  }

  lemma StepKeepsRows(cfg: Config, s: State, step: Step)
    requires Enabled(s, step) && Keyed(s.rows)
    ensures RowsEvolve(s.rows, Apply(cfg, s, step).rows) && Keyed(Apply(cfg, s, step).rows)
  {
    match step
    case SendMark(p, _) => StatusEvolves(s.rows, s.sends[p].created.value.id, Queued);
    case SchedMark(id, _) => StatusEvolves(s.rows, id, Queued);
    case WorkerStatus(i, status) => StatusEvolves(s.rows, s.log[i].msg.notificationId, status);
    case Cancel(_, id) => StatusEvolves(s.rows, id, Dropped);
    case _ =>
  }

  lemma {:induction false} RunKeyed(cfg: Config, steps: seq<Step>, states: seq<State>, k: nat)
    requires IsRun(cfg, steps, states) && k <= |steps|
    ensures Keyed(states[k].rows)
  {
    if k == 0 {
    } else {
      RunKeyed(cfg, steps, states, k - 1);
      assert NextAt(cfg, steps, states, k - 1);
      StepKeepsRows(cfg, states[k - 1], steps[k - 1]);
    }
  }

  /** Pending is never re-entered, over any run of the whole system. */
  lemma {:induction false} PendingNeverReentered(cfg: Config, steps: seq<Step>, states: seq<State>, i: nat, n: nat)
    requires IsRun(cfg, steps, states) && i <= n <= |steps|
    ensures RowsEvolve(states[i].rows, states[n].rows)
    decreases n
  {
    if i == n {
    } else {
      PendingNeverReentered(cfg, steps, states, i, n - 1);
      assert NextAt(cfg, steps, states, n - 1);
      RunKeyed(cfg, steps, states, n - 1);
      StepKeepsRows(cfg, states[n - 1], steps[n - 1]);
      RowsEvolveTransitive(states[i].rows, states[n - 1].rows, states[n].rows);
    }
  }

  // ---------------------------------------------------------------- reachability

  /** Reaching s' from s by taking steps. */
  ghost predicate Reaches(cfg: Config, s: State, steps: seq<Step>, s': State) {
    exists states :: Path(cfg, steps, states) && states[0] == s && states[|steps|] == s'
  }

  lemma JoinPaths(cfg: Config, first: seq<Step>, before: seq<State>, more: seq<Step>, after: seq<State>)
    requires Path(cfg, first, before) && Path(cfg, more, after) && before[|first|] == after[0]
    ensures Path(cfg, first + more, before + after[1..])
  {
    var all, states := first + more, before + after[1..];
    forall k | 0 <= k < |all| ensures NextAt(cfg, all, states, k) {
      if k < |first| {
        assert NextAt(cfg, first, before, k);
      } else {
        assert NextAt(cfg, more, after, k - |first|);
      }
    }
  }

  lemma ReachesNone(cfg: Config, s: State)
    ensures Reaches(cfg, s, [], s)
  {
    assert Path(cfg, [], [s]);
  }

  lemma ReachesFirst(cfg: Config, s: State, step: Step)
    requires Enabled(s, step)
    ensures Reaches(cfg, s, [step], Apply(cfg, s, step))
  {
    var states := [s, Apply(cfg, s, step)];
    assert NextAt(cfg, [step], states, 0);
    assert Path(cfg, [step], states);
  }

  lemma ReachesOn(cfg: Config, s: State, first: seq<Step>, m: State, more: seq<Step>, s': State)
    requires Reaches(cfg, s, first, m) && Reaches(cfg, m, more, s')
    ensures Reaches(cfg, s, first + more, s')
  {
    var before :| Path(cfg, first, before) && before[0] == s && before[|first|] == m;
    var after :| Path(cfg, more, after) && after[0] == m && after[|more|] == s';
    JoinPaths(cfg, first, before, more, after);
    assert (before + after[1..])[0] == s && (before + after[1..])[|first + more|] == s';
  }

  lemma ReachesStep(cfg: Config, s: State, steps: seq<Step>, m: State, step: Step)
    requires Reaches(cfg, s, steps, m) && Enabled(m, step)
    ensures Reaches(cfg, s, steps + [step], Apply(cfg, m, step))
  {
    ReachesFirst(cfg, m, step);
    ReachesOn(cfg, s, steps, m, [step], Apply(cfg, m, step));
  }

  /** The state before the last step. */
  lemma ReachesLast(cfg: Config, s: State, steps: seq<Step>, s': State) returns (m: State)
    requires Reaches(cfg, s, steps, s') && steps != []
    ensures var n := |steps| - 1;
            Reaches(cfg, s, steps[..n], m) && Enabled(m, steps[n]) && s' == Apply(cfg, m, steps[n])
  {
    var states :| Path(cfg, steps, states) && states[0] == s && states[|steps|] == s';
    var n := |steps| - 1;
    m := states[n];
    assert NextAt(cfg, steps, states, n);
    forall k | 0 <= k < n ensures NextAt(cfg, steps[..n], states[..|steps|], k) {
      assert NextAt(cfg, steps, states, k);
    }
    assert Path(cfg, steps[..n], states[..|steps|]);
  }

  /** What is reached from a state of a run is a state of a longer run. */
  lemma RunGoesOn(cfg: Config, steps: seq<Step>, states: seq<State>, more: seq<Step>, s': State)
    returns (longer: seq<State>)
    requires IsRun(cfg, steps, states) && Reaches(cfg, states[|steps|], more, s')
    ensures IsRun(cfg, steps + more, longer) && longer[|steps + more|] == s'
    ensures longer[..|states|] == states
  {
    var after :| Path(cfg, more, after) && after[0] == states[|steps|] && after[|more|] == s';
    JoinPaths(cfg, steps, states, more, after);
    longer := states + after[1..];
  }
}
