/** The API side of sending (internal/service/notification.go Send and SendBulk): each call is
    a run of the delivery machine's own steps.  Here a call runs without interruption; calls
    that interleave are runs of the same steps in Delivery. */
module SendService {
  import opened Collections
  import opened Delivery
  import Idempotency

  /** Outcomes of the external calls of one Send: the clock is read once, after the insert,
      and the database supplies the id of a new row. */
  datatype Outcomes = Outcomes(lookupUp: bool, insertUp: bool, publishUp: bool, markUp: bool, now: int, id: nat)

  datatype Answer = Sent(id: nat) | Refused

  // ------------------------------------------------------------ what a call leaves

  function SendRecord(cfg: Config, req: SendRequest, id: nat, p: nat): Record {
    Record(req.channel, req.recipient, SendEnvelope(cfg, req.tenant, NewRow(id, req)), BySend(p))
  }

  /** The call ended before it inserted a row. */
  function EndedEarly(s: State, req: SendRequest, pc: Pc): State {
    s.(sends := s.sends + [SendCall(req, pc, None)])
  }

  /** The call inserted a row and got to pc. */
  function Inserted(s: State, req: SendRequest, id: nat, pc: Pc): State {
    s.(rows := s.rows[id := NewRow(id, req)], sends := s.sends + [SendCall(req, pc, Some(NewRow(id, req)))])
  }

  /** ... and published its message. */
  function Published(cfg: Config, s: State, req: SendRequest, id: nat, pc: Pc): State {
    Inserted(s, req, id, pc).(log := s.log + [SendRecord(cfg, req, id, |s.sends|)])
  }

  /** The system after a whole call, and its answer.  A failed publish or update leaves the new
      row pending; a failed insert, a taken key included, leaves nothing. */
  function AfterSend(cfg: Config, s: State, req: SendRequest, hit: Option<nat>, o: Outcomes): (State, Answer) {
    if HasKey(req) && !o.lookupUp then (EndedEarly(s, req, Errored), Refused)
    else if HasKey(req) && hit.Some? then (EndedEarly(s, req, Returned(hit.value)), Sent(hit.value))
    else if !o.insertUp || KeyTaken(s.rows, req.key) then (EndedEarly(s, req, Errored), Refused)
    else if InFuture(req, o.now) then (Inserted(s, req, o.id, Returned(o.id)), Sent(o.id))
    else if !o.publishUp then (Inserted(s, req, o.id, Errored), Refused)
    else if !o.markUp then (Published(cfg, s, req, o.id, Errored), Refused)
    else
      var done := Published(cfg, s, req, o.id, Returned(o.id));
      (done.(rows := SetStatus(done.rows, o.id, Queued)), Sent(o.id))
  }

  /** What the lookup finds; a request without a key, or with an empty one, makes none. */
  ghost predicate IsLookup(rows: Table, req: SendRequest, hit: Option<nat>) {
    if !HasKey(req) then hit == None
    else if hit.Some? then IsHit(rows, req.tenant, req.key, hit.value)
    else forall id :: !IsHit(rows, req.tenant, req.key, id)
  }

  /** When a call inserts a row: the lookup, which only a non-empty key needs, works and finds
      nothing, and the insert works and meets no row with the key. */
  ghost predicate Inserts(rows: Table, req: SendRequest, hit: Option<nat>, o: Outcomes) {
    && (req.key.Some? && req.key.value != "" ==> o.lookupUp && hit.None?)
    && o.insertUp && forall id :: id in rows && req.key.Some? ==> rows[id].key != req.key
  }

  /** A call that inserts no row changes nothing, and is answered with the notification its lookup
      found, if it made one and that found one. */
  lemma NotInserted(cfg: Config, s: State, req: SendRequest, hit: Option<nat>, o: Outcomes)
    requires IsLookup(s.rows, req, hit) && !Inserts(s.rows, req, hit, o)
    ensures var after := AfterSend(cfg, s, req, hit, o);
            && after.0.rows == s.rows && after.0.log == s.log
            && after.1 == if req.key.Some? && req.key.value != "" && o.lookupUp && hit.Some? then Sent(hit.value) else Refused
  {
  }

  /** A call that inserts a row stores all of its request, with priority 5 for none, and touches no
      other row.  Unless its time lies ahead it publishes one message that says the same, as a
      first attempt of the configured budget.  The row is queued if both publish and update work
      and pending otherwise, and the call succeeds if there was nothing to publish or both work. */
  lemma InsertedExactly(cfg: Config, s: State, req: SendRequest, hit: Option<nat>, o: Outcomes)
    requires IsLookup(s.rows, req, hit) && Inserts(s.rows, req, hit, o) && o.id !in s.rows
    ensures var after := AfterSend(cfg, s, req, hit, o);
            var ahead := req.scheduledAt.Some? && req.scheduledAt.value > o.now;
            && after.0.rows == s.rows[o.id := Notification(
                 o.id, req.tenant, req.key, req.kind, req.channel, req.recipient, req.address, req.template, req.payload,
                 if req.priority == 0 then 5 else req.priority,
                 if !ahead && o.publishUp && o.markUp then Queued else Pending, req.scheduledAt)]
            && after.0.log == s.log + (if ahead || !o.publishUp then [] else [Record(
                 req.channel, req.recipient,
                 Envelope(o.id, req.tenant, req.channel, req.recipient, req.address, req.template, req.payload,
                          if req.priority == 0 then 5 else req.priority, 1, cfg.sendRetries),
                 BySend(|s.sends|))])
            && after.1 == if ahead || (o.publishUp && o.markUp) then Sent(o.id) else Refused
  {
    assert !KeyTaken(s.rows, req.key);
    assert s.log + [] == s.log;
    assert s.rows[o.id := NewRow(o.id, req)][o.id := NewRow(o.id, req).(status := Queued)]
        == s.rows[o.id := NewRow(o.id, req).(status := Queued)];
  }

  // ------------------------------------------------------ when a key is refused

  predicate AllUp(o: Outcomes) {
    o.lookupUp && o.insertUp && o.publishUp && o.markUp
  }

  /** A row carries the key that this request cannot be answered with. */
  ghost predicate Blocks(rows: Table, req: SendRequest, id: nat) {
    id in rows && req.key.Some? && rows[id].key == req.key && (rows[id].tenant != req.tenant || req.key.value == "")
  }

  /** Duplicate suppression meets its per-tenant description exactly where no other tenant has
      used the key: when every external call works, a send is refused if and only if another
      tenant's row carries its key, or any row does and the key is empty. */
  lemma RefusedIff(cfg: Config, s: State, req: SendRequest, hit: Option<nat>, o: Outcomes)
    requires Idempotency.UniqueKeys(s.rows) && IsLookup(s.rows, req, hit) && AllUp(o)
    ensures AfterSend(cfg, s, req, hit, o).1 == Refused <==> exists id :: Blocks(s.rows, req, id)
  {
    if id :| Blocks(s.rows, req, id) {
      assert KeyTaken(s.rows, req.key);
    } else if KeyTaken(s.rows, req.key) {
      var id :| id in s.rows && s.rows[id].key == req.key;
      assert !Blocks(s.rows, req, id);
      assert IsHit(s.rows, req.tenant, req.key, id);
    }
  }

  /** Two tenants use one key: the second is refused although nothing fails. */
  lemma TwoTenants(cfg: Config, key: string) returns (steps: seq<Step>, first: Answer, second: Answer, s: State)
    requires key != ""
    ensures Reaches(cfg, EMPTY, steps, s) && first == Sent(1) && second == Refused
    ensures |s.sends| == 2 && s.sends[0].req.key == s.sends[1].req.key == Some(key)
    ensures s.sends[0].req.tenant != s.sends[1].req.tenant
    ensures s.sends[0].pc == Returned(1) && s.sends[1].pc == Errored
  {
    var r1 := SendRequest(1, Some(key), "alert", Email, "u", "u@example.org", None, map[], 5, None);
    var r2 := r1.(tenant := 2);
    var o1, o2 := Outcomes(true, true, true, true, 0, 1), Outcomes(true, true, true, true, 0, 2);
    var begin := SendReaches(cfg, EMPTY, r1, None, o1);
    SendKeepsTable(cfg, EMPTY, r1, None, o1);
    var m := AfterSend(cfg, EMPTY, r1, None, o1).0;
    assert m.rows == map[1 := NewRow(1, r1).(status := Queued)];
    assert Blocks(m.rows, r2, 1);
    RefusedIff(cfg, m, r2, None, o2);
    var more := SendReaches(cfg, m, r2, None, o2);
    first, second := AfterSend(cfg, EMPTY, r1, None, o1).1, AfterSend(cfg, m, r2, None, o2).1;
    s := AfterSend(cfg, m, r2, None, o2).0;
    ReachesOn(cfg, EMPTY, begin, m, more, s);
    steps := begin + more;
  }

  // ------------------------------------------------------------- step by step

  lemma ReachBegin(cfg: Config, s: State, req: SendRequest)
    requires req.tenant != NO_TENANT
    ensures Reaches(cfg, s, [BeginSend(req)], EndedEarly(s, req, if HasKey(req) then Lookup else Create))
  {
    ReachesFirst(cfg, s, BeginSend(req));
  }

  lemma ReachLookup(cfg: Config, s: State, steps: seq<Step>, req: SendRequest, hit: Option<nat>, up: bool)
    requires Reaches(cfg, s, steps, EndedEarly(s, req, Lookup))
    requires Idempotency.UniqueKeys(s.rows) && HasKey(req) && IsLookup(s.rows, req, hit)
    ensures Reaches(cfg, s, steps + [LookupKey(|s.sends|, up)],
                    EndedEarly(s, req, if !up then Errored else if hit.Some? then Returned(hit.value) else Create))
  {
    var m := EndedEarly(s, req, Lookup);
    var p := |s.sends|;
    ReachesStep(cfg, s, steps, m, LookupKey(p, up));
    assert m.sends[p].req == req && m.rows == s.rows;
    forall pc ensures Goto(m, p, pc) == EndedEarly(s, req, pc) {
      assert m.sends[p := m.sends[p].(pc := pc)] == s.sends + [SendCall(req, pc, None)];
    }
  }

  lemma ReachInsert(cfg: Config, s: State, steps: seq<Step>, req: SendRequest, o: Outcomes)
    requires Reaches(cfg, s, steps, EndedEarly(s, req, Create)) && o.id !in s.rows
    ensures Reaches(cfg, s, steps + [InsertRow(|s.sends|, o.id, o.now, o.insertUp)],
                    if !o.insertUp || KeyTaken(s.rows, req.key) then EndedEarly(s, req, Errored)
                    else Inserted(s, req, o.id, if InFuture(req, o.now) then Returned(o.id) else Enqueue))
  {
    var m := EndedEarly(s, req, Create);
    var p := |s.sends|;
    ReachesStep(cfg, s, steps, m, InsertRow(p, o.id, o.now, o.insertUp));
    assert m.sends[p] == SendCall(req, Create, None);
    forall c ensures m.sends[p := c] == s.sends + [c] {
    }
  }

  lemma ReachPublish(cfg: Config, s: State, steps: seq<Step>, req: SendRequest, o: Outcomes)
    requires Reaches(cfg, s, steps, Inserted(s, req, o.id, Enqueue))
    ensures Reaches(cfg, s, steps + [SendPublish(|s.sends|, o.publishUp)],
                    if o.publishUp then Published(cfg, s, req, o.id, MarkQueued) else Inserted(s, req, o.id, Errored))
  {
    var m := Inserted(s, req, o.id, Enqueue);
    var p := |s.sends|;
    ReachesStep(cfg, s, steps, m, SendPublish(p, o.publishUp));
    assert m.sends[p] == SendCall(req, Enqueue, Some(NewRow(o.id, req)));
    forall c ensures m.sends[p := c] == s.sends + [c] {
    }
  }

  lemma ReachMark(cfg: Config, s: State, steps: seq<Step>, req: SendRequest, o: Outcomes)
    requires Reaches(cfg, s, steps, Published(cfg, s, req, o.id, MarkQueued))
    ensures Reaches(cfg, s, steps + [SendMark(|s.sends|, o.markUp)],
                    if !o.markUp then Published(cfg, s, req, o.id, Errored)
                    else var done := Published(cfg, s, req, o.id, Returned(o.id));
                         done.(rows := SetStatus(done.rows, o.id, Queued)))
  {
    var m := Published(cfg, s, req, o.id, MarkQueued);
    var p := |s.sends|;
    ReachesStep(cfg, s, steps, m, SendMark(p, o.markUp));
    assert m.sends[p] == SendCall(req, MarkQueued, Some(NewRow(o.id, req)));
    forall c ensures m.sends[p := c] == s.sends + [c] {
    }
  }

  /** Everything from the insert on. */
  lemma ReachFromCreate(cfg: Config, s: State, steps: seq<Step>, req: SendRequest, hit: Option<nat>, o: Outcomes)
    returns (all: seq<Step>)
    requires Reaches(cfg, s, steps, EndedEarly(s, req, Create)) && o.id !in s.rows
    requires HasKey(req) ==> o.lookupUp && hit.None?
    ensures Reaches(cfg, s, all, AfterSend(cfg, s, req, hit, o).0)
  {
    ReachInsert(cfg, s, steps, req, o);
    all := steps + [InsertRow(|s.sends|, o.id, o.now, o.insertUp)];
    if o.insertUp && !KeyTaken(s.rows, req.key) && !InFuture(req, o.now) {
      ReachPublish(cfg, s, all, req, o);
      all := all + [SendPublish(|s.sends|, o.publishUp)];
      if o.publishUp {
        ReachMark(cfg, s, all, req, o);
        all := all + [SendMark(|s.sends|, o.markUp)];
      }
    }
  }

  /** A whole call of Send is a run of the machine. */
  lemma SendReaches(cfg: Config, s: State, req: SendRequest, hit: Option<nat>, o: Outcomes) returns (steps: seq<Step>)
    requires req.tenant != NO_TENANT && o.id !in s.rows
    requires Idempotency.UniqueKeys(s.rows) && IsLookup(s.rows, req, hit)
    ensures Reaches(cfg, s, steps, AfterSend(cfg, s, req, hit, o).0)
  {
    ReachBegin(cfg, s, req);
    steps := [BeginSend(req)];
    if HasKey(req) {
      ReachLookup(cfg, s, steps, req, hit, o.lookupUp);
      steps := steps + [LookupKey(|s.sends|, o.lookupUp)];
      if o.lookupUp && hit.None? {
        steps := ReachFromCreate(cfg, s, steps, req, hit, o);
      }
    } else {
      steps := ReachFromCreate(cfg, s, steps, req, hit, o);
    }
  }

  /** A call leaves the table keyed and its idempotency keys unique. */
  lemma SendKeepsTable(cfg: Config, s: State, req: SendRequest, hit: Option<nat>, o: Outcomes)
    requires Keyed(s.rows) && Idempotency.UniqueKeys(s.rows)
    ensures Keyed(AfterSend(cfg, s, req, hit, o).0.rows)
    ensures Idempotency.UniqueKeys(AfterSend(cfg, s, req, hit, o).0.rows)
  {
    if !KeyTaken(s.rows, req.key) {
      var rows' := s.rows[o.id := NewRow(o.id, req)];
      forall id | id in s.rows ensures req.key.Some? ==> s.rows[id].key != req.key {
      }
      assert Keyed(rows') && Idempotency.UniqueKeys(rows');
      Idempotency.StatusKeepsKeys(rows', o.id, Queued);
    }
  }

  // ---------------------------------------------------------------- the service

  class NotificationService {
    const cfg: Config
    var rows: Table
    var log: seq<Record>
    var calls: seq<SendCall>  // every call made, for the record's source and the machine's view
    ghost var others: State  // what the other components hold

    constructor (cfg: Config)
      ensures this.cfg == cfg && View() == EMPTY && Valid()
    {
      this.cfg := cfg;
      rows := map[];
      log := [];
      calls := [];
      others := EMPTY;
    }

    ghost function View(): State
      reads this
    {
      others.(rows := rows, log := log, sends := calls)
    }

    ghost predicate Valid()
      reads this
    {
      Keyed(rows) && Idempotency.UniqueKeys(rows)
    }

    /** GetByIdempotencyKey: rows without a key never match. */
    method FindByKey(tenant: nat, key: string) returns (hit: Option<nat>)
      ensures hit.Some? ==> IsHit(rows, tenant, Some(key), hit.value)
      ensures hit.None? ==> forall id :: !IsHit(rows, tenant, Some(key), id)
    {
      var todo := rows.Keys;
      while todo != {}
        invariant todo <= rows.Keys
        invariant forall id :: IsHit(rows, tenant, Some(key), id) ==> id in todo
        decreases |todo|
      {
        var id :| id in todo;
        if rows[id].tenant == tenant && rows[id].key == Some(key) {
          return Some(id);
        }
        todo := todo - {id};
      }
      hit := None;
    }

    /** Send: the effects and the answer of a call are those of the machine's run. */
    method Send(req: SendRequest, o: Outcomes) returns (answer: Answer, ghost hit: Option<nat>, ghost steps: seq<Step>)
      requires Valid() && req.tenant != NO_TENANT && o.id !in rows
      modifies this`rows, this`log, this`calls
      ensures Valid()
      ensures IsLookup(old(rows), req, hit)
      ensures View() == AfterSend(cfg, old(View()), req, hit, o).0
      ensures answer == AfterSend(cfg, old(View()), req, hit, o).1
      ensures Reaches(cfg, old(View()), steps, View())
    {
      var found := None;
      if HasKey(req) {
        found := FindByKey(req.tenant, req.key.value);
      }
      hit := found;
      steps := SendReaches(cfg, View(), req, hit, o);
      SendKeepsTable(cfg, View(), req, hit, o);
      if HasKey(req) {
        if !o.lookupUp {
          calls := calls + [SendCall(req, Errored, None)];
          return Refused, hit, steps;
        }
        if found.Some? {
          calls := calls + [SendCall(req, Returned(found.value), None)];
          return Sent(found.value), hit, steps;
        }
      }
      if !o.insertUp || KeyTaken(rows, req.key) {
        calls := calls + [SendCall(req, Errored, None)];
        return Refused, hit, steps;
      }
      var n := NewRow(o.id, req);
      rows := rows[o.id := n];
      if InFuture(req, o.now) {
        calls := calls + [SendCall(req, Returned(o.id), Some(n))];
        return Sent(o.id), hit, steps;
      }
      if !o.publishUp {
        calls := calls + [SendCall(req, Errored, Some(n))];
        return Refused, hit, steps;
      }
      log := log + [Record(n.channel, n.recipient, SendEnvelope(cfg, req.tenant, n), BySend(|calls|))];
      if !o.markUp {
        calls := calls + [SendCall(req, Errored, Some(n))];
        return Refused, hit, steps;
      }
      rows := SetStatus(rows, o.id, Queued);
      calls := calls + [SendCall(req, Returned(o.id), Some(n))];
      answer := Sent(o.id);
    }

    /** Send for one recipient of a bulk request, which has neither a key nor a schedule. */
    method SendPlain(req: SendRequest, o: Outcomes) returns (answer: Answer)
      requires Valid() && req.tenant != NO_TENANT && o.id !in rows && req.key.None? && req.scheduledAt.None?
      modifies this`rows, this`log, this`calls
      ensures Valid()
      ensures answer == if Works(o) then Sent(o.id) else Refused
      ensures View() == PlainState(cfg, old(View()), req, o)
    {
      PlainAfter(cfg, View(), req, o);
      ghost var hit, steps;
      answer, hit, steps := Send(req, o);
    }

    /** The next recipient of a bulk request. */
    method SendNext(tenant: nat, bulk: BulkRequest, outcomes: nat -> Outcomes, i: nat, ghost start: State) returns (answer: Answer)
      requires Valid() && tenant != NO_TENANT && i < |bulk.recipients| && NewIds(start.rows, outcomes, |bulk.recipients|)
      requires Keyed(start.rows) && Idempotency.UniqueKeys(start.rows)
      requires View() == AfterBulk(cfg, start, tenant, bulk, outcomes, i)
      modifies this`rows, this`log, this`calls
      ensures Valid() && View() == AfterBulk(cfg, start, tenant, bulk, outcomes, i + 1)
      ensures answer == if Works(outcomes(i)) then Sent(outcomes(i).id) else Refused
    {
      BulkReady(cfg, start, tenant, bulk, outcomes, i);
      answer := SendPlain(Single(tenant, bulk, i), outcomes(i));
    }

    /** SendBulk: one Send per recipient with the payloads merged, the recipient's entries
        winning; a failure for one recipient does not stop the rest.  The table, the messages
        and both answer lists are exactly those of the recipients, in order. */
    method SendBulk(tenant: nat, bulk: BulkRequest, outcomes: nat -> Outcomes)
      returns (results: seq<nat>, errors: seq<string>, ghost steps: seq<Step>)
      requires Valid() && tenant != NO_TENANT && NewIds(rows, outcomes, |bulk.recipients|)
      modifies this`rows, this`log, this`calls
      ensures Valid()
      ensures results == Succeeded(|bulk.recipients|, outcomes)
      ensures errors == Rejected(bulk.recipients, |bulk.recipients|, outcomes)
      ensures View() == AfterBulk(cfg, old(View()), tenant, bulk, outcomes, |bulk.recipients|)
      ensures Reaches(cfg, old(View()), steps, View())
    {
      steps := BulkReaches(cfg, View(), tenant, bulk, outcomes, |bulk.recipients|);
      ghost var start := View();
      results, errors := [], [];
      var i := 0;
      while i < |bulk.recipients|
        invariant 0 <= i <= |bulk.recipients| && Valid()
        invariant View() == AfterBulk(cfg, start, tenant, bulk, outcomes, i)
        invariant results == Succeeded(i, outcomes)
        invariant errors == Rejected(bulk.recipients, i, outcomes)
      {
        var answer := SendNext(tenant, bulk, outcomes, i, start);
        if answer.Refused? {
          errors := errors + [bulk.recipients[i].recipient];
        } else {
          results := results + [answer.id];
        }
        i := i + 1;
      }
    }
  }

  // ------------------------------------------------------------------ bulk sends

  datatype Recipient = Recipient(recipient: string, address: string, payload: Payload)

  datatype BulkRequest = BulkRequest(
    kind: string, channel: Channel, template: Option<nat>, payload: Payload, priority: int, recipients: seq<Recipient>)

  function Single(tenant: nat, bulk: BulkRequest, i: nat): SendRequest
    requires i < |bulk.recipients|
  {
    var r := bulk.recipients[i];
    SendRequest(tenant, None, bulk.kind, bulk.channel, r.recipient, r.address, bulk.template,
                bulk.payload + r.payload, bulk.priority, None)
  }

  /** The external calls a keyless, unscheduled Send makes all work. */
  predicate Works(o: Outcomes) {
    o.insertUp && o.publishUp && o.markUp
  }

  /** The row such a call stores: queued only if its publish and its update both worked. */
  function PlainRow(req: SendRequest, o: Outcomes): Notification {
    NewRow(o.id, req).(status := if Works(o) then Queued else Pending)
  }

  function WithRow(rows: Table, req: SendRequest, o: Outcomes): Table {
    if o.insertUp then rows[o.id := PlainRow(req, o)] else rows
  }

  /** The message it publishes as call p. */
  function PlainRecord(cfg: Config, req: SendRequest, o: Outcomes, p: nat): seq<Record> {
    if o.insertUp && o.publishUp then [SendRecord(cfg, req, o.id, p)] else []
  }

  /** How it ends. */
  function PlainCall(req: SendRequest, o: Outcomes): SendCall {
    SendCall(req, if Works(o) then Returned(o.id) else Errored, if o.insertUp then Some(NewRow(o.id, req)) else None)
  }

  /** The system after it. */
  function PlainState(cfg: Config, s: State, req: SendRequest, o: Outcomes): State {
    s.(rows := WithRow(s.rows, req, o), log := s.log + PlainRecord(cfg, req, o, |s.sends|),
       sends := s.sends + [PlainCall(req, o)])
  }

  /** The ids the database will hand out to the recipients' rows. */
  ghost predicate NewIds(rows: Table, outcomes: nat -> Outcomes, n: nat) {
    && (forall i: nat :: i < n ==> outcomes(i).id !in rows)
    && (forall i: nat, j: nat :: i < j < n ==> outcomes(i).id != outcomes(j).id)
  }

  /** The table after the first n recipients. */
  function BulkTable(start: Table, tenant: nat, bulk: BulkRequest, outcomes: nat -> Outcomes, n: nat): Table
    requires n <= |bulk.recipients|
  {
    if n == 0 then start
    else WithRow(BulkTable(start, tenant, bulk, outcomes, n - 1), Single(tenant, bulk, n - 1), outcomes(n - 1))
  }

  /** The messages of the first n recipients, whose calls are numbered from p. */
  function BulkLog(cfg: Config, tenant: nat, bulk: BulkRequest, outcomes: nat -> Outcomes, p: nat, n: nat): seq<Record>
    requires n <= |bulk.recipients|
  {
    if n == 0 then []
    else BulkLog(cfg, tenant, bulk, outcomes, p, n - 1)
         + PlainRecord(cfg, Single(tenant, bulk, n - 1), outcomes(n - 1), p + n - 1)
  }

  /** rows is start and one row for each of the first n recipients whose insert worked. */
  ghost predicate BulkRows(start: Table, rows: Table, tenant: nat, bulk: BulkRequest, outcomes: nat -> Outcomes, n: nat)
    requires n <= |bulk.recipients|
  {
    && (forall id :: id in start ==> id in rows && rows[id] == start[id])
    && (forall k: nat :: k < |bulk.recipients| ==> (outcomes(k).id in rows <==> k < n && outcomes(k).insertUp))
    && (forall k: nat :: k < n && outcomes(k).insertUp ==>
          outcomes(k).id in rows && rows[outcomes(k).id] == PlainRow(Single(tenant, bulk, k), outcomes(k)))
  }

  lemma BulkRowsNext(start: Table, rows: Table, tenant: nat, bulk: BulkRequest, outcomes: nat -> Outcomes, n: nat)
    requires n < |bulk.recipients| && NewIds(start, outcomes, |bulk.recipients|)
    requires BulkRows(start, rows, tenant, bulk, outcomes, n)
    ensures BulkRows(start, WithRow(rows, Single(tenant, bulk, n), outcomes(n)), tenant, bulk, outcomes, n + 1)
  {
  }

  /** A bulk send adds exactly one row of its own for each recipient whose insert works, queued
      or left pending, and touches no other row. */
  lemma {:induction false} BulkExactly(start: Table, tenant: nat, bulk: BulkRequest, outcomes: nat -> Outcomes, n: nat)
    requires n <= |bulk.recipients| && NewIds(start, outcomes, |bulk.recipients|)
    ensures BulkRows(start, BulkTable(start, tenant, bulk, outcomes, n), tenant, bulk, outcomes, n)
  {
    if n == 0 {
    } else {
      BulkExactly(start, tenant, bulk, outcomes, n - 1);
      BulkRowsNext(start, BulkTable(start, tenant, bulk, outcomes, n - 1), tenant, bulk, outcomes, n - 1);
    }
  }

  /** The row of a recipient: the request's, but for the recipient's own name, address and
      payload, whose entries win over those of the request. */
  lemma BulkRowIs(start: Table, tenant: nat, bulk: BulkRequest, outcomes: nat -> Outcomes, n: nat, k: nat)
    requires n <= |bulk.recipients| && NewIds(start, outcomes, |bulk.recipients|) && k < n && outcomes(k).insertUp
    ensures outcomes(k).id in BulkTable(start, tenant, bulk, outcomes, n)
    ensures var row, r := BulkTable(start, tenant, bulk, outcomes, n)[outcomes(k).id], bulk.recipients[k];
            && row.id == outcomes(k).id && row.tenant == tenant && row.key.None? && row.kind == bulk.kind
            && row.channel == bulk.channel && row.recipient == r.recipient && row.address == r.address
            && row.template == bulk.template && row.scheduledAt.None?
            && row.priority == (if bulk.priority == 0 then 5 else bulk.priority)
            && row.status == (if outcomes(k).publishUp && outcomes(k).markUp then Queued else Pending)
            && (forall x :: x in row.payload <==> x in bulk.payload || x in r.payload)
            && (forall x :: x in row.payload ==> row.payload[x] == if x in r.payload then r.payload[x] else bulk.payload[x])
  {
    BulkExactly(start, tenant, bulk, outcomes, n);
  }

  /** Which recipients' messages are published. */
  function Publishes(outcomes: nat -> Outcomes): nat -> bool {
    (i: nat) => outcomes(i).insertUp && outcomes(i).publishUp
  }

  lemma {:induction false} BulkLogCount(cfg: Config, tenant: nat, bulk: BulkRequest, outcomes: nat -> Outcomes, p: nat, n: nat)
    requires n <= |bulk.recipients|
    ensures |BulkLog(cfg, tenant, bulk, outcomes, p, n)| == CountUp(Publishes(outcomes), n)
  {
    if n == 0 {
    } else {
      BulkLogCount(cfg, tenant, bulk, outcomes, p, n - 1);
    }
  }

  /** A bulk send publishes one message for each recipient whose insert and publish work, in order;
      it says what the recipient's row does, and is a first attempt of the configured budget. */
  lemma {:induction false} BulkMessageIs(cfg: Config, tenant: nat, bulk: BulkRequest, outcomes: nat -> Outcomes,
                                         p: nat, n: nat, k: nat)
    requires n <= |bulk.recipients| && k < n && outcomes(k).insertUp && outcomes(k).publishUp
    ensures CountUp(Publishes(outcomes), k) < |BulkLog(cfg, tenant, bulk, outcomes, p, n)| == CountUp(Publishes(outcomes), n)
    ensures var m, r := BulkLog(cfg, tenant, bulk, outcomes, p, n)[CountUp(Publishes(outcomes), k)], bulk.recipients[k];
            && m.topic == bulk.channel && m.key == r.recipient && m.source == BySend(p + k)
            && m.msg == Envelope(outcomes(k).id, tenant, bulk.channel, r.recipient, r.address, bulk.template,
                                 bulk.payload + r.payload, if bulk.priority == 0 then 5 else bulk.priority, 1, cfg.sendRetries)
  {
    BulkLogCount(cfg, tenant, bulk, outcomes, p, n);
    BulkLogCount(cfg, tenant, bulk, outcomes, p, n - 1);
    if k < n - 1 {
      BulkMessageIs(cfg, tenant, bulk, outcomes, p, n - 1, k);
    }
  }

  /** Every new row of a bulk send is some recipient's. */
  lemma {:induction false} BulkAddsOnly(start: Table, tenant: nat, bulk: BulkRequest, outcomes: nat -> Outcomes, n: nat, id: nat)
    requires n <= |bulk.recipients| && id in BulkTable(start, tenant, bulk, outcomes, n) && id !in start
    ensures exists k: nat :: k < n && outcomes(k).insertUp && outcomes(k).id == id
  {
    if n == 0 {
    } else if outcomes(n - 1).insertUp && outcomes(n - 1).id == id {
    } else {
      BulkAddsOnly(start, tenant, bulk, outcomes, n - 1, id);
    }
  }

  function BulkCalls(tenant: nat, bulk: BulkRequest, outcomes: nat -> Outcomes, n: nat): (calls: seq<SendCall>)
    requires n <= |bulk.recipients|
    ensures |calls| == n
  {
    if n == 0 then []
    else BulkCalls(tenant, bulk, outcomes, n - 1) + [PlainCall(Single(tenant, bulk, n - 1), outcomes(n - 1))]
  }

  /** The system after the sends to the first n recipients. */
  function AfterBulk(cfg: Config, s: State, tenant: nat, bulk: BulkRequest, outcomes: nat -> Outcomes, n: nat): State
    requires n <= |bulk.recipients|
  {
    if n == 0 then s
    else PlainState(cfg, AfterBulk(cfg, s, tenant, bulk, outcomes, n - 1), Single(tenant, bulk, n - 1), outcomes(n - 1))
  }

  /** A send with neither a key nor a schedule. */
  lemma PlainAfter(cfg: Config, s: State, req: SendRequest, o: Outcomes)
    requires req.key.None? && req.scheduledAt.None?
    ensures AfterSend(cfg, s, req, None, o)
         == (PlainState(cfg, s, req, o), if Works(o) then Sent(o.id) else Refused)
  {
    assert s.log + [] == s.log;
    if Works(o) {
      assert SetStatus(s.rows[o.id := NewRow(o.id, req)], o.id, Queued) == s.rows[o.id := PlainRow(req, o)];
    } else if o.insertUp {
      assert PlainRow(req, o) == NewRow(o.id, req);
    }
  }

  /** Table, messages and calls of the sends to the first n recipients. */
  lemma {:induction false} BulkParts(cfg: Config, s: State, tenant: nat, bulk: BulkRequest, outcomes: nat -> Outcomes, n: nat)
    requires n <= |bulk.recipients|
    ensures AfterBulk(cfg, s, tenant, bulk, outcomes, n)
         == s.(rows := BulkTable(s.rows, tenant, bulk, outcomes, n),
               log := s.log + BulkLog(cfg, tenant, bulk, outcomes, |s.sends|, n),
               sends := s.sends + BulkCalls(tenant, bulk, outcomes, n))
  {
    if n == 0 {
      assert s.log + [] == s.log && s.sends + [] == s.sends;
    } else {
      BulkParts(cfg, s, tenant, bulk, outcomes, n - 1);
      var req, o := Single(tenant, bulk, n - 1), outcomes(n - 1);
      Associative(s.log, BulkLog(cfg, tenant, bulk, outcomes, |s.sends|, n - 1), PlainRecord(cfg, req, o, |s.sends| + n - 1));
      Associative(s.sends, BulkCalls(tenant, bulk, outcomes, n - 1), [PlainCall(req, o)]);
    }
  }

  lemma NextIdUnused(start: Table, tenant: nat, bulk: BulkRequest, outcomes: nat -> Outcomes, n: nat)
    requires n < |bulk.recipients| && NewIds(start, outcomes, |bulk.recipients|)
    ensures outcomes(n).id !in BulkTable(start, tenant, bulk, outcomes, n)
  {
    BulkExactly(start, tenant, bulk, outcomes, n);
  }

  lemma {:induction false} BulkKeepsTable(start: Table, tenant: nat, bulk: BulkRequest, outcomes: nat -> Outcomes, n: nat)
    requires n <= |bulk.recipients| && Keyed(start) && Idempotency.UniqueKeys(start)
    ensures Keyed(BulkTable(start, tenant, bulk, outcomes, n))
    ensures Idempotency.UniqueKeys(BulkTable(start, tenant, bulk, outcomes, n))
  {
    if n == 0 {
    } else {
      BulkKeepsTable(start, tenant, bulk, outcomes, n - 1);
    }
  }

  /** One more send after what was already reached. */
  lemma PlainReaches(cfg: Config, s: State, before: seq<Step>, m: State, req: SendRequest, o: Outcomes)
    returns (steps: seq<Step>)
    requires Reaches(cfg, s, before, m) && Idempotency.UniqueKeys(m.rows) && o.id !in m.rows
    requires req.tenant != NO_TENANT && req.key.None? && req.scheduledAt.None?
    ensures Reaches(cfg, s, steps, PlainState(cfg, m, req, o))
  {
    PlainAfter(cfg, m, req, o);
    var more := SendReaches(cfg, m, req, None, o);
    ReachesOn(cfg, s, before, m, more, PlainState(cfg, m, req, o));
    steps := before + more;
  }

  /** The table is ready for the next recipient's row. */
  lemma BulkReady(cfg: Config, s: State, tenant: nat, bulk: BulkRequest, outcomes: nat -> Outcomes, n: nat)
    requires n < |bulk.recipients| && NewIds(s.rows, outcomes, |bulk.recipients|)
    requires Keyed(s.rows) && Idempotency.UniqueKeys(s.rows)
    ensures Idempotency.UniqueKeys(AfterBulk(cfg, s, tenant, bulk, outcomes, n).rows)
    ensures outcomes(n).id !in AfterBulk(cfg, s, tenant, bulk, outcomes, n).rows
  {
    BulkParts(cfg, s, tenant, bulk, outcomes, n);
    BulkKeepsTable(s.rows, tenant, bulk, outcomes, n);
    NextIdUnused(s.rows, tenant, bulk, outcomes, n);
  }

  /** A whole bulk send is a run of the machine. */
  lemma {:induction false} BulkReaches(cfg: Config, s: State, tenant: nat, bulk: BulkRequest, outcomes: nat -> Outcomes, n: nat)
    returns (steps: seq<Step>)
    requires n <= |bulk.recipients| && tenant != NO_TENANT && NewIds(s.rows, outcomes, |bulk.recipients|)
    requires Keyed(s.rows) && Idempotency.UniqueKeys(s.rows)
    ensures Reaches(cfg, s, steps, AfterBulk(cfg, s, tenant, bulk, outcomes, n))
  {
    if n == 0 {
      steps := [];
      ReachesNone(cfg, s);
    } else {
      steps := BulkReaches(cfg, s, tenant, bulk, outcomes, n - 1);
      BulkReady(cfg, s, tenant, bulk, outcomes, n - 1);
      steps := PlainReaches(cfg, s, steps, AfterBulk(cfg, s, tenant, bulk, outcomes, n - 1),
                            Single(tenant, bulk, n - 1), outcomes(n - 1));
    }
  }

  function Succeeded(n: nat, outcomes: nat -> Outcomes): seq<nat> {
    if n == 0 then []
    else Succeeded(n - 1, outcomes) + (if Works(outcomes(n - 1)) then [outcomes(n - 1).id] else [])
  }

  function Rejected(recipients: seq<Recipient>, n: nat, outcomes: nat -> Outcomes): seq<string>
    requires n <= |recipients|
  {
    if n == 0 then []
    else Rejected(recipients, n - 1, outcomes) + (if Works(outcomes(n - 1)) then [] else [recipients[n - 1].recipient])
  }

  /** ks lists, in order, exactly the first n recipients whose sends worked or did not. */
  ghost predicate Lists(ks: seq<nat>, n: nat, outcomes: nat -> Outcomes, worked: bool) {
    && (forall a, b :: 0 <= a < b < |ks| ==> ks[a] < ks[b])
    && (forall k: nat :: k in ks <==> k < n && Works(outcomes(k)) == worked)
  }

  /** The recipients among the first n whose sends worked, or did not. */
  function Chosen(n: nat, outcomes: nat -> Outcomes, worked: bool): seq<nat> {
    if n == 0 then []
    else Chosen(n - 1, outcomes, worked) + (if Works(outcomes(n - 1)) == worked then [n - 1] else [])
  }

  lemma {:induction false} ChosenLists(n: nat, outcomes: nat -> Outcomes, worked: bool)
    ensures Lists(Chosen(n, outcomes, worked), n, outcomes, worked)
  {
    if n == 0 {
    } else {
      ChosenLists(n - 1, outcomes, worked);
      var ks := Chosen(n - 1, outcomes, worked);
      forall a | 0 <= a < |ks| ensures ks[a] < n - 1 {
        assert ks[a] in ks;
      }
    }
  }

  lemma {:induction false} ResultsChosen(n: nat, outcomes: nat -> Outcomes)
    ensures |Succeeded(n, outcomes)| == |Chosen(n, outcomes, true)|
    ensures forall j :: 0 <= j < |Chosen(n, outcomes, true)| ==>
              Succeeded(n, outcomes)[j] == outcomes(Chosen(n, outcomes, true)[j]).id
  {
    if n == 0 {
    } else {
      ResultsChosen(n - 1, outcomes);
    }
  }

  lemma {:induction false} ErrorsChosen(recipients: seq<Recipient>, n: nat, outcomes: nat -> Outcomes)
    requires n <= |recipients|
    ensures |Rejected(recipients, n, outcomes)| == |Chosen(n, outcomes, false)|
    ensures forall j :: 0 <= j < |Chosen(n, outcomes, false)| ==>
              Chosen(n, outcomes, false)[j] < |recipients|
              && Rejected(recipients, n, outcomes)[j] == recipients[Chosen(n, outcomes, false)[j]].recipient
  {
    if n == 0 {
    } else {
      ErrorsChosen(recipients, n - 1, outcomes);
    }
  }

  lemma {:induction false} ChosenSizes(n: nat, outcomes: nat -> Outcomes)
    ensures |Chosen(n, outcomes, true)| + |Chosen(n, outcomes, false)| == n
  {
    if n == 0 {
    } else {
      ChosenSizes(n - 1, outcomes);
    }
  }

  /** Every recipient is answered for exactly once: the recipients split, in order, into those
      the results list and those the errors list. */
  lemma BulkAccounts(recipients: seq<Recipient>, outcomes: nat -> Outcomes) returns (good: seq<nat>, bad: seq<nat>)
    ensures Lists(good, |recipients|, outcomes, true) && Lists(bad, |recipients|, outcomes, false)
    ensures |good| + |bad| == |recipients|
    ensures var results := Succeeded(|recipients|, outcomes);
            |results| == |good| && forall j :: 0 <= j < |good| ==> results[j] == outcomes(good[j]).id
    ensures var errors := Rejected(recipients, |recipients|, outcomes);
            |errors| == |bad| && forall j :: 0 <= j < |bad| ==> bad[j] < |recipients| && errors[j] == recipients[bad[j]].recipient
  {
    var n := |recipients|;
    good, bad := Chosen(n, outcomes, true), Chosen(n, outcomes, false);
    ChosenLists(n, outcomes, true);
    ChosenLists(n, outcomes, false);
    ChosenSizes(n, outcomes);
    ResultsChosen(n, outcomes);
    ErrorsChosen(recipients, n, outcomes);
  }
}
