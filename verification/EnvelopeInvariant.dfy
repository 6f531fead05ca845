/** The system-wide envelope invariant: what every message on a channel topic, every
    dead-letter record and every dead-letter row says about the notification it names. */
module EnvelopeInvariant {
  import opened Delivery

  /** n is a copy of a stored row, up to its status. */
  ghost predicate CopyOf(rows: Table, n: Notification) {
    n.id in rows && rows[n.id] == n.(status := rows[n.id].status)
  }

  ghost predicate EnvelopeOk(rows: Table, m: Envelope) {
    && m.notificationId in rows
    && m.channel == rows[m.notificationId].channel
    && m.recipient == rows[m.notificationId].recipient
    && m.address == rows[m.notificationId].address
    && m.template == rows[m.notificationId].template
    && m.payload == rows[m.notificationId].payload
    && m.priority == rows[m.notificationId].priority
    && m.attempt == 1
  }

  /** The message names an existing row, sits on that row's channel topic, is keyed by that
      row's recipient and is a first attempt; only the scheduler's lack the row's tenant. */
  ghost predicate RecordOk(rows: Table, r: Record) {
    && EnvelopeOk(rows, r.msg)
    && r.topic == rows[r.msg.notificationId].channel
    && r.key == rows[r.msg.notificationId].recipient
    && r.msg.tenant == (if r.source.ByScheduler? then NO_TENANT else rows[r.msg.notificationId].tenant)
  }

  ghost predicate DlqOk(rows: Table, d: DlqRecord) {
    && EnvelopeOk(rows, d.original)
    && d.original.tenant == rows[d.original.notificationId].tenant
    && d.originalTopic == rows[d.original.notificationId].channel
    && d.lastAttempt == 1
  }

  ghost predicate DeadOk(rows: Table, d: DeadLetter) {
    && DlqOk(rows, d.record)
    && d.notificationId == d.record.original.notificationId
    && d.tenant == rows[d.notificationId].tenant
  }

  ghost predicate CallOk(rows: Table, c: SendCall) {
    && c.req.tenant != NO_TENANT
    && (c.created.Some? ==> CopyOf(rows, c.created.value) && c.created.value.tenant == c.req.tenant)
  }

  ghost predicate SchedOk(rows: Table, sched: Sched) {
    && (forall i :: 0 <= i < |sched.todo| ==> CopyOf(rows, sched.todo[i]))
    && (sched.marking.Some? ==> CopyOf(rows, sched.marking.value))
  }

  ghost predicate Inv(s: State) {
    && Keyed(s.rows)
    && (forall id :: id in s.rows ==> s.rows[id].tenant != NO_TENANT)
    && (forall p :: 0 <= p < |s.sends| ==> CallOk(s.rows, s.sends[p]))
    && SchedOk(s.rows, s.sched)
    && (forall i :: 0 <= i < |s.log| ==> RecordOk(s.rows, s.log[i]))
    && (forall i :: 0 <= i < |s.dlq| ==> DlqOk(s.rows, s.dlq[i]))
    && (forall id :: id in s.dead ==> DeadOk(s.rows, s.dead[id]))
  }

  /** The invariant survives any evolution of the rows that leaves tenants non-zero. */
  lemma RowsInv(s: State, s': State)
    requires Inv(s) && RowsEvolve(s.rows, s'.rows) && Keyed(s'.rows)
    requires forall id :: id in s'.rows ==> s'.rows[id].tenant != NO_TENANT
    requires s' == s.(rows := s'.rows)
    ensures Inv(s')
  {
    forall p | 0 <= p < |s'.sends| ensures CallOk(s'.rows, s'.sends[p]) {
      assert CallOk(s.rows, s.sends[p]);
    }
    forall i | 0 <= i < |s'.sched.todo| ensures CopyOf(s'.rows, s'.sched.todo[i]) {
      assert CopyOf(s.rows, s.sched.todo[i]);
    }
    forall i | 0 <= i < |s'.log| ensures RecordOk(s'.rows, s'.log[i]) {
      assert RecordOk(s.rows, s.log[i]);
    }
    forall i | 0 <= i < |s'.dlq| ensures DlqOk(s'.rows, s'.dlq[i]) {
      assert DlqOk(s.rows, s.dlq[i]);
    }
    forall id | id in s'.dead ensures DeadOk(s'.rows, s'.dead[id]) {
      assert DeadOk(s.rows, s.dead[id]);
    }
  }

  lemma StatusInv(s: State, id: nat, status: Status)
    requires Inv(s) && status != Pending
    ensures Inv(s.(rows := SetStatus(s.rows, id, status)))
  {
    StatusEvolves(s.rows, id, status);
    RowsInv(s, s.(rows := SetStatus(s.rows, id, status)));
  }

  /** Moving a call on changes nothing the invariant speaks of. */
  lemma GotoInv(s: State, p: nat, pc: Pc)
    requires Inv(s) && p < |s.sends|
    ensures Inv(Goto(s, p, pc))
  {
    assert CallOk(s.rows, s.sends[p]);
  }

  lemma PublishInv(cfg: Config, s: State, p: nat)
    requires Inv(s) && Enabled(s, SendPublish(p, true))
    ensures Inv(Apply(cfg, s, SendPublish(p, true)))
  {
    assert CallOk(s.rows, s.sends[p]);
    GotoInv(s, p, MarkQueued);
  }

  lemma SendInv(cfg: Config, s: State, step: Step)
    requires Inv(s) && Enabled(s, step)
    requires step.BeginSend? || step.LookupKey? || step.SendPublish? || step.SendMark?
    ensures Inv(Apply(cfg, s, step))
  {
    var s' := Apply(cfg, s, step);
    match step
    case BeginSend(req) =>
    case LookupKey(p, _) => GotoInv(s, p, s'.sends[p].pc);
    case SendPublish(p, up) =>
      if up { PublishInv(cfg, s, p); } else { GotoInv(s, p, Errored); }
    case SendMark(p, _) =>
      GotoInv(s, p, s'.sends[p].pc);
      StatusInv(Goto(s, p, s'.sends[p].pc), s.sends[p].created.value.id, Queued);
  }

  lemma InsertInv(cfg: Config, s: State, p: nat, id: nat, now: int, up: bool)
    requires Inv(s) && Enabled(s, InsertRow(p, id, now, up))
    ensures Inv(Apply(cfg, s, InsertRow(p, id, now, up)))
  {
    var s', call := Apply(cfg, s, InsertRow(p, id, now, up)), s.sends[p];
    assert CallOk(s.rows, call);
    if up && !KeyTaken(s.rows, call.req.key) {
      var n := NewRow(id, call.req);
      RowsInv(s, s.(rows := s.rows[id := n]));
      assert CopyOf(s'.rows, n);
    }
  }

  lemma SchedInv(cfg: Config, s: State, step: Step)
    requires Inv(s) && Enabled(s, step)
    requires step.SchedList? || step.SchedPublish? || step.SchedMark?
    ensures Inv(Apply(cfg, s, step))
  {
    var s' := Apply(cfg, s, step);
    match step
    case SchedList(now, batch, due) =>
      forall i | 0 <= i < |due| ensures CopyOf(s.rows, due[i]) {
        assert due[i] in Due(s.rows, now);
      }
    case SchedPublish(id, up) =>
      assert CopyOf(s.rows, s.sched.todo[0]);
      forall i | 0 <= i < |s'.sched.todo| ensures CopyOf(s'.rows, s'.sched.todo[i]) {
        assert s'.sched.todo[i] == s.sched.todo[i + 1];
      }
    case SchedMark(id, up) =>
      StatusInv(s, id, Queued);
  }

  lemma WorkerInv(cfg: Config, s: State, step: Step)
    requires Inv(s) && Enabled(s, step)
    requires !step.BeginSend? && !step.LookupKey? && !step.InsertRow? && !step.SendPublish? && !step.SendMark?
    requires !step.SchedList? && !step.SchedPublish? && !step.SchedMark?
    ensures Inv(Apply(cfg, s, step))
  {
    match step
    case WorkerStatus(i, status) => StatusInv(s, s.log[i].msg.notificationId, status);
    case WorkerDeadLetter(i, reason) => assert RecordOk(s.rows, s.log[i]);
    case WorkerFetch(_) =>
    case WorkerDone(_, _) =>
    case Persist(i, id) => assert DlqOk(s.rows, s.dlq[i]);
    case Replay(id, up) => assert DeadOk(s.rows, s.dead[id]);
    case MarkReplayed(id) => assert DeadOk(s.rows, s.dead[id]);
    case Discard(id) =>
    case Cancel(_, id) => StatusInv(s, id, Dropped);
  }

  lemma StepInv(cfg: Config, s: State, step: Step)
    requires Inv(s) && Enabled(s, step)
    ensures Inv(Apply(cfg, s, step))
  {
    if step.BeginSend? || step.LookupKey? || step.SendPublish? || step.SendMark? {
      SendInv(cfg, s, step);
    } else if step.InsertRow? {
      InsertInv(cfg, s, step.p, step.id, step.now, step.up);
    } else if step.SchedList? || step.SchedPublish? || step.SchedMark? {
      SchedInv(cfg, s, step);
    } else {
      WorkerInv(cfg, s, step);
    }
  }

  lemma {:induction false} RunInv(cfg: Config, steps: seq<Step>, states: seq<State>, k: nat)
    requires IsRun(cfg, steps, states) && k <= |steps|
    ensures Inv(states[k])
  {
    if k == 0 {
    } else {
      RunInv(cfg, steps, states, k - 1);
      assert NextAt(cfg, steps, states, k - 1);
      StepInv(cfg, states[k - 1], steps[k - 1]);
    }
  }

  // ------------------------------------------------------------------- theorems

  /** Over any run, every message ever put on a channel topic, by Send, scheduler or replay,
      satisfies the envelope invariant, and every dead letter carries its notification's own
      tenant. */
  lemma EnvelopesAlwaysOk(cfg: Config, steps: seq<Step>, states: seq<State>, k: nat)
    requires IsRun(cfg, steps, states) && k <= |steps|
    ensures forall i :: 0 <= i < |states[k].log| ==> RecordOk(states[k].rows, states[k].log[i])
    ensures forall i :: 0 <= i < |states[k].dlq| ==> DlqOk(states[k].rows, states[k].dlq[i])
    ensures forall id :: id in states[k].dead ==> DeadOk(states[k].rows, states[k].dead[id])
  {
    RunInv(cfg, steps, states, k);
  }

  /** A message is fetchable by its worker exactly if the scheduler did not write it: the
      scheduler's envelopes name no tenant, so every processing of one stops at the fetch,
      in every reachable state, and no such message is ever delivered or dead-lettered. */
  lemma FetchableIffNotScheduler(cfg: Config, steps: seq<Step>, states: seq<State>, k: nat, i: nat)
    requires IsRun(cfg, steps, states) && k <= |steps| && i < |states[k].log|
    ensures var r := states[k].log[i];
            Fetchable(states[k].rows, r.msg.tenant, r.msg.notificationId) <==> !r.source.ByScheduler?
  {
    RunInv(cfg, steps, states, k);
    assert RecordOk(states[k].rows, states[k].log[i]);
  }

  /** Replay undoes dead-lettering: publishing the replay of a dead letter puts back a message
      that agrees with the dead-lettered one on everything but the attempt budget. */
  lemma ReplayRestores(cfg: Config, steps: seq<Step>, states: seq<State>, k: nat, id: nat)
    requires IsRun(cfg, steps, states) && k < |steps| && steps[k] == Replay(id, true)
    ensures id in states[k].dead && |states[k + 1].log| == |states[k].log| + 1
    ensures var d, r := states[k].dead[id].record, states[k + 1].log[|states[k].log|];
            && RecordOk(states[k].rows, r)
            && r.msg == d.original.(maxAttempts := cfg.replayAttempts)
            && Fetchable(states[k].rows, r.msg.tenant, r.msg.notificationId)
  {
    RunInv(cfg, steps, states, k);
    assert NextAt(cfg, steps, states, k);
    assert DeadOk(states[k].rows, states[k].dead[id]);
  }
}
