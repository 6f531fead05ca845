/** What is stored and sent, field by field, over every run of the delivery machine: which request
    a row keeps (internal/repository/notification.go Create), what each message says of its row
    (internal/service/notification.go and scheduler.go enqueue, internal/api/handler/dlq.go), what
    a dead letter holds (internal/worker/processor.go deadLetter), and who writes a status. */
module Contents {
  import opened Collections
  import opened Delivery
  import EnvelopeInvariant

  // -------------------------------------------------------- the request behind a row

  /** Call p was begun with the request it has. */
  lemma {:induction false} CallBegan(cfg: Config, steps: seq<Step>, states: seq<State>, n: nat, p: nat) returns (b: nat)
    requires IsRun(cfg, steps, states) && n <= |steps| && p < |states[n].sends|
    ensures b < n && steps[b] == BeginSend(states[n].sends[p].req) && |states[b].sends| == p
  {
    if n == 0 {
    } else {
      assert NextAt(cfg, steps, states, n - 1);
      if p < |states[n - 1].sends| {
        b := CallBegan(cfg, steps, states, n - 1, p);
      } else {
        b := n - 1;
      }
    }
  }

  /** Every row was inserted by one call, and keeps everything of that call's request, with
      priority 5 for none, in every later state. */
  lemma {:induction false} RowKeepsRequest(cfg: Config, steps: seq<Step>, states: seq<State>, n: nat, id: nat)
    returns (b: nat, k: nat)
    requires IsRun(cfg, steps, states) && n <= |steps| && id in states[n].rows
    ensures b < k < n && steps[b].BeginSend? && steps[k].InsertRow? && steps[k].up
    ensures steps[k].id == id && steps[k].p == |states[b].sends|
    ensures var row, req := states[n].rows[id], steps[b].req;
            && row.id == id && row.tenant == req.tenant && row.key == req.key && row.kind == req.kind
            && row.channel == req.channel && row.recipient == req.recipient && row.address == req.address
            && row.template == req.template && row.payload == req.payload && row.scheduledAt == req.scheduledAt
            && row.priority == if req.priority == 0 then 5 else req.priority
  {
    if n == 0 {
    } else {
      assert NextAt(cfg, steps, states, n - 1);
      if id in states[n - 1].rows {
        b, k := RowKeepsRequest(cfg, steps, states, n - 1, id);
        RunKeyed(cfg, steps, states, n - 1);
        StepKeepsRows(cfg, states[n - 1], steps[n - 1]);
      } else {
        k := n - 1;
        NewRowInserted(cfg, states[k], steps[k], id);
        b := CallBegan(cfg, steps, states, k, steps[k].p);
      }
    }
  }

  /** Only an insert makes a row. */
  lemma NewRowInserted(cfg: Config, s: State, step: Step, id: nat)
    requires Enabled(s, step) && id !in s.rows && id in Apply(cfg, s, step).rows
    ensures step.InsertRow? && step.up && step.id == id && step.p < |s.sends|
    ensures Apply(cfg, s, step).rows[id] == NewRow(id, s.sends[step.p].req)
  {
  }

  /** An insert that works and meets no row with its key leaves a pending row, and the call goes on
      to publish it exactly unless its scheduled time is still ahead. */
  lemma AfterInsert(cfg: Config, steps: seq<Step>, states: seq<State>, k: nat, p: nat, id: nat, now: int)
    requires IsRun(cfg, steps, states) && k < |steps| && steps[k] == InsertRow(p, id, now, true)
    requires p < |states[k].sends|
    requires var key := states[k].sends[p].req.key; key.Some? ==> forall r :: r in states[k].rows ==> states[k].rows[r].key != key
    ensures id in states[k + 1].rows && states[k + 1].rows[id].status == Pending && p < |states[k + 1].sends|
    ensures var at := states[k].sends[p].req.scheduledAt;
            && (states[k + 1].sends[p].pc == Returned(id) <==> at.Some? && at.value > now)
            && (states[k + 1].sends[p].pc == Enqueue <==> at.None? || at.value <= now)
  {
    assert NextAt(cfg, steps, states, k);
  }

  // ---------------------------------------------------------------- what messages say

  /** The attempt budget of a message is that of the component that wrote it. */
  ghost predicate Budgeted(cfg: Config, r: Record) {
    match r.source
    case BySend(_) => r.msg.maxAttempts == cfg.sendRetries
    case ByScheduler => r.msg.maxAttempts == cfg.schedulerRetries
    case ByReplay => r.msg.maxAttempts == cfg.replayAttempts
  }

  lemma {:induction false} RunBudgeted(cfg: Config, steps: seq<Step>, states: seq<State>, n: nat, i: nat)
    requires IsRun(cfg, steps, states) && n <= |steps| && i < |states[n].log|
    ensures Budgeted(cfg, states[n].log[i])
  {
    if n == 0 {
    } else {
      assert NextAt(cfg, steps, states, n - 1);
      if i < |states[n - 1].log| {
        RunBudgeted(cfg, steps, states, n - 1, i);
      }
    }
  }

  /** Every message, whoever wrote it, says what its row says, on the row's topic and under its
      recipient, as a first attempt; the scheduler's leave the tenant at zero; and each component
      sets its own budget. */
  lemma MessageSaysRow(cfg: Config, steps: seq<Step>, states: seq<State>, n: nat, i: nat)
    requires IsRun(cfg, steps, states) && n <= |steps| && i < |states[n].log|
    ensures states[n].log[i].msg.notificationId in states[n].rows
    ensures var r, row := states[n].log[i], states[n].rows[states[n].log[i].msg.notificationId];
            && r.topic == row.channel && r.key == row.recipient
            && r.msg.channel == row.channel && r.msg.recipient == row.recipient && r.msg.address == row.address
            && r.msg.template == row.template && r.msg.payload == row.payload && r.msg.priority == row.priority
            && r.msg.attempt == 1
            && row.tenant != 0 && r.msg.tenant == (if r.source.ByScheduler? then 0 else row.tenant)
            && (r.source.BySend? ==> r.msg.maxAttempts == cfg.sendRetries)
            && (r.source.ByScheduler? ==> r.msg.maxAttempts == cfg.schedulerRetries)
            && (r.source.ByReplay? ==> r.msg.maxAttempts == cfg.replayAttempts)
  {
    EnvelopeInvariant.RunInv(cfg, steps, states, n);
    assert EnvelopeInvariant.RecordOk(states[n].rows, states[n].log[i]);
    RunBudgeted(cfg, steps, states, n, i);
  }

  // -------------------------------------------------------------- what dead letters hold

  /** Every dead letter is some worker's: the message it was processing, with that message's topic
      and attempt, and the worker's reason. */
  lemma {:induction false} LetterHolds(cfg: Config, steps: seq<Step>, states: seq<State>, n: nat, i: nat) returns (k: nat)
    requires IsRun(cfg, steps, states) && n <= |steps| && i < |states[n].dlq|
    ensures k < n && steps[k].WorkerDeadLetter? && steps[k].i < |states[n].log|
    ensures var d, m := states[n].dlq[i], states[n].log[steps[k].i];
            d.original == m.msg && d.originalTopic == m.topic && d.reason == steps[k].reason && d.lastAttempt == m.msg.attempt
  {
    if n == 0 {
    } else {
      assert NextAt(cfg, steps, states, n - 1);
      if i < |states[n - 1].dlq| {
        k := LetterHolds(cfg, steps, states, n - 1, i);
      } else {
        k := n - 1;
        EnvelopeInvariant.RunInv(cfg, steps, states, k);
        assert EnvelopeInvariant.RecordOk(states[k].rows, states[k].log[steps[k].i]);
      }
    }
  }

  /** A row of the dead-letter table is a record of the topic, under the tenant and the id of its
      notification. */
  lemma {:induction false} PersistedHolds(cfg: Config, steps: seq<Step>, states: seq<State>, n: nat, d: nat) returns (i: nat)
    requires IsRun(cfg, steps, states) && n <= |steps| && d in states[n].dead
    ensures i < |states[n].dlq| && states[n].dead[d].record == states[n].dlq[i]
    ensures states[n].dead[d].notificationId == states[n].dlq[i].original.notificationId
    ensures states[n].dead[d].notificationId in states[n].rows
    ensures states[n].dead[d].tenant == states[n].rows[states[n].dead[d].notificationId].tenant
  {
    EnvelopeInvariant.RunInv(cfg, steps, states, n);
    assert EnvelopeInvariant.DeadOk(states[n].rows, states[n].dead[d]);
    if n == 0 {
    } else {
      assert NextAt(cfg, steps, states, n - 1);
      if d in states[n - 1].dead {
        i := PersistedHolds(cfg, steps, states, n - 1, d);
      } else {
        i := steps[n - 1].i;
      }
    }
  }

  // ------------------------------------------------------------------ who writes a status

  /** Which status a step gives row id, if any: Send and the scheduler queue the row they have
      published, a worker writes what it says, and its own tenant can drop it while it is
      pending or queued. */
  lemma StatusWritten(cfg: Config, steps: seq<Step>, states: seq<State>, k: nat, id: nat)
    requires IsRun(cfg, steps, states) && k < |steps| && id in states[k].rows
    ensures id in states[k + 1].rows
    ensures var s, before, after := states[k], states[k].rows[id].status, states[k + 1].rows[id].status;
            match steps[k]
            case SendMark(p, up) =>
              && p < |s.sends| && s.sends[p].created.Some?
              && after == if up && s.sends[p].created.value.id == id then Queued else before
            case SchedMark(x, up) => after == if up && x == id then Queued else before
            case WorkerStatus(i, status) =>
              && i < |s.log| && status != Pending && status != Queued
              && after == if s.log[i].msg.notificationId == id then status else before
            case Cancel(tenant, x) =>
              && (x == id ==> s.rows[id].tenant == tenant && (before == Pending || before == Queued))
              && after == if x == id then Dropped else before
            case _ => after == before
  {
    assert NextAt(cfg, steps, states, k);
  }
}
