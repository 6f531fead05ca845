/** Whether a finished notification stays finished.

    Status updates have no guard (internal/db/notification.sql.go UpdateNotificationStatus), so
    delivered, failed and dropped are not absorbing: whoever still holds the row can change it.
    A row keeps its status in every continuation exactly if nobody holds it. */
module TerminalStatus {
  import opened Collections
  import opened Delivery
  import opened Rescue
  import Scheduler
  import EnvelopeInvariant

  predicate Terminal(status: Status) {
    status == Delivered || status == Failed || status == Dropped
  }

  /** A call of Send has published the row and has still to mark it. */
  ghost predicate Marking(s: State, p: nat, id: nat) {
    At(s, p, MarkQueued) && s.sends[p].created.Some? && s.sends[p].created.value.id == id
  }

  /** A message on a topic from which a worker can fetch the row. */
  ghost predicate Names(s: State, i: nat, id: nat) {
    i < |s.log| && s.log[i].msg.notificationId == id && Fetchable(s.rows, s.log[i].msg.tenant, id)
  }

  /** Such a message that is uncommitted, or that a worker is processing. */
  ghost predicate Live(s: State, i: nat, id: nat) {
    Names(s, i, id) && (i !in s.acked || i in s.busy)
  }

  /** A dead letter of the row, on its topic or persisted. */
  ghost predicate Lettered(s: State, id: nat) {
    || (exists i :: 0 <= i < |s.dlq| && s.dlq[i].original.notificationId == id)
    || (exists d :: d in s.dead && s.dead[d].record.original.notificationId == id)
  }

  /** Who can still come to write the row's status: a worker with a message for it, now or on
      fetching it or after a replay, a call of Send that has yet to publish or mark it, the
      scheduler with the row in its batch. */
  ghost predicate Held(s: State, id: nat) {
    || (exists i :: Live(s, i, id)) || Lettered(s, id)
    || (exists p :: Publishing(s, p, id) || Marking(s, p, id))
    || Scheduler.InBatch(s, id) || Scheduler.Marking(s, id)
  }

  /** Some way the system can go on gives the row another status. */
  ghost predicate CanChange(cfg: Config, s: State, id: nat)
    requires id in s.rows
  {
    exists steps, s' :: Reaches(cfg, s, steps, s') && id in s'.rows && s'.rows[id].status != s.rows[id].status
  }

  // -------------------------------------------------- dead letters leave a message

  ghost predicate OnLog(s: State, m: Envelope) {
    exists i :: 0 <= i < |s.log| && s.log[i].msg == m
  }

  /** What was dead-lettered is still on its topic. */
  ghost predicate Traced(s: State) {
    && (forall i :: 0 <= i < |s.dlq| ==> OnLog(s, s.dlq[i].original))
    && (forall d :: d in s.dead ==> OnLog(s, s.dead[d].record.original))
  }

  lemma StillOnLog(s: State, s': State, m: Envelope)
    requires OnLog(s, m) && |s.log| <= |s'.log|
    requires forall i :: 0 <= i < |s.log| ==> s'.log[i] == s.log[i]
    ensures OnLog(s', m)
  {
    var i :| 0 <= i < |s.log| && s.log[i].msg == m;
    assert s'.log[i].msg == m;
  }

  lemma TracedDlq(cfg: Config, s: State, step: Step)
    requires Traced(s) && Enabled(s, step)
    ensures forall i :: 0 <= i < |Apply(cfg, s, step).dlq| ==> OnLog(Apply(cfg, s, step), Apply(cfg, s, step).dlq[i].original)
  {
    var s' := Apply(cfg, s, step);
    LogGrows(cfg, s, step);
    forall i | 0 <= i < |s'.dlq| ensures OnLog(s', s'.dlq[i].original) {
      if i < |s.dlq| {
        StillOnLog(s, s', s.dlq[i].original);
      } else {
        assert s'.log[step.i].msg == s'.dlq[i].original;
      }
    }
  }

  lemma TracedStep(cfg: Config, s: State, step: Step)
    requires Traced(s) && Enabled(s, step)
    ensures Traced(Apply(cfg, s, step))
  {
    var s' := Apply(cfg, s, step);
    LogGrows(cfg, s, step);
    TracedDlq(cfg, s, step);
    forall d | d in s'.dead ensures OnLog(s', s'.dead[d].record.original) {
      if d in s.dead {
        StillOnLog(s, s', s.dead[d].record.original);
      } else {
        StillOnLog(s, s', s.dlq[step.i].original);
      }
    }
  }

  lemma {:induction false} RunTraced(cfg: Config, steps: seq<Step>, states: seq<State>, k: nat)
    requires IsRun(cfg, steps, states) && k <= |steps|
    ensures Traced(states[k])
  {
    if k == 0 {
    } else {
      RunTraced(cfg, steps, states, k - 1);
      assert NextAt(cfg, steps, states, k - 1);
      TracedStep(cfg, states[k - 1], steps[k - 1]);
    }
  }

  // ------------------------------------------------------ an unheld row is settled

  /** A finished row that nobody holds. */
  ghost predicate Settled(s: State, id: nat) {
    Keyed(s.rows) && id in s.rows && Terminal(s.rows[id].status) && !Held(s, id)
  }

  /** Calls that have published the row were about to. */
  lemma MarksLetGo(cfg: Config, s: State, step: Step, id: nat)
    requires (forall p :: !Publishing(s, p, id) && !Marking(s, p, id)) && Enabled(s, step)
    ensures forall p :: !Marking(Apply(cfg, s, step), p, id)
  {
    forall p ensures !Marking(Apply(cfg, s, step), p, id) {
      assert !Marking(s, p, id) && !Publishing(s, p, id);
    }
  }

  lemma SchedulerLetsGo(cfg: Config, s: State, step: Step, id: nat)
    requires Settled(s, id) && Enabled(s, step)
    ensures !Scheduler.InBatch(Apply(cfg, s, step), id) && !Scheduler.Marking(Apply(cfg, s, step), id)
  {
    var s' := Apply(cfg, s, step);
    assert !Scheduler.InBatch(s, id);
    forall i | 0 <= i < |s'.sched.todo| ensures s'.sched.todo[i].id != id {
      match step
      case SchedList(now, _, due) => assert due[i] in Due(s.rows, now);
      case SchedPublish(_, _) => assert s'.sched.todo[i] == s.sched.todo[i + 1];
      case _ => assert s'.sched.todo == s.sched.todo;
    }
  }

  /** Only a worker with a message of the row makes a dead letter of it. */
  lemma LettersLetGo(cfg: Config, s: State, step: Step, id: nat)
    requires (forall i :: !Live(s, i, id)) && !Lettered(s, id) && Enabled(s, step)
    ensures !Lettered(Apply(cfg, s, step), id)
  {
    match step
    case WorkerDeadLetter(i, _) => assert !Live(s, i, id);
    case Persist(i, _) => assert s.dlq[i].original.notificationId != id;
    case MarkReplayed(d) => assert s.dead[d].record.original.notificationId != id;
    case _ =>
  }

  lemma MessagesLetGo(cfg: Config, s: State, step: Step, id: nat)
    requires Settled(s, id) && Enabled(s, step)
    ensures forall i :: !Live(Apply(cfg, s, step), i, id)
  {
    var s' := Apply(cfg, s, step);
    LogGrows(cfg, s, step);
    StepKeepsRows(cfg, s, step);
    NothingRevived(cfg, s, step);
    if |s'.log| > |s.log| {
      NewMessageNamesOther(cfg, s, step, id);
    }
    forall i: nat ensures !Live(s', i, id) {
      assert !Live(s, i, id);
    }
  }

  /** A message that is committed and not being processed stays so. */
  lemma NothingRevived(cfg: Config, s: State, step: Step)
    requires Enabled(s, step)
    ensures forall i :: i in s.acked && i !in s.busy ==> i in Apply(cfg, s, step).acked && i !in Apply(cfg, s, step).busy
    ensures |Apply(cfg, s, step).log| <= |s.log| + 1
  {
  }

  lemma NewMessageNamesOther(cfg: Config, s: State, step: Step, id: nat)
    requires !Lettered(s, id) && !Scheduler.InBatch(s, id) && (forall p :: !Publishing(s, p, id))
    requires Enabled(s, step) && |Apply(cfg, s, step).log| > |s.log|
    ensures Apply(cfg, s, step).log[|s.log|].msg.notificationId != id
  {
    match step
    case SendPublish(p, _) => assert !Publishing(s, p, id);
    case SchedPublish(_, _) => assert !Scheduler.InBatch(s, id);
    case Replay(d, _) => assert s.dead[d].record.original.notificationId != id;
  }

  lemma SettledStatus(cfg: Config, s: State, step: Step, id: nat)
    requires Settled(s, id) && Enabled(s, step)
    ensures id in Apply(cfg, s, step).rows && Apply(cfg, s, step).rows[id].status == s.rows[id].status
  {
    match step
    case WorkerStatus(i, _) => assert !Live(s, i, id);
    case SendMark(p, _) => assert !Marking(s, p, id);
    case SchedMark(_, _) => assert !Scheduler.Marking(s, id);
    case _ =>
  }

  lemma SettledStep(cfg: Config, s: State, step: Step, id: nat)
    requires Settled(s, id) && Enabled(s, step)
    ensures Settled(Apply(cfg, s, step), id)
    ensures Apply(cfg, s, step).rows[id].status == s.rows[id].status
  {
    StepKeepsRows(cfg, s, step);
    LostCalls(cfg, s, step, id);
    MarksLetGo(cfg, s, step, id);
    SchedulerLetsGo(cfg, s, step, id);
    LettersLetGo(cfg, s, step, id);
    MessagesLetGo(cfg, s, step, id);
    SettledStatus(cfg, s, step, id);
  }

  lemma {:induction false} SettledForever(cfg: Config, s: State, steps: seq<Step>, s': State, id: nat)
    requires Settled(s, id) && Reaches(cfg, s, steps, s')
    ensures Settled(s', id) && s'.rows[id].status == s.rows[id].status
    decreases |steps|
  {
    if steps == [] {
    } else {
      var n := |steps| - 1;
      var m := ReachesLast(cfg, s, steps, s');
      SettledForever(cfg, s, steps[..n], m, id);
      SettledStep(cfg, m, steps[n], id);
    }
  }

  // ------------------------------------------------------ a held row can be changed

  lemma Change(cfg: Config, s: State, steps: seq<Step>, m: State, step: Step, id: nat)
    requires Reaches(cfg, s, steps, m) && Enabled(m, step)
    requires id in s.rows && id in Apply(cfg, m, step).rows
    requires Apply(cfg, m, step).rows[id].status != s.rows[id].status
    ensures CanChange(cfg, s, id)
  {
    ReachesStep(cfg, s, steps, m, step);
  }

  /** A worker that has the message, or fetches it, marks the row processing. */
  lemma WorkerChanges(cfg: Config, s: State, before: seq<Step>, m: State, id: nat, i: nat)
    requires Reaches(cfg, s, before, m) && id in s.rows && id in m.rows && Terminal(s.rows[id].status) && Live(m, i, id)
    ensures CanChange(cfg, s, id)
  {
    if i in m.busy {
      Change(cfg, s, before, m, WorkerStatus(i, Processing), id);
    } else {
      ReachesStep(cfg, s, before, m, WorkerFetch(i));
      Change(cfg, s, before + [WorkerFetch(i)], Apply(cfg, m, WorkerFetch(i)), WorkerStatus(i, Processing), id);
    }
  }

  /** Only messages on the log are processed or committed. */
  ghost predicate OnlyLogged(s: State) {
    (forall i :: i in s.busy ==> i < |s.log|) && (forall i :: i in s.acked ==> i < |s.log|)
  }

  lemma {:induction false} RunLogged(cfg: Config, steps: seq<Step>, states: seq<State>, k: nat)
    requires IsRun(cfg, steps, states) && k <= |steps|
    ensures OnlyLogged(states[k])
  {
    if k == 0 {
    } else {
      RunLogged(cfg, steps, states, k - 1);
      assert NextAt(cfg, steps, states, k - 1);
      LogGrows(cfg, states[k - 1], steps[k - 1]);
    }
  }

  /** A persisted dead letter is replayed. */
  lemma ReplayReaches(cfg: Config, s: State, before: seq<Step>, m: State, id: nat, d: nat) returns (s': State)
    requires Reaches(cfg, s, before, m) && EnvelopeInvariant.Inv(m) && OnlyLogged(m)
    requires d in m.dead && m.dead[d].record.original.notificationId == id
    ensures Reaches(cfg, s, before + [Replay(d, true)], s') && Names(s', |m.log|, id) && |m.log| !in s'.acked
  {
    assert EnvelopeInvariant.DeadOk(m.rows, m.dead[d]);
    ReachesStep(cfg, s, before, m, Replay(d, true));
    s' := Apply(cfg, m, Replay(d, true));
    assert s'.log[|m.log|].msg == ReplayEnvelope(cfg, m.dead[d].record.original);
  }

  /** A dead letter is persisted if it has not been, and replayed: an uncommitted message. */
  lemma LetterReaches(cfg: Config, s: State, id: nat) returns (steps: seq<Step>, s': State, i: nat)
    requires EnvelopeInvariant.Inv(s) && OnlyLogged(s) && Lettered(s, id)
    ensures Reaches(cfg, s, steps, s') && Names(s', i, id) && i !in s'.acked
  {
    i := |s.log|;
    if d :| d in s.dead && s.dead[d].record.original.notificationId == id {
      ReachesNone(cfg, s);
      s' := ReplayReaches(cfg, s, [], s, id, d);
      steps := [] + [Replay(d, true)];
    } else {
      var k :| 0 <= k < |s.dlq| && s.dlq[k].original.notificationId == id;
      var d := Unused(s.dead.Keys);
      ReachesFirst(cfg, s, Persist(k, d));
      EnvelopeInvariant.StepInv(cfg, s, Persist(k, d));
      s' := ReplayReaches(cfg, s, [Persist(k, d)], Apply(cfg, s, Persist(k, d)), id, d);
      steps := [Persist(k, d)] + [Replay(d, true)];
    }
  }

  /** Send publishes if it has not, and marks the row queued. */
  lemma SendChanges(cfg: Config, s: State, id: nat, p: nat)
    requires id in s.rows && Terminal(s.rows[id].status) && (Publishing(s, p, id) || Marking(s, p, id))
    ensures CanChange(cfg, s, id)
  {
    var steps, m := [], s;
    ReachesNone(cfg, s);
    if Publishing(s, p, id) {
      ReachesFirst(cfg, s, SendPublish(p, true));
      steps, m := [SendPublish(p, true)], Apply(cfg, s, SendPublish(p, true));
    }
    Change(cfg, s, steps, m, SendMark(p, true), id);
  }

  /** The scheduler goes on to the row, publishes it and marks it queued. */
  lemma SchedulerChanges(cfg: Config, s: State, id: nat)
    requires id in s.rows && Terminal(s.rows[id].status) && (Scheduler.InBatch(s, id) || Scheduler.Marking(s, id))
    ensures CanChange(cfg, s, id)
  {
    if Scheduler.Marking(s, id) {
      ReachesNone(cfg, s);
      Change(cfg, s, [], s, SchedMark(id, true), id);
    } else {
      var i :| 0 <= i < |s.sched.todo| && s.sched.todo[i].id == id;
      var steps := PassOver(cfg, s, i);
      var m := s.(sched := Sched(s.sched.todo[i..], None));
      ReachesStep(cfg, s, steps, m, SchedPublish(id, true));
      Change(cfg, s, steps + [SchedPublish(id, true)], Apply(cfg, m, SchedPublish(id, true)), SchedMark(id, true), id);
    }
  }

  /** In every reachable state, a delivered, failed or dropped row can get another status by
      some continuation of the run if and only if someone still holds it. */
  lemma TerminalChangesIff(cfg: Config, steps: seq<Step>, states: seq<State>, k: nat, id: nat)
    requires IsRun(cfg, steps, states) && k <= |steps|
    requires id in states[k].rows && Terminal(states[k].rows[id].status)
    ensures CanChange(cfg, states[k], id) <==> Held(states[k], id)
  {
    var s := states[k];
    EnvelopeInvariant.RunInv(cfg, steps, states, k);
    RunLogged(cfg, steps, states, k);
    if i :| Live(s, i, id) {
      ReachesNone(cfg, s);
      WorkerChanges(cfg, s, [], s, id, i);
    } else if Lettered(s, id) {
      var more, m, i := LetterReaches(cfg, s, id);
      WorkerChanges(cfg, s, more, m, id, i);
    } else if p :| Publishing(s, p, id) || Marking(s, p, id) {
      SendChanges(cfg, s, id, p);
    } else if Held(s, id) {
      SchedulerChanges(cfg, s, id);
    } else {
      forall more, s' | Reaches(cfg, s, more, s') ensures id in s'.rows && s'.rows[id].status == s.rows[id].status {
        SettledForever(cfg, s, more, s', id);
      }
    }
  }

  /** Cancelled between its insert and its publish, a notification that no message names is
      published and delivered all the same. */
  lemma CancelledIsDelivered(cfg: Config) returns (before: seq<Step>, s: State, after: seq<Step>, s': State)
    ensures Reaches(cfg, EMPTY, before, s) && Reaches(cfg, s, after, s')
    ensures 7 in s.rows && s.rows[7].status == Dropped && s.log == []
    ensures 7 in s'.rows && s'.rows[7].status == Delivered
  {
    var req := SendRequest(1, None, "alert", Email, "u", "u@example.org", None, map[], 5, None);
    before, s := CancelEarly(cfg, req);
    after, s' := CarryOn(cfg, s, 0, 7);
  }

  /** Send inserts row 7, which is cancelled before Send publishes it. */
  lemma CancelEarly(cfg: Config, req: SendRequest) returns (steps: seq<Step>, s: State)
    requires req.tenant != NO_TENANT && req.key.None? && req.scheduledAt.None?
    ensures Reaches(cfg, EMPTY, steps, s) && s.log == []
    ensures 7 in s.rows && s.rows[7].status == Dropped && s.rows[7].tenant == req.tenant
    ensures Publishing(s, 0, 7) && s.sends[0].req.tenant == req.tenant && OnlyLogged(s)
  {
    var begun := EMPTY.(sends := [SendCall(req, Create, None)]);
    ReachesFirst(cfg, EMPTY, BeginSend(req));
    assert Apply(cfg, EMPTY, BeginSend(req)) == begun;
    var insert := InsertRow(0, 7, 0, true);
    ReachesStep(cfg, EMPTY, [BeginSend(req)], begun, insert);
    var inserted := Apply(cfg, begun, insert);
    assert inserted.rows == map[7 := NewRow(7, req)] && inserted.sends == [SendCall(req, Enqueue, Some(NewRow(7, req)))];
    ReachesStep(cfg, EMPTY, [BeginSend(req)] + [insert], inserted, Cancel(req.tenant, 7));
    steps, s := [BeginSend(req)] + [insert] + [Cancel(req.tenant, 7)], Apply(cfg, inserted, Cancel(req.tenant, 7));
  }

  /** Send publishes and marks the row, and a worker delivers it. */
  lemma CarryOn(cfg: Config, s: State, p: nat, id: nat) returns (steps: seq<Step>, s': State)
    requires id in s.rows && Publishing(s, p, id) && s.rows[id].tenant == s.sends[p].req.tenant && OnlyLogged(s)
    ensures Reaches(cfg, s, steps, s') && id in s'.rows && s'.rows[id].status == Delivered
  {
    var published := Apply(cfg, s, SendPublish(p, true));
    ReachesFirst(cfg, s, SendPublish(p, true));
    var marked := Apply(cfg, published, SendMark(p, true));
    ReachesStep(cfg, s, [SendPublish(p, true)], published, SendMark(p, true));
    assert marked.log[|s.log|].msg == SendEnvelope(cfg, s.sends[p].req.tenant, s.sends[p].created.value);
    steps, s' := DeliverMessage(cfg, s, [SendPublish(p, true)] + [SendMark(p, true)], marked, |s.log|, id);
  }

  /** A worker fetches a message and marks its row delivered. */
  lemma DeliverMessage(cfg: Config, s: State, before: seq<Step>, m: State, i: nat, id: nat) returns (steps: seq<Step>, s': State)
    requires Reaches(cfg, s, before, m) && Names(m, i, id) && i !in m.acked
    ensures Reaches(cfg, s, steps, s') && id in s'.rows && s'.rows[id].status == Delivered
  {
    ReachesStep(cfg, s, before, m, WorkerFetch(i));
    var fetched := Apply(cfg, m, WorkerFetch(i));
    ReachesStep(cfg, s, before + [WorkerFetch(i)], fetched, WorkerStatus(i, Delivered));
    steps, s' := before + [WorkerFetch(i)] + [WorkerStatus(i, Delivered)], Apply(cfg, fetched, WorkerStatus(i, Delivered));
  }
}
