/** Which notifications can ever be delivered.

    A worker resolves a message by the tenant it names.  The scheduler's messages name none, and
    only what was processed is dead-lettered and replayed, so everything that is ever processed
    starts with a publish by Send.  A notification Send did not publish, because its publish
    failed or because it was scheduled for later, is never processed, whatever the scheduler does. */
module Deliverable {
  import opened Delivery
  import opened Rescue
  import opened TerminalStatus
  import Idempotency
  import EnvelopeInvariant

  /** A call of Send has published the row. */
  ghost predicate SentFor(s: State, id: nat) {
    exists i :: 0 <= i < |s.log| && s.log[i].source.BySend? && s.log[i].msg.notificationId == id
  }

  predicate Processed(status: Status) {
    status == Processing || status == Delivered || status == Failed
  }

  /** What Send did not publish, no worker has touched. */
  ghost predicate Untouched(s: State) {
    forall id {:trigger SentFor(s, id)} :: id in s.rows && !SentFor(s, id) ==>
      Unheard(s, id) && !Processed(s.rows[id].status)
  }

  lemma SentStays(cfg: Config, s: State, step: Step, id: nat)
    requires Enabled(s, step) && SentFor(s, id)
    ensures SentFor(Apply(cfg, s, step), id)
  {
    LogGrows(cfg, s, step);
    var i :| 0 <= i < |s.log| && s.log[i].source.BySend? && s.log[i].msg.notificationId == id;
    assert Apply(cfg, s, step).log[i] == s.log[i];
  }

  /** A publish by Send shows on the log. */
  lemma PublishShows(cfg: Config, s: State, p: nat, id: nat)
    requires Enabled(s, SendPublish(p, true)) && Publishing(s, p, id)
    ensures SentFor(Apply(cfg, s, SendPublish(p, true)), id)
  {
    var s' := Apply(cfg, s, SendPublish(p, true));
    assert s'.log[|s.log|].source == BySend(p) && s'.log[|s.log|].msg.notificationId == id;
  }

  lemma UntouchedRow(cfg: Config, s: State, step: Step, id: nat)
    requires Enabled(s, step) && EnvelopeInvariant.Inv(s) && id in s.rows
    requires Unheard(s, id) && !Processed(s.rows[id].status) && !SentFor(Apply(cfg, s, step), id)
    ensures var s' := Apply(cfg, s, step);
            Unheard(s', id) && id in s'.rows && !Processed(s'.rows[id].status)
  {
    StepKeepsRows(cfg, s, step);
    if step.SendPublish? && Publishing(s, step.p, id) {
      if step.up {
        PublishShows(cfg, s, step.p, id);
      }
    } else {
      UnheardStep(cfg, s, step, id);
    }
    UntouchedStatus(cfg, s, step, id);
  }

  lemma UntouchedStatus(cfg: Config, s: State, step: Step, id: nat)
    requires Enabled(s, step) && id in s.rows && s.rows[id].tenant != NO_TENANT && Unheard(s, id)
    requires !Processed(s.rows[id].status)
    ensures id in Apply(cfg, s, step).rows && !Processed(Apply(cfg, s, step).rows[id].status)
  {
    match step
    case WorkerStatus(i, _) => assert s.log[i].msg.notificationId != id;
    case _ =>
  }

  lemma UntouchedStep(cfg: Config, s: State, step: Step)
    requires Enabled(s, step) && Untouched(s) && EnvelopeInvariant.Inv(s)
    ensures Untouched(Apply(cfg, s, step))
  {
    var s' := Apply(cfg, s, step);
    forall id | id in s'.rows && !SentFor(s', id) ensures Unheard(s', id) && !Processed(s'.rows[id].status) {
      if id in s.rows {
        if SentFor(s, id) {
          SentStays(cfg, s, step, id);
        } else {
          UntouchedRow(cfg, s, step, id);
        }
      } else {
        Unmentioned(s, id);
        assert step.InsertRow?;
      }
    }
  }

  /** In every run, a row Send has not published is heard of only in scheduler messages, which no
      worker can resolve, and is neither processing nor delivered nor failed. */
  lemma {:induction false} RunUntouched(cfg: Config, steps: seq<Step>, states: seq<State>, k: nat)
    requires IsRun(cfg, steps, states) && k <= |steps|
    ensures Untouched(states[k])
  {
    if k == 0 {
    } else {
      RunUntouched(cfg, steps, states, k - 1);
      EnvelopeInvariant.RunInv(cfg, steps, states, k - 1);
      assert NextAt(cfg, steps, states, k - 1);
      UntouchedStep(cfg, states[k - 1], steps[k - 1]);
    }
  }

  // ------------------------------------------------------- calls that end unpublished

  /** Call p created row id and is over, and did not publish. */
  ghost predicate Silent(s: State, p: nat, id: nat) {
    && Idempotency.CreatedBy(s, p, id)
    && (s.sends[p].pc.Errored? || s.sends[p].pc.Returned?)
    && (forall i :: 0 <= i < |s.log| ==> s.log[i].source != BySend(p))
  }

  lemma SilentStep(cfg: Config, s: State, step: Step, p: nat, id: nat)
    requires Enabled(s, step) && Silent(s, p, id)
    ensures Silent(Apply(cfg, s, step), p, id)
  {
    SilentLog(cfg, s, step, p);
    SilentCall(cfg, s, step, p, id);
  }

  lemma SilentCall(cfg: Config, s: State, step: Step, p: nat, id: nat)
    requires Enabled(s, step) && Idempotency.CreatedBy(s, p, id) && (s.sends[p].pc.Errored? || s.sends[p].pc.Returned?)
    ensures var s' := Apply(cfg, s, step);
            Idempotency.CreatedBy(s', p, id) && (s'.sends[p].pc.Errored? || s'.sends[p].pc.Returned?)
  {
  }

  lemma SilentLog(cfg: Config, s: State, step: Step, p: nat)
    requires Enabled(s, step) && p < |s.sends| && (s.sends[p].pc.Errored? || s.sends[p].pc.Returned?)
    requires forall i :: 0 <= i < |s.log| ==> s.log[i].source != BySend(p)
    ensures forall i :: 0 <= i < |Apply(cfg, s, step).log| ==> Apply(cfg, s, step).log[i].source != BySend(p)
  {
  }

  /** No other call publishes the row either. */
  lemma SilentUnsent(s: State, p: nat, id: nat)
    requires Silent(s, p, id) && Idempotency.Inv(s)
    ensures !SentFor(s, id)
  {
    forall i | 0 <= i < |s.log| && s.log[i].source.BySend? ensures s.log[i].msg.notificationId != id {
      assert Idempotency.RecordOk(s, s.log[i]);
      assert s.log[i].msg.notificationId == id ==> Idempotency.CreatedBy(s, s.log[i].source.p, id);
    }
  }

  lemma {:induction false} StaysSilent(cfg: Config, steps: seq<Step>, states: seq<State>, k: nat, n: nat, p: nat, id: nat)
    requires IsRun(cfg, steps, states) && k <= n <= |steps| && Silent(states[k], p, id)
    ensures Silent(states[n], p, id)
    decreases n
  {
    if k == n {
    } else {
      StaysSilent(cfg, steps, states, k, n - 1, p, id);
      assert NextAt(cfg, steps, states, n - 1);
      SilentStep(cfg, states[n - 1], steps[n - 1], p, id);
    }
  }

  lemma SilentUnprocessed(cfg: Config, steps: seq<Step>, states: seq<State>, k: nat, n: nat, p: nat, id: nat)
    requires IsRun(cfg, steps, states) && k <= n <= |steps| && Silent(states[k], p, id)
    ensures id in states[n].rows && !Processed(states[n].rows[id].status)
  {
    StaysSilent(cfg, steps, states, k, n, p, id);
    Idempotency.RunInv(cfg, steps, states, n);
    SilentUnsent(states[n], p, id);
    assert Idempotency.CallOk(states[n].rows, states[n].sends[p]);
    RunUntouched(cfg, steps, states, n);
  }

  /** A notification whose publish failed is never processed, with or without a schedule. */
  lemma FailedPublishUnprocessed(cfg: Config, steps: seq<Step>, states: seq<State>, k: nat, p: nat, n: nat)
    requires IsRun(cfg, steps, states) && k < n <= |steps| && steps[k] == SendPublish(p, false)
    ensures p < |states[k].sends| && states[k].sends[p].created.Some?
    ensures var id := states[k].sends[p].created.value.id;
            id in states[n].rows && !Processed(states[n].rows[id].status)
  {
    assert NextAt(cfg, steps, states, k);
    Idempotency.RunInv(cfg, steps, states, k);
    var s, id := states[k], states[k].sends[p].created.value.id;
    forall i | 0 <= i < |s.log| ensures s.log[i].source != BySend(p) {
      assert Idempotency.RecordOk(s, s.log[i]);
    }
    assert Silent(states[k + 1], p, id);
    SilentUnprocessed(cfg, steps, states, k + 1, n, p, id);
  }

  /** A notification scheduled for later is never processed. */
  lemma ScheduledUnprocessed(cfg: Config, steps: seq<Step>, states: seq<State>, k: nat, p: nat, id: nat, now: int, n: nat)
    requires IsRun(cfg, steps, states) && k < n <= |steps| && steps[k] == InsertRow(p, id, now, true)
    requires p < |states[k].sends| && InFuture(states[k].sends[p].req, now)
    requires !KeyTaken(states[k].rows, states[k].sends[p].req.key)
    ensures id in states[n].rows && !Processed(states[n].rows[id].status)
  {
    assert NextAt(cfg, steps, states, k);
    Idempotency.RunInv(cfg, steps, states, k);
    var s := states[k];
    forall i | 0 <= i < |s.log| ensures s.log[i].source != BySend(p) {
      assert Idempotency.RecordOk(s, s.log[i]) && Idempotency.CallOk(s.rows, s.sends[p]);
    }
    assert Silent(states[k + 1], p, id);
    SilentUnprocessed(cfg, steps, states, k + 1, n, p, id);
  }

  // ------------------------------------------------------------- the exact condition

  /** Some way the system can go on delivers the row. */
  ghost predicate CanDeliver(cfg: Config, s: State, id: nat) {
    exists steps, s' :: Reaches(cfg, s, steps, s') && id in s'.rows && s'.rows[id].status == Delivered
  }

  /** Nothing leads to a processing of the row: no message a worker has or can fetch, no dead
      letter, no call of Send about to publish. */
  ghost predicate Dormant(s: State, id: nat) {
    && Keyed(s.rows) && id in s.rows && s.rows[id].tenant != NO_TENANT
    && (forall i :: !Live(s, i, id)) && !Lettered(s, id) && (forall p :: !Publishing(s, p, id))
  }

  /** A new message is another row's, or the scheduler's. */
  lemma DormantNewMessage(cfg: Config, s: State, step: Step, id: nat)
    requires !Lettered(s, id) && (forall p :: !Publishing(s, p, id)) && Enabled(s, step) && |Apply(cfg, s, step).log| > |s.log|
    ensures var m := Apply(cfg, s, step).log[|s.log|].msg;
            m.notificationId != id || m.tenant == NO_TENANT
  {
    match step
    case SendPublish(p, _) => assert !Publishing(s, p, id);
    case Replay(d, _) => assert s.dead[d].record.original.notificationId != id;
    case SchedPublish(_, _) =>
  }

  lemma DormantMessages(cfg: Config, s: State, step: Step, id: nat)
    requires Dormant(s, id) && Enabled(s, step)
    ensures forall i :: !Live(Apply(cfg, s, step), i, id)
  {
    var s' := Apply(cfg, s, step);
    LogGrows(cfg, s, step);
    StepKeepsRows(cfg, s, step);
    NothingRevived(cfg, s, step);
    if |s'.log| > |s.log| {
      DormantNewMessage(cfg, s, step, id);
    }
    forall i: nat ensures !Live(s', i, id) {
      assert !Live(s, i, id);
    }
  }

  lemma DormantStatus(cfg: Config, s: State, step: Step, id: nat)
    requires Dormant(s, id) && Enabled(s, step)
    ensures id in Apply(cfg, s, step).rows
    ensures Processed(Apply(cfg, s, step).rows[id].status) ==> Apply(cfg, s, step).rows[id].status == s.rows[id].status
  {
    match step
    case WorkerStatus(i, _) => assert !Live(s, i, id);
    case _ =>
  }

  lemma {:induction false} DormantForever(cfg: Config, s: State, steps: seq<Step>, s': State, id: nat)
    requires Dormant(s, id) && Reaches(cfg, s, steps, s')
    ensures Dormant(s', id)
    ensures Processed(s'.rows[id].status) ==> s'.rows[id].status == s.rows[id].status
    decreases |steps|
  {
    if steps == [] {
    } else {
      var m := ReachesLast(cfg, s, steps, s');
      var step := steps[|steps| - 1];
      DormantForever(cfg, s, steps[..|steps| - 1], m, id);
      StepKeepsRows(cfg, m, step);
      LettersLetGo(cfg, m, step, id);
      DormantMessages(cfg, m, step, id);
      LostCalls(cfg, m, step, id);
      DormantStatus(cfg, m, step, id);
    }
  }

  /** Delivering a live message. */
  lemma DeliverLive(cfg: Config, s: State, i: nat, id: nat)
    requires Live(s, i, id)
    ensures CanDeliver(cfg, s, id)
  {
    ReachesNone(cfg, s);
    if i in s.busy {
      ReachesStep(cfg, s, [], s, WorkerStatus(i, Delivered));
    } else {
      var steps, s' := DeliverMessage(cfg, s, [], s, i, id);
    }
  }

  /** In every reachable state, some continuation delivers a row if and only if it is delivered,
      or a worker has or can fetch a message for it, or it has a dead letter, or a call of Send
      is about to publish it.  That it is scheduled, or in the scheduler's hands, does not help. */
  lemma DeliverableIff(cfg: Config, steps: seq<Step>, states: seq<State>, k: nat, id: nat)
    requires IsRun(cfg, steps, states) && k <= |steps| && id in states[k].rows
    ensures CanDeliver(cfg, states[k], id)
       <==> states[k].rows[id].status == Delivered || (exists i :: Live(states[k], i, id))
            || Lettered(states[k], id) || (exists p :: Publishing(states[k], p, id))
  {
    var s := states[k];
    EnvelopeInvariant.RunInv(cfg, steps, states, k);
    RunLogged(cfg, steps, states, k);
    ReachesNone(cfg, s);
    if s.rows[id].status == Delivered {
    } else if i :| Live(s, i, id) {
      DeliverLive(cfg, s, i, id);
    } else if Lettered(s, id) {
      var more, m, i := LetterReaches(cfg, s, id);
      var all, s' := DeliverMessage(cfg, s, more, m, i, id);
    } else if p: nat :| Publishing(s, p, id) {
      assert EnvelopeInvariant.CallOk(s.rows, s.sends[p]);
      var all, s' := CarryOn(cfg, s, p, id);
    } else {
      forall more, s' | Reaches(cfg, s, more, s') ensures id in s'.rows ==> s'.rows[id].status != Delivered {
        DormantForever(cfg, s, more, s', id);
      }
    }
  }
}
