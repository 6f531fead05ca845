/** What becomes of a notification whose publish failed (internal/service/notification.go Send).

    Such a row stays pending and is meant to be picked up by the scheduler.  The scheduler's
    query only lists rows that have a schedule, so the row can be published again exactly when
    it has one; otherwise no component ever publishes it, however the run goes on. */
module Rescue {
  import opened Collections
  import opened OrderedQuery
  import opened Delivery
  import Scheduler
  import Idempotency
  import EnvelopeInvariant

  /** Nothing the replay path could use: only scheduler messages, which no worker can fetch. */
  ghost predicate Unheard(s: State, id: nat) {
    && (forall i :: 0 <= i < |s.log| && s.log[i].msg.notificationId == id ==> s.log[i].msg.tenant == NO_TENANT)
    && (forall i :: 0 <= i < |s.dlq| ==> s.dlq[i].original.notificationId != id)
    && (forall d :: d in s.dead ==> s.dead[d].record.original.notificationId != id)
  }

  /** A call of Send is about to publish the row. */
  ghost predicate Publishing(s: State, p: nat, id: nat) {
    p < |s.sends| && s.sends[p].pc == Enqueue && s.sends[p].created.Some? && s.sends[p].created.value.id == id
  }

  /** The scheduler already holds the row, or its query will list it. */
  ghost predicate Rescuable(s: State, id: nat)
    requires id in s.rows
  {
    Scheduler.InBatch(s, id) || (s.rows[id].status == Pending && s.rows[id].scheduledAt.Some?)
  }

  ghost predicate PublishedSince(s: State, s': State, id: nat) {
    exists i :: |s.log| <= i < |s'.log| && s'.log[i].msg.notificationId == id
  }

  /** Some way the system can go on publishes the row. */
  ghost predicate CanPublish(cfg: Config, s: State, id: nat) {
    exists steps, s' :: Reaches(cfg, s, steps, s') && PublishedSince(s, s', id)
  }

  // ------------------------------------------------------- a lost row stays lost

  ghost predicate Lost(s: State, id: nat) {
    && Keyed(s.rows)
    && id in s.rows && s.rows[id].tenant != NO_TENANT
    && !Rescuable(s, id)
    && Unheard(s, id)
    && (forall p :: !Publishing(s, p, id))
  }

  lemma LostStep(cfg: Config, s: State, step: Step, id: nat)
    requires Lost(s, id) && Enabled(s, step)
    ensures Lost(Apply(cfg, s, step), id)
    ensures !PublishedSince(s, Apply(cfg, s, step), id)
  {
    StepKeepsRows(cfg, s, step);
    LostBatch(cfg, s, step, id);
    LostCalls(cfg, s, step, id);
    NotPublished(cfg, s, step, id);
    UnheardStep(cfg, s, step, id);
  }

  /** Calls that begin later create rows of their own. */
  lemma LostCalls(cfg: Config, s: State, step: Step, id: nat)
    requires id in s.rows && (forall p :: !Publishing(s, p, id)) && Enabled(s, step)
    ensures forall p :: !Publishing(Apply(cfg, s, step), p, id)
  {
    forall p ensures !Publishing(Apply(cfg, s, step), p, id) {
      assert !Publishing(s, p, id);
    }
  }

  lemma LostBatch(cfg: Config, s: State, step: Step, id: nat)
    requires Lost(s, id) && Enabled(s, step)
    ensures !Scheduler.InBatch(Apply(cfg, s, step), id)
  {
    var s' := Apply(cfg, s, step);
    forall i | 0 <= i < |s'.sched.todo| ensures s'.sched.todo[i].id != id {
      match step
      case SchedList(now, _, due) => assert due[i] in Due(s.rows, now);
      case SchedPublish(_, _) => assert s'.sched.todo[i] == s.sched.todo[i + 1];
      case _ => assert s'.sched == s.sched || step.SchedMark?;
    }
  }

  lemma NotPublished(cfg: Config, s: State, step: Step, id: nat)
    requires Unheard(s, id) && !Scheduler.InBatch(s, id) && (forall p :: !Publishing(s, p, id)) && Enabled(s, step)
    ensures !PublishedSince(s, Apply(cfg, s, step), id)
  {
    match step
    case SendPublish(p, _) => assert !Publishing(s, p, id);
    case SchedPublish(_, _) => assert !Scheduler.InBatch(s, id);
    case _ =>
  }

  /** Only the call of Send that owns the row can break its silence. */
  lemma UnheardStep(cfg: Config, s: State, step: Step, id: nat)
    requires Enabled(s, step) && Unheard(s, id) && id in s.rows && s.rows[id].tenant != NO_TENANT
    requires step.SendPublish? ==> !Publishing(s, step.p, id)
    ensures Unheard(Apply(cfg, s, step), id)
  {
    var s' := Apply(cfg, s, step);
    LogGrows(cfg, s, step);
    match step
    case SendPublish(_, _) => SameLetters(s, s', id);
    case SchedPublish(_, _) => SameLetters(s, s', id);
    case WorkerDeadLetter(i, _) => assert s.log[i].msg.notificationId != id;
    case Persist(i, _) => assert s.dlq[i].original.notificationId != id;
    case Replay(d, _) => SameLetters(s, s', id);
    case MarkReplayed(d) => assert s.dead[d].record.original.notificationId != id;
    case Discard(_) =>
    case _ => SameLetters(s, s', id);
  }

  lemma SameLetters(s: State, s': State, id: nat)
    requires Unheard(s, id) && s'.dlq == s.dlq && s'.dead == s.dead
    requires |s.log| <= |s'.log| <= |s.log| + 1 && forall i :: 0 <= i < |s.log| ==> s'.log[i] == s.log[i]
    requires |s'.log| > |s.log| && s'.log[|s.log|].msg.notificationId == id ==> s'.log[|s.log|].msg.tenant == NO_TENANT
    ensures Unheard(s', id)
  {
  }

  lemma {:induction false} LostForever(cfg: Config, s: State, steps: seq<Step>, s': State, id: nat)
    requires Lost(s, id) && Reaches(cfg, s, steps, s')
    ensures Lost(s', id) && |s.log| <= |s'.log| && !PublishedSince(s, s', id)
    decreases |steps|
  {
    if steps == [] {
    } else {
      var n := |steps| - 1;
      var m := ReachesLast(cfg, s, steps, s');
      LostForever(cfg, s, steps[..n], m, id);
      LostStep(cfg, m, steps[n], id);
      LogGrows(cfg, m, steps[n]);
    }
  }

  lemma LogGrows(cfg: Config, s: State, step: Step)
    requires Enabled(s, step)
    ensures |s.log| <= |Apply(cfg, s, step).log|
    ensures forall i :: 0 <= i < |s.log| ==> Apply(cfg, s, step).log[i] == s.log[i]
  {
  }

  // ---------------------------------------------- no message precedes Send's own

  /** Before a call of Send has published its row, only the scheduler can have done so. */
  ghost predicate NothingSent(s: State) {
    forall p, id {:trigger Publishing(s, p, id)} :: Publishing(s, p, id) ==> Unheard(s, id)
  }

  /** A call comes to its publish by inserting the row, and leaves it by publishing. */
  lemma WasPublishing(cfg: Config, s: State, step: Step, p: nat, id: nat)
    requires Enabled(s, step) && Publishing(Apply(cfg, s, step), p, id) && !(step.InsertRow? && step.p == p)
    ensures Publishing(s, p, id) && !(step.SendPublish? && step.p == p)
  {
  }

  lemma NothingSentStep(cfg: Config, s: State, step: Step)
    requires Enabled(s, step) && NothingSent(s) && EnvelopeInvariant.Inv(s) && Idempotency.Inv(s)
    ensures NothingSent(Apply(cfg, s, step))
  {
    var s' := Apply(cfg, s, step);
    forall p, id | Publishing(s', p, id) ensures Unheard(s', id) {
      if step.InsertRow? && step.p == p {
        Unmentioned(s, id);
      } else {
        WasPublishing(cfg, s, step, p, id);
        OneOwner(s, p, id);
        UnheardStep(cfg, s, step, id);
      }
    }
  }

  /** Messages and dead letters only name stored rows. */
  lemma Unmentioned(s: State, id: nat)
    requires EnvelopeInvariant.Inv(s) && id !in s.rows
    ensures Unheard(s, id)
  {
    forall i | 0 <= i < |s.log| ensures s.log[i].msg.notificationId != id {
      assert EnvelopeInvariant.RecordOk(s.rows, s.log[i]);
    }
    forall i | 0 <= i < |s.dlq| ensures s.dlq[i].original.notificationId != id {
      assert EnvelopeInvariant.DlqOk(s.rows, s.dlq[i]);
    }
    forall d | d in s.dead ensures s.dead[d].record.original.notificationId != id {
      assert EnvelopeInvariant.DeadOk(s.rows, s.dead[d]);
    }
  }

  /** The row is stored, and no other call publishes it. */
  lemma OneOwner(s: State, p: nat, id: nat)
    requires EnvelopeInvariant.Inv(s) && Idempotency.Inv(s) && Publishing(s, p, id)
    ensures id in s.rows && s.rows[id].tenant != NO_TENANT
    ensures forall q :: Publishing(s, q, id) ==> q == p
  {
    assert EnvelopeInvariant.CallOk(s.rows, s.sends[p]);
    forall q | Publishing(s, q, id) ensures q == p {
      assert Idempotency.CreatedBy(s, p, id) && Idempotency.CreatedBy(s, q, id);
    }
  }

  lemma {:induction false} RunNothingSent(cfg: Config, steps: seq<Step>, states: seq<State>, k: nat)
    requires IsRun(cfg, steps, states) && k <= |steps|
    ensures NothingSent(states[k]) && EnvelopeInvariant.Inv(states[k]) && Idempotency.Inv(states[k])
  {
    EnvelopeInvariant.RunInv(cfg, steps, states, k);
    Idempotency.RunInv(cfg, steps, states, k);
    if k == 0 {
    } else {
      RunNothingSent(cfg, steps, states, k - 1);
      assert NextAt(cfg, steps, states, k - 1);
      NothingSentStep(cfg, states[k - 1], steps[k - 1]);
    }
  }

  // -------------------------------------------------- a rescuable row is rescued

  /** The scheduler finishes the current row, its update failing. */
  lemma Unmark(cfg: Config, s: State) returns (steps: seq<Step>)
    ensures Reaches(cfg, s, steps, s.(sched := Sched(s.sched.todo, None)))
  {
    if s.sched.marking.Some? {
      var step := SchedMark(s.sched.marking.value.id, false);
      ReachesFirst(cfg, s, step);
      steps := [step];
    } else {
      ReachesNone(cfg, s);
      steps := [];
    }
  }

  /** The scheduler passes over i rows of its batch, their publishes failing. */
  lemma {:induction false} PassOver(cfg: Config, s: State, i: nat) returns (steps: seq<Step>)
    requires i <= |s.sched.todo|
    ensures Reaches(cfg, s, steps, s.(sched := Sched(s.sched.todo[i..], None)))
  {
    if i == 0 {
      steps := Unmark(cfg, s);
    } else {
      steps := PassOver(cfg, s, i - 1);
      var m := s.(sched := Sched(s.sched.todo[i - 1..], None));
      var step := SchedPublish(m.sched.todo[0].id, false);
      ReachesStep(cfg, s, steps, m, step);
      steps := steps + [step];
    }
  }

  lemma RescueListed(cfg: Config, s: State, id: nat)
    requires Scheduler.InBatch(s, id)
    ensures CanPublish(cfg, s, id)
  {
    var i :| 0 <= i < |s.sched.todo| && s.sched.todo[i].id == id;
    var steps := PassOver(cfg, s, i);
    var m := s.(sched := Sched(s.sched.todo[i..], None));
    ReachesStep(cfg, s, steps, m, SchedPublish(id, true));
    var s' := Apply(cfg, m, SchedPublish(id, true));
    assert SchedulerEnvelope(cfg, m.sched.todo[0]).notificationId == id;
    assert s'.log[|s.log|].msg.notificationId == id;
    assert PublishedSince(s, s', id);
  }

  /** The scheduler drops its batch and lists the row in the next one. */
  lemma ListRow(cfg: Config, s: State, id: nat) returns (steps: seq<Step>, listed: State)
    requires id in s.rows && s.rows[id].status == Pending && s.rows[id].scheduledAt.Some? && s.rows[id].id == id
    ensures Reaches(cfg, s, steps, listed) && listed.log == s.log && Scheduler.InBatch(listed, id)
  {
    var now := s.rows[id].scheduledAt.value;
    var due := Listing(Due(s.rows, now), MoreUrgent);
    steps := PassOver(cfg, s, |s.sched.todo|);
    var idle := s.(sched := Sched([], None));
    assert s.sched.todo[|s.sched.todo|..] == [];
    var list := SchedList(now, |Due(s.rows, now)|, due);
    ReachesStep(cfg, s, steps, idle, list);
    steps, listed := steps + [list], Apply(cfg, idle, list);
    assert s.rows[id] in Due(s.rows, now);
    var i :| 0 <= i < |due| && due[i] == s.rows[id];
    assert listed.sched.todo[i].id == id;
  }

  lemma RescueDue(cfg: Config, s: State, id: nat)
    requires id in s.rows && s.rows[id].status == Pending && s.rows[id].scheduledAt.Some? && s.rows[id].id == id
    ensures CanPublish(cfg, s, id)
  {
    var steps, listed := ListRow(cfg, s, id);
    RescueListed(cfg, listed, id);
    var more, s' :| Reaches(cfg, listed, more, s') && PublishedSince(listed, s', id);
    ReachesOn(cfg, s, steps, listed, more, s');
    assert PublishedSince(s, s', id);
  }

  /** When the publish of a call of Send fails, the row can still be published, by whatever
      continuation, if and only if the scheduler holds it or it is pending with a schedule. */
  lemma RescueIff(cfg: Config, steps: seq<Step>, states: seq<State>, k: nat, p: nat)
    requires IsRun(cfg, steps, states) && k < |steps| && steps[k] == SendPublish(p, false)
    ensures p < |states[k].sends| && states[k].sends[p].created.Some?
    ensures states[k].sends[p].created.value.id in states[k + 1].rows
    ensures var id := states[k].sends[p].created.value.id;
            CanPublish(cfg, states[k + 1], id) <==> Rescuable(states[k + 1], id)
  {
    assert NextAt(cfg, steps, states, k);
    RunNothingSent(cfg, steps, states, k);
    var s, s' := states[k], states[k + 1];
    var id := s.sends[p].created.value.id;
    assert EnvelopeInvariant.CallOk(s.rows, s.sends[p]);
    if Scheduler.InBatch(s', id) {
      RescueListed(cfg, s', id);
    } else if Rescuable(s', id) {
      RescueDue(cfg, s', id);
    } else {
      assert Publishing(s, p, id);
      forall q ensures !Publishing(s', q, id) {
        if Publishing(s', q, id) {
          assert Idempotency.CreatedBy(s, p, id) && Idempotency.CreatedBy(s, q, id);
        }
      }
      forall more, t | Reaches(cfg, s', more, t) ensures !PublishedSince(s', t, id) {
        LostForever(cfg, s', more, t, id);
      }
    }
  }

  /** An immediate send whose publish failed is never published by anyone afterwards. */
  lemma ImmediateIsLost(cfg: Config, steps: seq<Step>, states: seq<State>, k: nat, p: nat)
    requires IsRun(cfg, steps, states) && k < |steps| && steps[k] == SendPublish(p, false)
    ensures p < |states[k].sends| && states[k].sends[p].created.Some?
    ensures var n := states[k].sends[p].created.value;
            n.scheduledAt.None? ==> !CanPublish(cfg, states[k + 1], n.id)
  {
    RescueIff(cfg, steps, states, k, p);
    assert NextAt(cfg, steps, states, k);
    EnvelopeInvariant.RunInv(cfg, steps, states, k + 1);
    var s, n := states[k + 1], states[k].sends[p].created.value;
    assert EnvelopeInvariant.CallOk(s.rows, s.sends[p]);
    if Scheduler.InBatch(s, n.id) {
      RunScheduled(cfg, steps, states, k + 1);
      var i :| 0 <= i < |s.sched.todo| && s.sched.todo[i].id == n.id;
      assert EnvelopeInvariant.CopyOf(s.rows, s.sched.todo[i]);
    }
  }

  /** The scheduler only ever holds rows with a schedule. */
  lemma {:induction false} RunScheduled(cfg: Config, steps: seq<Step>, states: seq<State>, k: nat)
    requires IsRun(cfg, steps, states) && k <= |steps|
    ensures forall i :: 0 <= i < |states[k].sched.todo| ==> states[k].sched.todo[i].scheduledAt.Some?
  {
    if k == 0 {
    } else {
      RunScheduled(cfg, steps, states, k - 1);
      assert NextAt(cfg, steps, states, k - 1);
      var s, step := states[k - 1], steps[k - 1];
      if step.SchedList? {
        forall i | 0 <= i < |step.due| ensures step.due[i].scheduledAt.Some? {
          assert step.due[i] in Due(s.rows, step.now);
        }
      }
    }
  }
}
