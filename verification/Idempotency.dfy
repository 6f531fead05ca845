/** Idempotent sends under concurrency (internal/service/notification.go Send).

    Lookup and insert of a call are separate steps, so two calls with the same key can both
    miss; the database's unique constraint decides between them. */
module Idempotency {
  import opened Collections
  import opened Delivery

  ghost predicate UniqueKeys(rows: Table) {
    forall i, j :: i in rows && j in rows && rows[i].key.Some? && rows[i].key == rows[j].key ==> i == j
  }

  ghost predicate OwnRow(rows: Table, c: SendCall) {
    c.created.Some? ==>
      && c.created.value.id in rows
      && rows[c.created.value.id] == c.created.value.(status := rows[c.created.value.id].status)
      && c.created.value.tenant == c.req.tenant && c.created.value.key == c.req.key
  }

  ghost predicate CallOk(rows: Table, c: SendCall) {
    && OwnRow(rows, c)
    && (c.pc == Lookup || c.pc == Create ==> c.created.None?)
    && (c.pc == Enqueue || c.pc == MarkQueued ==> c.created.Some?)
    && (c.pc.Returned? ==> IsHit(rows, c.req.tenant, c.req.key, c.pc.id))
  }

  /** A record written by a call of Send names the row that call created, after which the
      call is past its publish. */
  ghost predicate RecordOk(s: State, r: Record) {
    r.source.BySend? ==>
      && r.source.p < |s.sends|
      && s.sends[r.source.p].created.Some?
      && r.msg.notificationId == s.sends[r.source.p].created.value.id
      && s.sends[r.source.p].pc != Enqueue
  }

  ghost predicate CreatedBy(s: State, p: nat, id: nat) {
    p < |s.sends| && s.sends[p].created.Some? && s.sends[p].created.value.id == id
  }

  ghost predicate Inv(s: State) {
    && Keyed(s.rows)
    && UniqueKeys(s.rows)
    && (forall p :: 0 <= p < |s.sends| ==> CallOk(s.rows, s.sends[p]))
    && (forall p: nat, q: nat, id: nat {:trigger CreatedBy(s, p, id), CreatedBy(s, q, id)} ::
          CreatedBy(s, p, id) && CreatedBy(s, q, id) ==> p == q)
    && (forall i :: 0 <= i < |s.log| ==> RecordOk(s, s.log[i]))
    && (forall i, j :: 0 <= i < j < |s.log| && s.log[i].source.BySend? ==> s.log[i].source != s.log[j].source)
  }

  // --------------------------------------------------------------- preservation

  lemma CallEvolves(rows: Table, rows': Table, c: SendCall)
    requires CallOk(rows, c) && RowsEvolve(rows, rows')
    ensures CallOk(rows', c)
  {
  }

  lemma StatusKeepsKeys(rows: Table, id: nat, status: Status)
    requires UniqueKeys(rows)
    ensures UniqueKeys(SetStatus(rows, id, status))
  {
  }

  /** Steps that touch neither the calls nor what calls of Send have published. */
  lemma OtherInv(s: State, s': State)
    requires Inv(s) && s'.sends == s.sends && Keyed(s'.rows) && UniqueKeys(s'.rows) && RowsEvolve(s.rows, s'.rows)
    requires s'.log == s.log || (|s'.log| == |s.log| + 1 && s'.log[..|s.log|] == s.log && !s'.log[|s.log|].source.BySend?)
    ensures Inv(s')
  {
    forall p | 0 <= p < |s'.sends| ensures CallOk(s'.rows, s'.sends[p]) {
      CallEvolves(s.rows, s'.rows, s.sends[p]);
    }
    forall p: nat, q: nat, id: nat | CreatedBy(s', p, id) && CreatedBy(s', q, id) ensures p == q {
      assert CreatedBy(s, p, id) && CreatedBy(s, q, id);
    }
    forall i | 0 <= i < |s'.log| ensures RecordOk(s', s'.log[i]) {
      if i < |s.log| {
        assert s'.log[i] == s.log[i] && RecordOk(s, s.log[i]);
      }
    }
    forall i, j | 0 <= i < j < |s'.log| && s'.log[i].source.BySend? ensures s'.log[i].source != s'.log[j].source {
      if j < |s.log| {
        assert s'.log[i] == s.log[i] && s'.log[j] == s.log[j];
      }
    }
  }

  /** Moving one call on, keeping the row it created. */
  lemma MoveInv(s: State, s': State, p: nat)
    requires Inv(s) && p < |s.sends| && Keyed(s'.rows) && UniqueKeys(s'.rows) && RowsEvolve(s.rows, s'.rows)
    requires |s'.sends| == |s.sends| && s'.sends == s.sends[p := s.sends[p].(pc := s'.sends[p].pc)] && s'.log == s.log
    requires CallOk(s'.rows, s'.sends[p]) && s'.sends[p].pc != Enqueue
    ensures Inv(s')
  {
    forall q | 0 <= q < |s'.sends| ensures CallOk(s'.rows, s'.sends[q]) {
      CallEvolves(s.rows, s'.rows, s.sends[q]);
    }
    forall q: nat, r: nat, id: nat | CreatedBy(s', q, id) && CreatedBy(s', r, id) ensures q == r {
      assert CreatedBy(s, q, id) && CreatedBy(s, r, id);
    }
    forall i | 0 <= i < |s'.log| ensures RecordOk(s', s'.log[i]) {
      assert RecordOk(s, s.log[i]);
    }
  }

  lemma BeginInv(cfg: Config, s: State, req: SendRequest)
    requires Inv(s) && Enabled(s, BeginSend(req))
    ensures Inv(Apply(cfg, s, BeginSend(req)))
  {
    var s' := Apply(cfg, s, BeginSend(req));
    forall p: nat, q: nat, id: nat | CreatedBy(s', p, id) && CreatedBy(s', q, id) ensures p == q {
      assert CreatedBy(s, p, id) && CreatedBy(s, q, id);
    }
    forall i | 0 <= i < |s'.log| ensures RecordOk(s', s'.log[i]) {
      assert RecordOk(s, s.log[i]);
    }
  }

  lemma InsertInv(cfg: Config, s: State, p: nat, id: nat, now: int, up: bool)
    requires Inv(s) && Enabled(s, InsertRow(p, id, now, up))
    ensures Inv(Apply(cfg, s, InsertRow(p, id, now, up)))
  {
    var s', req := Apply(cfg, s, InsertRow(p, id, now, up)), s.sends[p].req;
    if !up || KeyTaken(s.rows, req.key) {
      MoveInv(s, s', p);
    } else {
      assert RowsEvolve(s.rows, s'.rows);
      forall q | 0 <= q < |s'.sends| ensures CallOk(s'.rows, s'.sends[q]) {
        if q != p {
          CallEvolves(s.rows, s'.rows, s.sends[q]);
        }
      }
      forall q: nat, r: nat, x: nat | CreatedBy(s', q, x) && CreatedBy(s', r, x) ensures q == r {
        assert q == p || (CreatedBy(s, q, x) && CallOk(s.rows, s.sends[q]));
        assert r == p || (CreatedBy(s, r, x) && CallOk(s.rows, s.sends[r]));
      }
      forall i | 0 <= i < |s'.log| ensures RecordOk(s', s'.log[i]) {
        assert RecordOk(s, s.log[i]) && CallOk(s.rows, s.sends[p]);
      }
    }
  }

  lemma PublishInv(cfg: Config, s: State, p: nat)
    requires Inv(s) && Enabled(s, SendPublish(p, true))
    ensures Inv(Apply(cfg, s, SendPublish(p, true)))
  {
    var s' := Apply(cfg, s, SendPublish(p, true));
    assert CallOk(s.rows, s.sends[p]);
    forall q | 0 <= q < |s'.sends| ensures CallOk(s'.rows, s'.sends[q]) {
      assert CallOk(s.rows, s.sends[q]);
    }
    forall q: nat, r: nat, x: nat | CreatedBy(s', q, x) && CreatedBy(s', r, x) ensures q == r {
      assert CreatedBy(s, q, x) && CreatedBy(s, r, x);
    }
    forall i | 0 <= i < |s'.log| ensures RecordOk(s', s'.log[i]) {
      if i < |s.log| {
        assert s'.log[i] == s.log[i] && RecordOk(s, s.log[i]);
      }
    }
    forall i, j | 0 <= i < j < |s'.log| && s'.log[i].source.BySend? ensures s'.log[i].source != s'.log[j].source {
      assert s'.log[i] == s.log[i] && RecordOk(s, s.log[i]);
      if j < |s.log| {
        assert s'.log[j] == s.log[j];
      }
    }
  }

  lemma LookupMarkInv(cfg: Config, s: State, step: Step)
    requires Inv(s) && Enabled(s, step)
    requires step.LookupKey? || step.SendMark? || (step.SendPublish? && !step.up)
    ensures Inv(Apply(cfg, s, step))
  {
    var s' := Apply(cfg, s, step);
    var call := s.sends[step.p];
    assert CallOk(s.rows, call);
    if step.SendMark? {
      StatusEvolves(s.rows, call.created.value.id, Queued);
      StatusKeepsKeys(s.rows, call.created.value.id, Queued);
    }
    CallEvolves(s.rows, s'.rows, call);
    MoveInv(s, s', step.p);
  }

  lemma StepInv(cfg: Config, s: State, step: Step)
    requires Inv(s) && Enabled(s, step)
    ensures Inv(Apply(cfg, s, step))
  {
    var s' := Apply(cfg, s, step);
    match step
    case BeginSend(req) => BeginInv(cfg, s, req);
    case LookupKey(_, _) => LookupMarkInv(cfg, s, step);
    case InsertRow(p, id, now, up) => InsertInv(cfg, s, p, id, now, up);
    case SendPublish(p, up) =>
      if up { PublishInv(cfg, s, p); } else { LookupMarkInv(cfg, s, step); }
    case SendMark(_, _) => LookupMarkInv(cfg, s, step);
    case SchedMark(id, _) =>
      StatusEvolves(s.rows, id, Queued);
      StatusKeepsKeys(s.rows, id, Queued);
      OtherInv(s, s');
    case WorkerStatus(i, status) =>
      StatusEvolves(s.rows, s.log[i].msg.notificationId, status);
      StatusKeepsKeys(s.rows, s.log[i].msg.notificationId, status);
      OtherInv(s, s');
    case Cancel(_, id) =>
      StatusEvolves(s.rows, id, Dropped);
      StatusKeepsKeys(s.rows, id, Dropped);
      OtherInv(s, s');
    case _ =>
      OtherInv(s, s');
  }

  lemma {:induction false} RunInv(cfg: Config, steps: seq<Step>, states: seq<State>, k: nat)
    requires IsRun(cfg, steps, states) && k <= |steps|
    ensures Inv(states[k])
  {
    if k == 0 {
    } else {
      RunInv(cfg, steps, states, k - 1);
      assert NextAt(cfg, steps, states, k - 1);
      StepInv(cfg, states[k - 1], steps[k - 1]);
    }
  }

  // ------------------------------------------------------------------- theorems

  /** Over every interleaving at most one row carries a given idempotency key, ... */
  lemma AtMostOneRow(cfg: Config, steps: seq<Step>, states: seq<State>, k: nat, i: nat, j: nat)
    requires IsRun(cfg, steps, states) && k <= |steps|
    requires i in states[k].rows && j in states[k].rows
    requires states[k].rows[i].key.Some? && states[k].rows[i].key == states[k].rows[j].key
    ensures i == j
  {
    RunInv(cfg, steps, states, k);
  }

  /** ... the calls of Send publish at most one message for any row, with or without a key, ... */
  lemma AtMostOnePublish(cfg: Config, steps: seq<Step>, states: seq<State>, k: nat, i: nat, j: nat)
    requires IsRun(cfg, steps, states) && k <= |steps|
    requires i < j < |states[k].log|
    requires states[k].log[i].source.BySend? && states[k].log[j].source.BySend?
    ensures states[k].log[i].msg.notificationId != states[k].log[j].msg.notificationId
  {
    RunInv(cfg, steps, states, k);
    var s := states[k];
    var a, b := s.log[i], s.log[j];
    assert RecordOk(s, a) && RecordOk(s, b);
    if a.msg.notificationId == b.msg.notificationId {
      assert CreatedBy(s, a.source.p, a.msg.notificationId) && CreatedBy(s, b.source.p, a.msg.notificationId);
    }
  }

  /** ... and all successful calls with one tenant and key return the same notification. */
  lemma SameKeySameNotification(cfg: Config, steps: seq<Step>, states: seq<State>, k: nat, p: nat, q: nat)
    requires IsRun(cfg, steps, states) && k <= |steps|
    requires p < |states[k].sends| && q < |states[k].sends|
    requires states[k].sends[p].pc.Returned? && states[k].sends[q].pc.Returned?
    requires states[k].sends[p].req.key.Some? && states[k].sends[p].req.key == states[k].sends[q].req.key
    ensures states[k].sends[p].pc.id == states[k].sends[q].pc.id
    ensures states[k].sends[p].req.tenant == states[k].sends[q].req.tenant
  {
    RunInv(cfg, steps, states, k);
    var s := states[k];
    assert CallOk(s.rows, s.sends[p]) && CallOk(s.rows, s.sends[q]);
  }

  /** Duplicate suppression is not per tenant: once a tenant's row holds a key, no call of
      another tenant with that key ever succeeds, at any later point of any run. */
  lemma OtherTenantsBlocked(cfg: Config, steps: seq<Step>, states: seq<State>, k: nat, n: nat, id: nat, p: nat)
    requires IsRun(cfg, steps, states) && k <= n <= |steps|
    requires id in states[k].rows && states[k].rows[id].key.Some?
    requires p < |states[n].sends| && states[n].sends[p].req.key == states[k].rows[id].key
    requires states[n].sends[p].req.tenant != states[k].rows[id].tenant
    ensures !states[n].sends[p].pc.Returned?
  {
    RunInv(cfg, steps, states, n);
    PendingNeverReentered(cfg, steps, states, k, n);
    var s := states[n];
    assert CallOk(s.rows, s.sends[p]);
  }

  // -------------------------------------------------------------------- refusals

  /** A call keeps its request, and once it has returned it stays returned. */
  lemma CallGoesOn(cfg: Config, s: State, step: Step, p: nat)
    requires Enabled(s, step) && p < |s.sends|
    ensures var s' := Apply(cfg, s, step);
            && p < |s'.sends| && s'.sends[p].req == s.sends[p].req
            && (s.sends[p].pc.Returned? ==> s'.sends[p].pc == s.sends[p].pc)
  {
  }

  lemma {:induction false} CallPersists(cfg: Config, steps: seq<Step>, states: seq<State>, j: nat, k: nat, p: nat)
    requires IsRun(cfg, steps, states) && j <= k <= |steps| && p < |states[j].sends|
    ensures p < |states[k].sends| && states[k].sends[p].req == states[j].sends[p].req
    ensures states[j].sends[p].pc.Returned? ==> states[k].sends[p].pc == states[j].sends[p].pc
    decreases k
  {
    if j == k {
    } else {
      CallPersists(cfg, steps, states, j, k - 1, p);
      assert NextAt(cfg, steps, states, k - 1);
      CallGoesOn(cfg, states[k - 1], steps[k - 1], p);
    }
  }

  /** A call with a key comes to its insert by way of a lookup that found nothing. */
  lemma {:induction false} LookedUp(cfg: Config, steps: seq<Step>, states: seq<State>, k: nat, p: nat) returns (j: nat)
    requires IsRun(cfg, steps, states) && k <= |steps| && At(states[k], p, Create) && HasKey(states[k].sends[p].req)
    ensures j < k && steps[j] == LookupKey(p, true)
  {
    if k == 0 {
    } else {
      assert NextAt(cfg, steps, states, k - 1);
      if At(states[k - 1], p, Create) {
        CallGoesOn(cfg, states[k - 1], steps[k - 1], p);
        j := LookedUp(cfg, steps, states, k - 1, p);
      } else {
        j := k - 1;
        CreateFromLookup(cfg, states[j], steps[j], p);
      }
    }
  }

  lemma CreateFromLookup(cfg: Config, s: State, step: Step, p: nat)
    requires Enabled(s, step) && !At(s, p, Create)
    requires At(Apply(cfg, s, step), p, Create) && HasKey(Apply(cfg, s, step).sends[p].req)
    ensures step == LookupKey(p, true)
  {
  }

  /** Row r stands in the way of an insert at k by a call whose lookup was at j: it carries the
      key, and the lookup did not find it, being another tenant's, too late, or not made. */
  ghost predicate Blocks(atLookup: Table, atInsert: Table, req: SendRequest, r: nat) {
    && r in atInsert && req.key.Some? && atInsert[r].key == req.key
    && (!HasKey(req) || atInsert[r].tenant != req.tenant || r !in atLookup)
  }

  /** What the lookup would have found, it found. */
  lemma FoundAtLookup(cfg: Config, steps: seq<Step>, states: seq<State>, j: nat, k: nat, p: nat, r: nat)
    requires IsRun(cfg, steps, states) && j < k <= |steps| && steps[j] == LookupKey(p, true)
    requires p < |states[k].sends| && r in states[k].rows && states[k].rows[r].key == states[k].sends[p].req.key
    requires states[k].rows[r].tenant == states[k].sends[p].req.tenant && r in states[j].rows
    ensures states[k].sends[p].pc.Returned?
  {
    assert NextAt(cfg, steps, states, j);
    PendingNeverReentered(cfg, steps, states, j, k);
    CallPersists(cfg, steps, states, j, k, p);
    assert IsHit(states[j].rows, states[j].sends[p].req.tenant, states[j].sends[p].req.key, r);
    CallPersists(cfg, steps, states, j + 1, k, p);
  }

  /** When a working insert is refused: over every run, if and only if some row carries the key
      that the call's lookup could not find: a row of another tenant, a row of its own tenant
      that was inserted after the lookup, or any row if the key is empty. */
  lemma InsertRefusedIff(cfg: Config, steps: seq<Step>, states: seq<State>, k: nat, p: nat, id: nat, now: int) returns (j: nat)
    requires IsRun(cfg, steps, states) && k < |steps| && steps[k] == InsertRow(p, id, now, true)
    ensures p < |states[k].sends| && p < |states[k + 1].sends| && j <= k
    ensures HasKey(states[k].sends[p].req) ==> j < k && steps[j] == LookupKey(p, true)
    ensures states[k + 1].sends[p].pc == Errored
       <==> exists r :: Blocks(states[j].rows, states[k].rows, states[k].sends[p].req, r)
  {
    assert NextAt(cfg, steps, states, k);
    var s := states[k];
    var req := s.sends[p].req;
    j := k;
    if HasKey(req) {
      j := LookedUp(cfg, steps, states, k, p);
    }
    if KeyTaken(s.rows, req.key) {
      var r :| r in s.rows && s.rows[r].key == req.key;
      if HasKey(req) && s.rows[r].tenant == req.tenant && r in states[j].rows {
        FoundAtLookup(cfg, steps, states, j, k, p, r);
      }
      assert Blocks(states[j].rows, s.rows, req, r);
    }
  }

  /** None of the external calls made for call p, up to n, failed. */
  ghost predicate NothingFailed(steps: seq<Step>, n: nat, p: nat) {
    forall i :: 0 <= i < n && i < |steps| ==>
      && steps[i] != LookupKey(p, false) && steps[i] != SendPublish(p, false) && steps[i] != SendMark(p, false)
      && !(steps[i].InsertRow? && steps[i].p == p && !steps[i].up)
  }

  /** When nothing fails, a call that errs was refused at its insert. */
  lemma {:induction false} OnlyInsertRefuses(cfg: Config, steps: seq<Step>, states: seq<State>, n: nat, p: nat) returns (k: nat)
    requires IsRun(cfg, steps, states) && n <= |steps| && At(states[n], p, Errored) && NothingFailed(steps, n, p)
    ensures k < n && steps[k].InsertRow? && steps[k].p == p && steps[k].up && At(states[k + 1], p, Errored)
  {
    if n == 0 {
    } else {
      assert NextAt(cfg, steps, states, n - 1);
      if At(states[n - 1], p, Errored) {
        k := OnlyInsertRefuses(cfg, steps, states, n - 1, p);
      } else {
        k := n - 1;
        RunInv(cfg, steps, states, k);
        ErroredAtInsert(cfg, states[k], steps[k], p);
      }
    }
  }

  lemma ErroredAtInsert(cfg: Config, s: State, step: Step, p: nat)
    requires Enabled(s, step) && Inv(s) && !At(s, p, Errored) && At(Apply(cfg, s, step), p, Errored)
    requires step != LookupKey(p, false) && step != SendPublish(p, false) && step != SendMark(p, false)
    requires !(step.InsertRow? && step.p == p && !step.up)
    ensures step.InsertRow? && step.p == p
  {
    assert step.SendMark? ==> CallOk(s.rows, s.sends[step.p]);
  }

  /** Two calls of one tenant with one key, both looking up before either inserts: nothing
      fails, no other tenant is there, and the second is refused. */
  lemma RaceRefused(cfg: Config, key: string) returns (steps: seq<Step>, states: seq<State>)
    requires key != ""
    ensures IsRun(cfg, steps, states) && |steps| == 6 && NothingFailed(steps, 6, 1)
    ensures |states[6].sends| == 2 && states[6].sends[0].req == states[6].sends[1].req
    ensures states[6].sends[1].req.key == Some(key) && states[6].sends[1].pc == Errored
  {
    var req := SendRequest(1, Some(key), "alert", Email, "u", "u@example.org", None, map[], 5, None);
    var s2 := RaceBegins(cfg, req);
    var s4 := RaceLookups(cfg, req, s2);
    var s6 := RaceInserts(cfg, req, s4);
    var begins, lookups := [BeginSend(req), BeginSend(req)], [LookupKey(0, true), LookupKey(1, true)];
    var inserts := [InsertRow(0, 1, 0, true), InsertRow(1, 2, 0, true)];
    ReachesOn(cfg, EMPTY, begins, s2, lookups, s4);
    ReachesOn(cfg, EMPTY, begins + lookups, s4, inserts, s6);
    steps := begins + lookups + inserts;
    assert Path(cfg, [], [EMPTY]);
    states := RunGoesOn(cfg, [], [EMPTY], steps, s6);
    assert [] + steps == steps;
  }

  lemma ReachesTwo(cfg: Config, s: State, a: Step, m: State, b: Step, s': State)
    requires Enabled(s, a) && Apply(cfg, s, a) == m && Enabled(m, b) && Apply(cfg, m, b) == s'
    ensures Reaches(cfg, s, [a, b], s')
  {
    ReachesFirst(cfg, s, a);
    ReachesStep(cfg, s, [a], m, b);
    assert [a] + [b] == [a, b];
  }

  lemma RaceBegins(cfg: Config, req: SendRequest) returns (s2: State)
    requires req.tenant != NO_TENANT && HasKey(req)
    ensures Reaches(cfg, EMPTY, [BeginSend(req), BeginSend(req)], s2)
    ensures s2 == EMPTY.(sends := [SendCall(req, Lookup, None), SendCall(req, Lookup, None)])
  {
    var one := SendCall(req, Lookup, None);
    assert [] + [one] == [one] && [one] + [one] == [one, one];
    s2 := EMPTY.(sends := [one, one]);
    ReachesTwo(cfg, EMPTY, BeginSend(req), EMPTY.(sends := [one]), BeginSend(req), s2);
  }

  lemma RaceLookups(cfg: Config, req: SendRequest, s2: State) returns (s4: State)
    requires s2 == EMPTY.(sends := [SendCall(req, Lookup, None), SendCall(req, Lookup, None)])
    ensures Reaches(cfg, s2, [LookupKey(0, true), LookupKey(1, true)], s4)
    ensures s4 == EMPTY.(sends := [SendCall(req, Create, None), SendCall(req, Create, None)])
  {
    var one, two := SendCall(req, Lookup, None), SendCall(req, Create, None);
    assert [one, one][0 := two] == [two, one] && [two, one][1 := two] == [two, two];
    s4 := EMPTY.(sends := [two, two]);
    ReachesTwo(cfg, s2, LookupKey(0, true), EMPTY.(sends := [two, one]), LookupKey(1, true), s4);
  }

  lemma RaceInserts(cfg: Config, req: SendRequest, s4: State) returns (s6: State)
    requires req.key.Some? && req.scheduledAt.None?
    requires s4 == EMPTY.(sends := [SendCall(req, Create, None), SendCall(req, Create, None)])
    ensures Reaches(cfg, s4, [InsertRow(0, 1, 0, true), InsertRow(1, 2, 0, true)], s6)
    ensures |s6.sends| == 2 && s6.sends[0].req == s6.sends[1].req == req && s6.sends[1].pc == Errored
  {
    var two, n := SendCall(req, Create, None), NewRow(1, req);
    var done := SendCall(req, Enqueue, Some(n));
    assert [two, two][0 := done] == [done, two] && [done, two][1 := two.(pc := Errored)] == [done, two.(pc := Errored)];
    assert map[][1 := n] == map[1 := n];
    var s5 := EMPTY.(sends := [done, two], rows := map[1 := n]);
    assert s5.rows[1].key == req.key && KeyTaken(s5.rows, req.key);
    s6 := s5.(sends := [done, two.(pc := Errored)]);
    ReachesTwo(cfg, s4, InsertRow(0, 1, 0, true), s5, InsertRow(1, 2, 0, true), s6);
  }
}
