/** The scheduler (internal/service/scheduler.go): safety of its publishes over any run of the
    whole system, the tick itself, and how a backlog drains. */
module Scheduler {
  import opened Collections
  import opened OrderedQuery
  import opened Delivery

  // ------------------------------------------------- publishes against failed marks

  /** Successful publishes of a row by the scheduler, and its failed status updates. */
  ghost function Publishes(steps: seq<Step>, id: nat): nat {
    multiset(steps)[SchedPublish(id, true)]
  }

  ghost function FailedMarks(steps: seq<Step>, id: nat): nat {
    multiset(steps)[SchedMark(id, false)]
  }

  ghost predicate InBatch(s: State, id: nat) {
    exists i :: 0 <= i < |s.sched.todo| && s.sched.todo[i].id == id
  }

  ghost predicate Marking(s: State, id: nat) {
    s.sched.marking.Some? && s.sched.marking.value.id == id
  }

  /** A row that may still be listed, or is in the batch, has no publish unaccounted for;
      every other row has at most one. */
  ghost predicate Budget(s: State, past: seq<Step>, id: nat) {
    && Publishes(past, id) <= FailedMarks(past, id) + 1
    && (!Marking(s, id) && (id !in s.rows || s.rows[id].status == Pending || InBatch(s, id)) ==>
          Publishes(past, id) <= FailedMarks(past, id))
  }

  ghost predicate BatchOk(s: State) {
    && (forall i :: 0 <= i < |s.sched.todo| ==> s.sched.todo[i].id in s.rows)
    && (forall i, j :: 0 <= i < j < |s.sched.todo| ==> s.sched.todo[i].id != s.sched.todo[j].id)
    && (s.sched.marking.Some? ==> s.sched.marking.value.id in s.rows && !InBatch(s, s.sched.marking.value.id))
  }

  ghost predicate Inv(s: State, past: seq<Step>) {
    && Keyed(s.rows)
    && BatchOk(s)
    && (forall id :: Budget(s, past, id))
    && (s.sched.marking.Some? ==> SchedPublish(s.sched.marking.value.id, true) in past)
  }

  lemma CountsAppend(past: seq<Step>, step: Step, id: nat)
    ensures Publishes(past + [step], id) == Publishes(past, id) + (if step == SchedPublish(id, true) then 1 else 0)
    ensures FailedMarks(past + [step], id) == FailedMarks(past, id) + (if step == SchedMark(id, false) then 1 else 0)
  {
  }

  /** Steps of the other components keep the batch and never make a row pending again. */
  lemma OtherInv(cfg: Config, s: State, past: seq<Step>, step: Step)
    requires Inv(s, past) && Enabled(s, step)
    requires !step.SchedList? && !step.SchedPublish? && !step.SchedMark?
    ensures Inv(Apply(cfg, s, step), past + [step])
  {
    var s' := Apply(cfg, s, step);
    assert s'.sched == s.sched;
    StepKeepsRows(cfg, s, step);
    forall id ensures Budget(s', past + [step], id) {
      assert Budget(s, past, id);
      CountsAppend(past, step, id);
      assert InBatch(s', id) <==> InBatch(s, id);
    }
  }

  lemma ListInv(cfg: Config, s: State, past: seq<Step>, step: Step)
    requires Inv(s, past) && Enabled(s, step) && step.SchedList?
    ensures Inv(Apply(cfg, s, step), past + [step])
  {
    var s', due := Apply(cfg, s, step), step.due;
    forall i | 0 <= i < |due| ensures due[i].id in s.rows && s.rows[due[i].id] == due[i] && due[i].status == Pending {
      assert due[i] in Due(s.rows, step.now);
    }
    forall id ensures Budget(s', past + [step], id) {
      assert Budget(s, past, id);
      CountsAppend(past, step, id);
    }
  }

  lemma PublishInv(cfg: Config, s: State, past: seq<Step>, id: nat, up: bool)
    requires Inv(s, past) && Enabled(s, SchedPublish(id, up))
    ensures Inv(Apply(cfg, s, SchedPublish(id, up)), past + [SchedPublish(id, up)])
  {
    var s', step := Apply(cfg, s, SchedPublish(id, up)), SchedPublish(id, up);
    var todo := s.sched.todo;
    assert forall i :: 0 <= i < |s'.sched.todo| ==> s'.sched.todo[i] == todo[i + 1];
    assert InBatch(s, id) by { assert todo[0].id == id; }
    forall x ensures Budget(s', past + [step], x) {
      assert Budget(s, past, x);
      CountsAppend(past, step, x);
      if InBatch(s', x) {
        var i :| 0 <= i < |s'.sched.todo| && s'.sched.todo[i].id == x;
        assert todo[i + 1].id == x;
      }
    }
    assert step in past + [step];
  }

  lemma MarkInv(cfg: Config, s: State, past: seq<Step>, id: nat, up: bool)
    requires Inv(s, past) && Enabled(s, SchedMark(id, up))
    ensures Inv(Apply(cfg, s, SchedMark(id, up)), past + [SchedMark(id, up)])
  {
    var s', step := Apply(cfg, s, SchedMark(id, up)), SchedMark(id, up);
    StepKeepsRows(cfg, s, step);
    forall x ensures Budget(s', past + [step], x) {
      assert Budget(s, past, x);
      CountsAppend(past, step, x);
      assert InBatch(s', x) <==> InBatch(s, x);
    }
  }

  lemma {:induction false} RunInv(cfg: Config, steps: seq<Step>, states: seq<State>, k: nat)
    requires IsRun(cfg, steps, states) && k <= |steps|
    ensures Inv(states[k], steps[..k])
  {
    if k == 0 {
    } else {
      RunInv(cfg, steps, states, k - 1);
      assert NextAt(cfg, steps, states, k - 1);
      var s, step, past := states[k - 1], steps[k - 1], steps[..k - 1];
      assert steps[..k] == past + [step];
      match step
      case SchedList(_, _, _) => ListInv(cfg, s, past, step);
      case SchedPublish(id, up) => PublishInv(cfg, s, past, id, up);
      case SchedMark(id, up) => MarkInv(cfg, s, past, id, up);
      case _ => OtherInv(cfg, s, past, step);
    }
  }

  /** Over any run, under any interference, the scheduler publishes a row at most once more
      often than its status update for that row failed. */
  lemma PublishesBounded(cfg: Config, steps: seq<Step>, states: seq<State>, id: nat)
    requires IsRun(cfg, steps, states)
    ensures Publishes(steps, id) <= 1 + FailedMarks(steps, id)
  {
    RunInv(cfg, steps, states, |steps|);
    assert steps[..|steps|] == steps;
    assert Budget(states[|steps|], steps, id);
  }

  /** A row the scheduler marks queued was published by it first. */
  lemma PublishedBeforeMarked(cfg: Config, steps: seq<Step>, states: seq<State>, k: nat, id: nat, up: bool)
    requires IsRun(cfg, steps, states) && k < |steps| && steps[k] == SchedMark(id, up)
    ensures SchedPublish(id, true) in steps[..k]
  {
    RunInv(cfg, steps, states, k);
    assert NextAt(cfg, steps, states, k);
  }

  // -------------------------------------------------------------------- the tick

  /** The records published for the first n rows of a batch. */
  function Enqueued(cfg: Config, due: seq<Notification>, up: nat -> bool): seq<Record> {
    if due == [] then []
    else
      var n := |due| - 1;
      Enqueued(cfg, due[..n], up) + RowRecord(cfg, due[n], up(n))
  }

  function RowRecord(cfg: Config, n: Notification, up: bool): seq<Record> {
    if up then [Record(n.channel, n.recipient, SchedulerEnvelope(cfg, n), ByScheduler)] else []
  }

  /** The rows after the batch: queued where both the publish and the update went through. */
  function Marked(rows: Table, due: seq<Notification>, pubUp: nat -> bool, updUp: nat -> bool): Table {
    if due == [] then rows
    else
      var n := |due| - 1;
      var before := Marked(rows, due[..n], pubUp, updUp);
      if pubUp(n) && updUp(n) then SetStatus(before, due[n].id, Queued) else before
  }

  /** The steps of one loop iteration, and where they lead. */
  function RowSteps(id: nat, pubUp: bool, updUp: bool): seq<Step> {
    if pubUp then [SchedPublish(id, true), SchedMark(id, updUp)] else [SchedPublish(id, false)]
  }

  function AfterRow(cfg: Config, s: State, n: Notification, pubUp: bool, updUp: bool): State {
    s.(sched := Sched(if s.sched.todo == [] then [] else s.sched.todo[1..], None),
       log := s.log + RowRecord(cfg, n, pubUp),
       rows := if pubUp && updUp then SetStatus(s.rows, n.id, Queued) else s.rows)
  }

  lemma RowReaches(cfg: Config, start: State, steps: seq<Step>, s: State, n: Notification, pubUp: bool, updUp: bool)
    requires Reaches(cfg, start, steps, s)
    requires s.sched.marking.None? && s.sched.todo != [] && s.sched.todo[0] == n
    ensures Reaches(cfg, start, steps + RowSteps(n.id, pubUp, updUp), AfterRow(cfg, s, n, pubUp, updUp))
  {
    ReachesStep(cfg, start, steps, s, SchedPublish(n.id, pubUp));
    if pubUp {
      var m := Apply(cfg, s, SchedPublish(n.id, true));
      ReachesStep(cfg, start, steps + [SchedPublish(n.id, true)], m, SchedMark(n.id, updUp));
      assert steps + [SchedPublish(n.id, true)] + [SchedMark(n.id, updUp)] == steps + RowSteps(n.id, true, updUp);
      assert Apply(cfg, m, SchedMark(n.id, updUp)) == AfterRow(cfg, s, n, true, updUp);
    } else {
      assert Apply(cfg, s, SchedPublish(n.id, false)) == AfterRow(cfg, s, n, false, updUp);
    }
  }

  function BatchSteps(due: seq<Notification>, pubUp: nat -> bool, updUp: nat -> bool): seq<Step> {
    if due == [] then []
    else
      var n := |due| - 1;
      BatchSteps(due[..n], pubUp, updUp) + RowSteps(due[n].id, pubUp(n), updUp(n))
  }

  /** The machine's state when the first k rows of the batch have been worked off. */
  function AfterRows(cfg: Config, s: State, due: seq<Notification>, k: nat, pubUp: nat -> bool, updUp: nat -> bool): State
    requires k <= |due|
  {
    s.(sched := Sched(due[k..], None), log := s.log + Enqueued(cfg, due[..k], pubUp),
       rows := Marked(s.rows, due[..k], pubUp, updUp))
  }

  lemma AfterNextRow(cfg: Config, s: State, due: seq<Notification>, j: nat, pubUp: nat -> bool, updUp: nat -> bool)
    requires j < |due|
    ensures AfterRow(cfg, AfterRows(cfg, s, due, j, pubUp, updUp), due[j], pubUp(j), updUp(j))
         == AfterRows(cfg, s, due, j + 1, pubUp, updUp)
  {
    assert due[..j + 1][..j] == due[..j] && due[j..][1..] == due[j + 1..];
  }

  lemma StepsOfNextRow(listed: seq<Step>, due: seq<Notification>, j: nat, pubUp: nat -> bool, updUp: nat -> bool)
    requires j < |due|
    ensures listed + BatchSteps(due[..j], pubUp, updUp) + RowSteps(due[j].id, pubUp(j), updUp(j))
         == listed + BatchSteps(due[..j + 1], pubUp, updUp)
  {
    assert due[..j + 1][..j] == due[..j];
  }

  lemma {:induction false} BatchReaches(cfg: Config, start: State, listed: seq<Step>, s: State,
                                        due: seq<Notification>, k: nat, pubUp: nat -> bool, updUp: nat -> bool)
    requires Reaches(cfg, start, listed, s) && s.sched == Sched(due, None) && k <= |due|
    ensures Reaches(cfg, start, listed + BatchSteps(due[..k], pubUp, updUp), AfterRows(cfg, s, due, k, pubUp, updUp))
  {
    if k == 0 {
      assert listed + [] == listed;
      assert AfterRows(cfg, s, due, 0, pubUp, updUp) == s by {
        assert s.log + [] == s.log && due[0..] == due;
      }
    } else {
      var j := k - 1;
      BatchReaches(cfg, start, listed, s, due, j, pubUp, updUp);
      RowReaches(cfg, start, listed + BatchSteps(due[..j], pubUp, updUp), AfterRows(cfg, s, due, j, pubUp, updUp),
                 due[j], pubUp(j), updUp(j));
      AfterNextRow(cfg, s, due, j, pubUp, updUp);
      StepsOfNextRow(listed, due, j, pubUp, updUp);
    }
  }

  /** A whole tick, from listing its batch to the last update, as steps of the machine. */
  lemma TickReaches(cfg: Config, s: State, now: int, batch: nat, due: seq<Notification>,
                    pubUp: nat -> bool, updUp: nat -> bool) returns (steps: seq<Step>)
    requires s.sched == Sched([], None) && IsFirst(Due(s.rows, now), MoreUrgent, batch, due)
    ensures Reaches(cfg, s, steps, s.(log := s.log + Enqueued(cfg, due, pubUp), rows := Marked(s.rows, due, pubUp, updUp)))
  {
    var list := SchedList(now, batch, due);
    ReachesFirst(cfg, s, list);
    BatchReaches(cfg, s, [list], Apply(cfg, s, list), due, |due|, pubUp, updUp);
    steps := [list] + BatchSteps(due, pubUp, updUp);
    assert due[..|due|] == due && due[|due|..] == [];
  }

  /** What the due query answers, field by field: pending rows whose time has come, none twice, by
      priority and then by time, as many as there are up to the limit; a row left out comes no
      earlier than any in the batch. */
  lemma BatchIs(rows: Table, now: int, batch: nat, due: seq<Notification>)
    requires IsFirst(Due(rows, now), MoreUrgent, batch, due)
    ensures forall i :: 0 <= i < |due| ==>
              && (exists id :: id in rows && rows[id] == due[i])
              && due[i].status == Pending && due[i].scheduledAt.Some? && due[i].scheduledAt.value <= now
    ensures forall i, j :: 0 <= i < j < |due| ==>
              && due[i] != due[j]
              && (due[i].priority < due[j].priority
                  || (due[i].priority == due[j].priority && due[i].scheduledAt.value <= due[j].scheduledAt.value))
    ensures |due| <= batch
    ensures forall id :: id in rows && rows[id] !in due && rows[id].status == Pending
                         && rows[id].scheduledAt.Some? && rows[id].scheduledAt.value <= now ==>
              && |due| == batch
              && forall i :: 0 <= i < |due| ==>
                   due[i].priority < rows[id].priority
                   || (due[i].priority == rows[id].priority && due[i].scheduledAt.value <= rows[id].scheduledAt.value)
  {
    assert forall i :: 0 <= i < |due| ==> due[i] in Due(rows, now);
    forall id | id in rows && rows[id] !in due && IsDue(rows[id], now)
      ensures |due| == batch && forall i :: 0 <= i < |due| ==> MoreUrgent(due[i], rows[id])
    {
      assert rows[id] in Due(rows, now);
      if |due| < batch {
        ShortPageIsAll(Due(rows, now), MoreUrgent, batch, due);
      }
    }
  }

  lemma {:induction false} EnqueuedCount(cfg: Config, due: seq<Notification>, up: nat -> bool)
    ensures |Enqueued(cfg, due, up)| == CountUp(up, |due|)
  {
    if due == [] {
    } else {
      EnqueuedCount(cfg, due[..|due| - 1], up);
    }
  }

  /** A tick appends one message per row of its batch whose publish works, in the batch's order,
      with everything the row says but its tenant, as a first attempt. */
  lemma {:induction false} EnqueuedExactly(cfg: Config, due: seq<Notification>, up: nat -> bool, i: nat)
    requires i < |due| && up(i)
    ensures CountUp(up, i) < |Enqueued(cfg, due, up)| == CountUp(up, |due|)
    ensures var r, n := Enqueued(cfg, due, up)[CountUp(up, i)], due[i];
            && r.topic == n.channel && r.key == n.recipient && r.source == ByScheduler
            && r.msg.notificationId == n.id && r.msg.tenant == 0 && r.msg.channel == n.channel
            && r.msg.recipient == n.recipient && r.msg.address == n.address && r.msg.template == n.template
            && r.msg.payload == n.payload && r.msg.priority == n.priority
            && r.msg.attempt == 1 && r.msg.maxAttempts == cfg.schedulerRetries
  {
    var n := |due| - 1;
    EnqueuedCount(cfg, due, up);
    EnqueuedCount(cfg, due[..n], up);
    if i < n {
      EnqueuedExactly(cfg, due[..n], up, i);
    }
  }

  /** A tick changes the status of exactly the rows both whose publish and whose update work. */
  lemma {:induction false} MarkedExactly(rows: Table, due: seq<Notification>, pubUp: nat -> bool, updUp: nat -> bool, id: nat)
    requires id in rows
    ensures Marked(rows, due, pubUp, updUp).Keys == rows.Keys
    ensures Marked(rows, due, pubUp, updUp)[id]
         == if exists i: nat :: i < |due| && due[i].id == id && pubUp(i) && updUp(i)
            then rows[id].(status := Queued) else rows[id]
  {
    if due == [] {
    } else {
      var n := |due| - 1;
      MarkedExactly(rows, due[..n], pubUp, updUp, id);
      assert forall i: nat :: i < n ==> due[..n][i] == due[i];
    }
  }

  class SchedulerProcess {
    const cfg: Config
    var rows: Table
    var log: seq<Record>
    ghost var others: State  // what the other components hold

    constructor (cfg: Config)
      ensures this.cfg == cfg && View() == EMPTY
    {
      this.cfg := cfg;
      rows := map[];
      log := [];
      others := EMPTY;
    }

    ghost function View(): State
      reads this
    {
      others.(rows := rows, log := log, sched := Sched([], None))
    }

    /** Enqueue one row and, if that worked, mark it queued. */
    method EnqueueRow(n: Notification, pubUp: bool, updUp: bool)
      modifies this`rows, this`log
      ensures log == old(log) + RowRecord(cfg, n, pubUp)
      ensures rows == if pubUp && updUp then SetStatus(old(rows), n.id, Queued) else old(rows)
    {
      if !pubUp {
        return;
      }
      log := log + [Record(n.channel, n.recipient, SchedulerEnvelope(cfg, n), ByScheduler)];
      if updUp {
        rows := SetStatus(rows, n.id, Queued);
      }
    }

    /** The loop over the batch. */
    method EnqueueRows(due: seq<Notification>, pubUp: nat -> bool, updUp: nat -> bool)
      modifies this`rows, this`log
      ensures log == old(log) + Enqueued(cfg, due, pubUp)
      ensures rows == Marked(old(rows), due, pubUp, updUp)
    {
      var i := 0;
      while i < |due|
        invariant 0 <= i <= |due|
        invariant log == old(log) + Enqueued(cfg, due[..i], pubUp)
        invariant rows == Marked(old(rows), due[..i], pubUp, updUp)
      {
        assert due[..i + 1][..i] == due[..i];
        EnqueueRow(due[i], pubUp(i), updUp(i));
        i := i + 1;
      }
      assert due[..|due|] == due;
    }

    /** One tick is a run of the step machine; a failing publish or update of one row does
        not affect the others. */
    method Tick(now: int, batch: nat, listUp: bool, pubUp: nat -> bool, updUp: nat -> bool)
      returns (due: seq<Notification>, ghost steps: seq<Step>)
      modifies this`rows, this`log
      ensures listUp ==> IsFirst(old(Due(rows, now)), MoreUrgent, batch, due)
      ensures forall i :: 0 <= i < |due| ==>
                due[i].status == Pending && due[i].scheduledAt.Some? && due[i].scheduledAt.value <= now
      ensures forall id, i :: listUp && id in old(rows) && old(rows)[id] !in due && 0 <= i < |due|
                && old(rows)[id].status == Pending && old(rows)[id].scheduledAt.Some? && old(rows)[id].scheduledAt.value <= now
                ==> due[i].priority < old(rows)[id].priority
                    || (due[i].priority == old(rows)[id].priority
                        && due[i].scheduledAt.value <= old(rows)[id].scheduledAt.value)
      ensures !listUp ==> due == []
      ensures log == old(log) + Enqueued(cfg, due, pubUp)
      ensures rows == Marked(old(rows), due, pubUp, updUp)
      ensures Reaches(cfg, old(View()), steps, View())
    {
      steps := [];
      due := [];
      ReachesNone(cfg, View());
      if !listUp {
        return;
      }
      due := Select(Due(rows, now), MoreUrgent, batch);
      steps := TickReaches(cfg, View(), now, batch, due, pubUp, updUp);
      BatchIs(rows, now, batch, due);
      EnqueueRows(due, pubUp, updUp);
    }
  }

  // ------------------------------------------------------------------- the drain

  /** A tick without failures marks its whole batch. */
  function QueueAll(rows: Table, batch: seq<Notification>): Table {
    Marked(rows, batch, Always, Always)
  }

  predicate Always(i: nat) {
    true
  }

  ghost predicate Holds(b: seq<Notification>, id: nat) {
    exists i :: 0 <= i < |b| && b[i].id == id
  }

  lemma {:induction false} QueuedExactly(rows: Table, b: seq<Notification>)
    requires Keyed(rows)
    ensures Keyed(QueueAll(rows, b)) && QueueAll(rows, b).Keys == rows.Keys
    ensures forall id :: id in rows ==>
              QueueAll(rows, b)[id] == if Holds(b, id) then rows[id].(status := Queued) else rows[id]
  {
    if b == [] {
    } else {
      var n := |b| - 1;
      QueuedExactly(rows, b[..n]);
      forall id | id in rows
        ensures QueueAll(rows, b)[id] == if Holds(b, id) then rows[id].(status := Queued) else rows[id]
      {
        assert Holds(b, id) <==> b[n].id == id || Holds(b[..n], id);
      }
    }
  }

  /** A clean tick removes exactly its batch from what is due, then or at any other time. */
  lemma TickRemoves(rows: Table, now: int, size: nat, b: seq<Notification>, later: int)
    requires Keyed(rows) && IsFirst(Due(rows, now), MoreUrgent, size, b)
    ensures Keyed(QueueAll(rows, b)) && Due(QueueAll(rows, b), later) == Due(rows, later) - Elements(b)
  {
    var rows' := QueueAll(rows, b);
    QueuedExactly(rows, b);
    forall i | 0 <= i < |b| ensures b[i].id in rows && rows[b[i].id] == b[i] {
      assert b[i] in Due(rows, now);
    }
    forall n ensures n in Due(rows', later) <==> n in Due(rows, later) - Elements(b) {
      if n in Due(rows', later) {
        var id :| id in rows' && IsDue(rows'[id], later) && rows'[id] == n;
        assert rows[id] == n && n in Due(rows, later);
      }
      if n in Due(rows, later) - Elements(b) {
        var id :| id in rows && IsDue(rows[id], later) && rows[id] == n;
        assert !Holds(b, id);
        assert rows'[id] == n;
      }
    }
  }

  /** Ticks at the given times, with no failures and no arrivals. */
  ghost predicate Drain(rows: Table, nows: seq<int>, size: nat, batches: seq<seq<Notification>>)
    requires |nows| == |batches|
    decreases |batches|
  {
    batches == [] ||
    (IsFirst(Due(rows, nows[0]), MoreUrgent, size, batches[0])
     && Drain(QueueAll(rows, batches[0]), nows[1..], size, batches[1..]))
  }

  /** The clock goes on from tick to tick, but no scheduled time is passed. */
  ghost predicate NoneFallsDue(rows: Table, now: int, nows: seq<int>) {
    forall i :: 0 <= i < |nows| ==> Due(rows, nows[i]) == Due(rows, now)
  }

  ghost function AfterTicks(rows: Table, batches: seq<seq<Notification>>): Table
    decreases |batches|
  {
    if batches == [] then rows else AfterTicks(QueueAll(rows, batches[0]), batches[1..])
  }

  function Monus(a: nat, b: nat): nat {
    if b <= a then a - b else 0
  }

  lemma MonusTwice(n: nat, size: nat, k: nat)
    ensures Monus(Monus(n, size), k * size) == Monus(n, (k + 1) * size)
  {
    assert (k + 1) * size == size + k * size;
  }

  /** The first tick, and what the ticks after it start from. */
  lemma FirstTick(rows: Table, now: int, nows: seq<int>, size: nat, batches: seq<seq<Notification>>)
    requires |nows| == |batches| > 0
    requires Keyed(rows) && Drain(rows, nows, size, batches) && NoneFallsDue(rows, now, nows)
    ensures IsFirst(Due(rows, now), MoreUrgent, size, batches[0])
    ensures var rows' := QueueAll(rows, batches[0]);
            Keyed(rows') && NoneFallsDue(rows', now, nows[1..]) && Due(rows', now) == Due(rows, now) - Elements(batches[0])
  {
    TickRemoves(rows, nows[0], size, batches[0], now);
    forall i | 0 <= i < |nows[1..]|
      ensures Due(QueueAll(rows, batches[0]), nows[1..][i]) == Due(QueueAll(rows, batches[0]), now)
    {
      TickRemoves(rows, nows[0], size, batches[0], nows[i + 1]);
    }
  }

  lemma TickCount(due: set<Notification>, size: nat, b: seq<Notification>)
    requires IsFirst(due, MoreUrgent, size, b)
    ensures |due - Elements(b)| == Monus(|due|, size)
  {
    DistinctSize(b);
    var taken := Elements(b);
    assert taken <= due;
    assert due == (due - taken) + taken;
  }

  /** After k clean ticks exactly n - k * size rows are still due, so the backlog is gone
      after ceil(n / size) ticks and not before. */
  lemma {:induction false} DrainCount(rows: Table, now: int, nows: seq<int>, size: nat, batches: seq<seq<Notification>>)
    requires |nows| == |batches|
    requires Keyed(rows) && Drain(rows, nows, size, batches) && NoneFallsDue(rows, now, nows)
    ensures |Due(AfterTicks(rows, batches), now)| == Monus(|Due(rows, now)|, |batches| * size)
    decreases |batches|
  {
    if batches == [] {
    } else {
      var rows' := QueueAll(rows, batches[0]);
      FirstTick(rows, now, nows, size, batches);
      TickCount(Due(rows, now), size, batches[0]);
      DrainCount(rows', now, nows[1..], size, batches[1..]);
      MonusTwice(|Due(rows, now)|, size, |batches[1..]|);
    }
  }

  lemma {:induction false} DrainAscends(rows: Table, now: int, nows: seq<int>, size: nat, batches: seq<seq<Notification>>)
    requires |nows| == |batches|
    requires Keyed(rows) && Drain(rows, nows, size, batches) && NoneFallsDue(rows, now, nows)
    ensures Distinct(Flatten(batches)) && Ascending(MoreUrgent, Flatten(batches))
    ensures Elements(Flatten(batches)) == Due(rows, now) - Due(AfterTicks(rows, batches), now)
    ensures Due(AfterTicks(rows, batches), now) <= Due(rows, now)
    decreases |batches|
  {
    if batches == [] {
    } else {
      var first, rest := batches[0], Flatten(batches[1..]);
      var rows' := QueueAll(rows, first);
      FirstTick(rows, now, nows, size, batches);
      DrainAscends(rows', now, nows[1..], size, batches[1..]);
      assert Elements(first) <= Due(rows, now);
      JoinSorted(Due(rows, now), size, first, rest);
      ElementsJoin(first, rest);
      SplitDue(Due(rows, now), Elements(first), Due(AfterTicks(rows, batches), now));
    }
  }

  lemma ElementsJoin(a: seq<Notification>, b: seq<Notification>)
    ensures Elements(a + b) == Elements(a) + Elements(b)
  {
  }

  lemma SplitDue(due: set<Notification>, taken: set<Notification>, left: set<Notification>)
    requires taken <= due && left <= due - taken
    ensures taken + (due - taken - left) == due - left && left <= due
  {
  }

  lemma JoinSorted(due: set<Notification>, size: nat, first: seq<Notification>, rest: seq<Notification>)
    requires IsFirst(due, MoreUrgent, size, first)
    requires Distinct(rest) && Ascending(MoreUrgent, rest)
    requires Elements(rest) <= due - Elements(first)
    ensures Distinct(first + rest) && Ascending(MoreUrgent, first + rest)
  {
    var all := first + rest;
    forall i, j | 0 <= i < j < |all| ensures all[i] != all[j] && MoreUrgent(all[i], all[j]) {
      if i < |first| <= j {
        assert all[j] == rest[j - |first|] && all[j] in Elements(rest);
        assert all[i] in Elements(first);
      }
    }
  }

  /** The order of due rows, field by field. */
  lemma InUrgency(all: seq<Notification>, rows: Table, now: int)
    requires Ascending(MoreUrgent, all) && Elements(all) <= Due(rows, now)
    ensures forall i :: 0 <= i < |all| ==> all[i].scheduledAt.Some?
    ensures forall i, j :: 0 <= i < j < |all| ==>
              all[i].priority < all[j].priority
              || (all[i].priority == all[j].priority && all[i].scheduledAt.value <= all[j].scheduledAt.value)
  {
    forall i | 0 <= i < |all| ensures all[i].scheduledAt.Some? {
      assert all[i] in Elements(all);
    }
  }

  /** What a drain publishes: exactly the rows that were due and are not any more, each once, by
      priority and then by scheduled time, over all ticks. */
  lemma DrainSorted(rows: Table, now: int, nows: seq<int>, size: nat, batches: seq<seq<Notification>>)
    requires |nows| == |batches|
    requires Keyed(rows) && Drain(rows, nows, size, batches) && NoneFallsDue(rows, now, nows)
    ensures var all := Flatten(batches);
            && (forall i :: 0 <= i < |all| ==> all[i].scheduledAt.Some?)
            && (forall i, j :: 0 <= i < j < |all| ==>
                  && all[i] != all[j]
                  && (all[i].priority < all[j].priority
                      || (all[i].priority == all[j].priority && all[i].scheduledAt.value <= all[j].scheduledAt.value)))
    ensures Elements(Flatten(batches)) == Due(rows, now) - Due(AfterTicks(rows, batches), now)
    ensures Due(AfterTicks(rows, batches), now) <= Due(rows, now)
  {
    DrainAscends(rows, now, nows, size, batches);
    InUrgency(Flatten(batches), rows, now);
  }

  /** Scheduler drain: n due rows and k clean ticks of size b.  Everything due has been
      published, exactly once and in (priority, scheduled_at) order across ticks, exactly
      when k * b >= n. */
  lemma DrainComplete(rows: Table, now: int, nows: seq<int>, size: nat, batches: seq<seq<Notification>>)
    requires |nows| == |batches|
    requires Keyed(rows) && Drain(rows, nows, size, batches) && NoneFallsDue(rows, now, nows)
    ensures var all := Flatten(batches);
            && (forall i :: 0 <= i < |all| ==> all[i].scheduledAt.Some?)
            && (forall i, j :: 0 <= i < j < |all| ==>
                  && all[i] != all[j]
                  && (all[i].priority < all[j].priority
                      || (all[i].priority == all[j].priority && all[i].scheduledAt.value <= all[j].scheduledAt.value)))
    ensures Elements(Flatten(batches)) == Due(rows, now) <==> |batches| * size >= |Due(rows, now)|
  {
    DrainCount(rows, now, nows, size, batches);
    DrainSorted(rows, now, nows, size, batches);
    var left := Due(AfterTicks(rows, batches), now);
    if Elements(Flatten(batches)) == Due(rows, now) {
      assert left == {};
    }
  }

  // ------------------------------------------------------- the drain in the machine

  lemma {:induction false} EnqueuedJoin(cfg: Config, a: seq<Notification>, b: seq<Notification>)
    ensures Enqueued(cfg, a + b, Always) == Enqueued(cfg, a, Always) + Enqueued(cfg, b, Always)
    decreases |b|
  {
    if b == [] {
      assert a + b == a;
    } else {
      var n := |b| - 1;
      EnqueuedJoin(cfg, a, b[..n]);
      assert (a + b)[..|a + b| - 1] == a + b[..n];
    }
  }

  /** The system after one clean tick, ... */
  function Ticked(cfg: Config, s: State, batch: seq<Notification>): State {
    s.(log := s.log + Enqueued(cfg, batch, Always), rows := QueueAll(s.rows, batch))
  }

  /** ... and after clean ticks of all these batches. */
  ghost function Drained(cfg: Config, s: State, batches: seq<seq<Notification>>): State {
    s.(rows := AfterTicks(s.rows, batches), log := s.log + Enqueued(cfg, Flatten(batches), Always))
  }

  /** One batch, then the others. */
  lemma DrainedStep(cfg: Config, s: State, batches: seq<seq<Notification>>)
    requires batches != []
    ensures Drained(cfg, Ticked(cfg, s, batches[0]), batches[1..]) == Drained(cfg, s, batches)
  {
    var first, rest := batches[0], Flatten(batches[1..]);
    EnqueuedJoin(cfg, first, rest);
    Associative(s.log, Enqueued(cfg, first, Always), Enqueued(cfg, rest, Always));
  }

  /** The whole drain is a run of the machine, and the messages it appends are those of its
      rows, tick after tick. */
  lemma {:induction false} DrainReaches(cfg: Config, s: State, nows: seq<int>, size: nat, batches: seq<seq<Notification>>)
    returns (steps: seq<Step>)
    requires |nows| == |batches| && s.sched == Sched([], None) && Drain(s.rows, nows, size, batches)
    ensures Reaches(cfg, s, steps, Drained(cfg, s, batches))
    decreases |batches|
  {
    if batches == [] {
      steps := [];
      assert s.log + [] == s.log;
      ReachesNone(cfg, s);
    } else {
      DrainedStep(cfg, s, batches);
      var ticked := Ticked(cfg, s, batches[0]);
      var first := TickReaches(cfg, s, nows[0], size, batches[0], Always, Always);
      var more := DrainReaches(cfg, ticked, nows[1..], size, batches[1..]);
      ReachesOn(cfg, s, first, ticked, more, Drained(cfg, ticked, batches[1..]));
      steps := first + more;
    }
  }
}
