/** The no-miss window of the in-app stream: the provider's Send
    (internal/provider/inapp/inapp.go), Redis pub/sub, the hub (internal/realtime/hub.go) and
    the stream handler (internal/api/handler/inbox.go) as interleaved atomic steps.

    Send inserts a row, then publishes it; Stream subscribes, then queries the gap, then
    writes history frames, then goes live.  Any number of sends, other subscribers and
    mark-reads may interleave.  Redis may lose a message and any write may fail. */
module Reconnect {
  import opened OrderedQuery
  import opened Inbox
  import Hub
  import opened Collections

  datatype Client = Client(tenant: string, recipient: string, since: nat, bufSize: nat)

  datatype Frame = History(msg: Message) | Live(msg: Message)

  datatype Phase =
    | Connecting
    | Subscribed(ch: nat)
    | Streaming(ch: nat, history: seq<Message>, sent: nat)
    | Closed

  datatype Sys = Sys(
    table: Table,
    inserted: set<Message>,  // row stored, publish not yet attempted
    wire: set<Message>,      // published to Redis, not yet taken by the hub
    hub: Hub.State<Message>,
    phase: Phase,
    frames: seq<Frame>)

  datatype Step =
    // provider
    | InsertRow(msg: Message)
    | RedisPublish(msg: Message, ok: bool)
    // hub and other connections
    | HubDeliver(msg: Message)
    | OtherSubscribe(tenant: string, recipient: string)
    | OtherCancel(ch: nat)
    | OtherReceive(ch: nat)
    | MarkRead(id: nat, now: int)
    // stream handler
    | StreamSubscribe
    | QueryGap(history: seq<Message>)
    | SkipGap
    | WriteHistory(ok: bool)
    | WriteLive(ok: bool)
    | Disconnect

  function Start(c: Client): Sys {
    Sys(map[], {}, {}, Hub.Empty(c.bufSize), Connecting, [])
  }

  predicate IsOurs(s: Sys, ch: nat) {
    (s.phase.Subscribed? || s.phase.Streaming?) && s.phase.ch == ch
  }

  ghost predicate Enabled(c: Client, s: Sys, step: Step) {
    match step
    case InsertRow(m) => m.id !in s.table && ':' !in m.tenant && m.readAt.None?
    case RedisPublish(m, _) => m in s.inserted
    case HubDeliver(m) => m in s.wire
    case OtherSubscribe(t, _) => ':' !in t
    case OtherCancel(ch) => !IsOurs(s, ch) && ch < |s.hub.subs| && s.hub.subs[ch].open
    case OtherReceive(ch) => !IsOurs(s, ch) && ch < |s.hub.subs| && s.hub.subs[ch].buffer != []
    case MarkRead(id, _) => id in s.table && s.table[id].readAt.None?
    case StreamSubscribe => s.phase.Connecting?
    case QueryGap(history) =>
      && s.phase.Subscribed?
      && HasCursor(s.table, c.tenant, c.since)
      && IsFirst(AboveCursor(s.table, c.tenant, c.recipient, s.table[c.since]), OldestFirst, GAP_LIMIT, history)
    case SkipGap => s.phase.Subscribed?
    case WriteHistory(_) => s.phase.Streaming? && s.phase.sent < |s.phase.history|
    case WriteLive(_) =>
      && s.phase.Streaming? && s.phase.sent == |s.phase.history|
      && s.phase.ch < |s.hub.subs| && s.hub.subs[s.phase.ch].buffer != []
    case Disconnect => s.phase.Subscribed? || s.phase.Streaming?
  }

  /** The handler returns: the deferred cancel unregisters its channel. */
  function Close(s: Sys): Sys
    requires s.phase.Subscribed? || s.phase.Streaming?
  {
    s.(hub := Hub.Apply(s.hub, Hub.Cancel(s.phase.ch)), phase := Closed)
  }

  ghost function Apply(c: Client, s: Sys, step: Step): Sys
    requires Enabled(c, s, step)
  {
    match step
    case InsertRow(m) => s.(table := s.table[m.id := m], inserted := s.inserted + {m})
    case RedisPublish(m, ok) =>
      s.(inserted := s.inserted - {m}, wire := if ok then s.wire + {m} else s.wire)
    case HubDeliver(m) =>
      s.(wire := s.wire - {m}, hub := Hub.Apply(s.hub, Hub.Deliver(Hub.RedisChannel(m.tenant, m.recipient), m)))
    case OtherSubscribe(t, r) => s.(hub := Hub.Apply(s.hub, Hub.Subscribe(t, r)))
    case OtherCancel(ch) => s.(hub := Hub.Apply(s.hub, Hub.Cancel(ch)))
    case OtherReceive(ch) => s.(hub := Hub.Apply(s.hub, Hub.Receive(ch)))
    case MarkRead(id, now) => s.(table := s.table[id := s.table[id].(readAt := Some(now))])
    case StreamSubscribe =>
      s.(hub := Hub.Apply(s.hub, Hub.Subscribe(c.tenant, c.recipient)), phase := Subscribed(|s.hub.subs|))
    case QueryGap(history) => s.(phase := Streaming(s.phase.ch, history, 0))
    case SkipGap => s.(phase := Streaming(s.phase.ch, [], 0))
    case WriteHistory(ok) =>
      if ok then
        s.(phase := s.phase.(sent := s.phase.sent + 1), frames := s.frames + [History(s.phase.history[s.phase.sent])])
      else Close(s)
    case WriteLive(ok) =>
      var msg, s' := s.hub.subs[s.phase.ch].buffer[0], s.(hub := Hub.Apply(s.hub, Hub.Receive(s.phase.ch)));
      if ok then s'.(frames := s.frames + [Live(msg)]) else Close(s')
    case Disconnect => Close(s)
  }

  ghost predicate NextAt(c: Client, steps: seq<Step>, states: seq<Sys>, k: nat)
    requires k < |steps| && k + 1 < |states|
  {
    Enabled(c, states[k], steps[k]) && states[k + 1] == Apply(c, states[k], steps[k])
  }

  /** states is a run of the system under steps: any interleaving of any length. */
  ghost predicate IsRun(c: Client, steps: seq<Step>, states: seq<Sys>) {
    && |states| == |steps| + 1
    && states[0] == Start(c)
    && (forall k {:trigger NextAt(c, steps, states, k)} :: 0 <= k < |steps| ==> NextAt(c, steps, states, k))
  }

  // ------------------------------------------------------------------ invariant

  ghost predicate Stored(t: Table, m: Message) {
    m.id in t && t[m.id] == m.(readAt := t[m.id].readAt) && ':' !in m.tenant
  }

  ghost predicate OurChannel(c: Client, s: Sys, ch: nat) {
    && ch < |s.hub.subs| && s.hub.subs[ch].open
    && s.hub.subs[ch].key == Hub.HubKey(c.tenant, c.recipient)
    && (forall m :: m in Hub.Seen(s.hub, ch) ==> m.tenant == c.tenant && m.recipient == c.recipient)
  }

  function HistoryFrames(history: seq<Message>): seq<Frame> {
    seq(|history|, i requires 0 <= i < |history| => History(history[i]))
  }

  function LiveFrames(msgs: seq<Message>): seq<Frame> {
    seq(|msgs|, i requires 0 <= i < |msgs| => Live(msgs[i]))
  }

  ghost predicate StreamState(c: Client, s: Sys) {
    match s.phase
    case Connecting => s.frames == []
    case Subscribed(ch) => OurChannel(c, s, ch) && s.frames == [] && s.hub.subs[ch].received == []
    case Streaming(ch, history, sent) =>
      && OurChannel(c, s, ch) && sent <= |history|
      && (sent < |history| ==> s.hub.subs[ch].received == [])
      && s.frames == HistoryFrames(history[..sent]) + LiveFrames(s.hub.subs[ch].received)
    case Closed => true
  }

  ghost predicate Inv(c: Client, s: Sys) {
    && Keyed(s.table)
    && (forall m :: m in s.inserted || m in s.wire ==> Stored(s.table, m))
    && Hub.Consistent(s.hub) && s.hub.capacity == c.bufSize
    && StreamState(c, s)
  }

  // ------------------------------------------- how hub steps affect our channel

  ghost predicate Room(s: Sys, ch: nat) {
    ch < |s.hub.subs| && |s.hub.subs[ch].buffer| < s.hub.capacity
  }

  /** Fan-out appends the message exactly to the addressed client's buffer, if it has room. */
  lemma DeliverSeen(c: Client, s: Sys, m: Message, ch: nat)
    requires Hub.Consistent(s.hub) && OurChannel(c, s, ch) && ':' !in m.tenant && ':' !in c.tenant
    ensures var h := Hub.Apply(s.hub, Hub.Deliver(Hub.RedisChannel(m.tenant, m.recipient), m));
            var ours := m.tenant == c.tenant && m.recipient == c.recipient;
            && |h.subs| == |s.hub.subs|
            && h.subs[ch] == (if ours && Room(s, ch)
                              then s.hub.subs[ch].(buffer := s.hub.subs[ch].buffer + [m]) else s.hub.subs[ch])
  {
    Hub.ChannelRoundTrip(m.tenant, m.recipient);
    Hub.KeyInjective(m.tenant, m.recipient, c.tenant, c.recipient);
    assert ch in Hub.Registered(s.hub, s.hub.subs[ch].key);
  }

  lemma DeliverKeepsChannel(c: Client, s: Sys, m: Message, ch: nat)
    requires Hub.Consistent(s.hub) && OurChannel(c, s, ch) && ':' !in m.tenant && ':' !in c.tenant
    ensures var h := Hub.Apply(s.hub, Hub.Deliver(Hub.RedisChannel(m.tenant, m.recipient), m));
            OurChannel(c, s.(hub := h), ch) && h.subs[ch].received == s.hub.subs[ch].received
  {
    DeliverSeen(c, s, m, ch);
  }

  lemma ReceiveKeepsChannel(c: Client, s: Sys, ch: nat)
    requires OurChannel(c, s, ch) && s.hub.subs[ch].buffer != []
    ensures var h := Hub.Apply(s.hub, Hub.Receive(ch));
            && OurChannel(c, s.(hub := h), ch)
            && h.subs[ch].received == s.hub.subs[ch].received + [s.hub.subs[ch].buffer[0]]
            && Hub.Seen(h, ch) == Hub.Seen(s.hub, ch)
  {
    var sub := s.hub.subs[ch];
    assert sub.received + [sub.buffer[0]] + sub.buffer[1..] == sub.received + sub.buffer;
  }

  // ----------------------------------------------------------- preservation

  lemma WritersInv(c: Client, s: Sys, step: Step)
    requires Inv(c, s) && Enabled(c, s, step)
    requires step.InsertRow? || step.RedisPublish? || step.MarkRead?
    ensures Inv(c, Apply(c, s, step))
  {
    var s' := Apply(c, s, step);
    assert s'.hub == s.hub && s'.phase == s.phase && s'.frames == s.frames;
    assert StreamState(c, s');
  }

  lemma HubInv(c: Client, s: Sys, step: Step)
    requires Inv(c, s) && Enabled(c, s, step) && ':' !in c.tenant
    requires step.HubDeliver? || step.OtherSubscribe? || step.OtherCancel? || step.OtherReceive?
    ensures Inv(c, Apply(c, s, step))
  {
    var s' := Apply(c, s, step);
    match step
    case HubDeliver(m) =>
      Hub.ApplyConsistent(s.hub, Hub.Deliver(Hub.RedisChannel(m.tenant, m.recipient), m));
      assert Stored(s.table, m);
      if s.phase.Subscribed? || s.phase.Streaming? {
        DeliverKeepsChannel(c, s, m, s.phase.ch);
        assert OurChannel(c, s', s.phase.ch);
      }
    case OtherSubscribe(t, r) =>
      Hub.ApplyConsistent(s.hub, Hub.Subscribe(t, r));
      if s.phase.Subscribed? || s.phase.Streaming? {
        assert s'.hub.subs[s.phase.ch] == s.hub.subs[s.phase.ch];
      }
    case OtherCancel(ch) =>
      Hub.ApplyConsistent(s.hub, Hub.Cancel(ch));
      if s.phase.Subscribed? || s.phase.Streaming? {
        assert s'.hub.subs[s.phase.ch] == s.hub.subs[s.phase.ch];
      }
    case OtherReceive(ch) =>
      Hub.ApplyConsistent(s.hub, Hub.Receive(ch));
      if s.phase.Subscribed? || s.phase.Streaming? {
        assert s'.hub.subs[s.phase.ch] == s.hub.subs[s.phase.ch];
      }
  }

  lemma StreamInv(c: Client, s: Sys, step: Step)
    requires Inv(c, s) && Enabled(c, s, step)
    requires step.StreamSubscribe? || step.QueryGap? || step.SkipGap? || step.WriteHistory? || step.Disconnect?
    ensures Inv(c, Apply(c, s, step))
  {
    var s' := Apply(c, s, step);
    if step.StreamSubscribe? {
      Hub.ApplyConsistent(s.hub, Hub.Subscribe(c.tenant, c.recipient));
    } else {
      Hub.ApplyConsistent(s.hub, Hub.Cancel(s.phase.ch));
      if step == WriteHistory(true) {
        var h, n := s.phase.history, s.phase.sent;
        assert h[..n + 1] == h[..n] + [h[n]];
        assert HistoryFrames(h[..n + 1]) == HistoryFrames(h[..n]) + [History(h[n])];
        assert LiveFrames(s.hub.subs[s.phase.ch].received) == [];
      }
    }
  }

  lemma WriteLiveInv(c: Client, s: Sys, ok: bool)
    requires Inv(c, s) && Enabled(c, s, WriteLive(ok))
    ensures Inv(c, Apply(c, s, WriteLive(ok)))
  {
    var ch := s.phase.ch;
    var sub := s.hub.subs[ch];
    var received := s.(hub := Hub.Apply(s.hub, Hub.Receive(ch)));
    Hub.ApplyConsistent(s.hub, Hub.Receive(ch));
    Hub.ApplyConsistent(received.hub, Hub.Cancel(ch));
    ReceiveKeepsChannel(c, s, ch);
    assert LiveFrames(sub.received + [sub.buffer[0]]) == LiveFrames(sub.received) + [Live(sub.buffer[0])];
  }

  lemma StepInv(c: Client, s: Sys, step: Step)
    requires Inv(c, s) && Enabled(c, s, step) && ':' !in c.tenant
    ensures Inv(c, Apply(c, s, step))
  {
    match step
    case InsertRow(_) => WritersInv(c, s, step);
    case RedisPublish(_, _) => WritersInv(c, s, step);
    case MarkRead(_, _) => WritersInv(c, s, step);
    case HubDeliver(_) => HubInv(c, s, step);
    case OtherSubscribe(_, _) => HubInv(c, s, step);
    case OtherCancel(_) => HubInv(c, s, step);
    case OtherReceive(_) => HubInv(c, s, step);
    case WriteLive(ok) => WriteLiveInv(c, s, ok);
    case StreamSubscribe => StreamInv(c, s, step);
    case QueryGap(_) => StreamInv(c, s, step);
    case SkipGap => StreamInv(c, s, step);
    case WriteHistory(_) => StreamInv(c, s, step);
    case Disconnect => StreamInv(c, s, step);
  }

  /** Every reachable state: what is on the wire is stored, the stream's channel is
      registered for its client and holds only that client's messages, and the frames
      written so far are the history in order followed by the live messages in order. */
  lemma {:induction false} RunInv(c: Client, steps: seq<Step>, states: seq<Sys>, k: nat)
    requires IsRun(c, steps, states) && ':' !in c.tenant && k <= |steps|
    ensures Inv(c, states[k])
  {
    if k == 0 {
    } else {
      RunInv(c, steps, states, k - 1);
      assert NextAt(c, steps, states, k - 1);
      StepInv(c, states[k - 1], steps[k - 1]);
    }
  }

  // --------------------------------------------------------------- monotonicity

  function Rank(p: Phase): nat {
    match p case Connecting => 0 case Subscribed(_) => 1 case Streaming(_, _, _) => 2 case Closed => 3
  }

  /** The client's channel is registered. */
  predicate Listening(s: Sys) {
    s.phase.Subscribed? || s.phase.Streaming?
  }

  /** s' is a later state: rows stay, the phase only advances, and a client that is still
      listening keeps its channel, its history and everything that entered its buffer. */
  ghost predicate LaterThan(s: Sys, s': Sys) {
    && Evolves(s.table, s'.table)
    && Rank(s.phase) <= Rank(s'.phase)
    && (s.phase.Streaming? && s'.phase.Streaming? ==> s'.phase.history == s.phase.history)
    && (Listening(s) && Listening(s') ==>
          && s'.phase.ch == s.phase.ch
          && s.phase.ch < |s.hub.subs| <= |s'.hub.subs|
          && SawAll(s, s', s.phase.ch))
  }

  ghost predicate SawAll(s: Sys, s': Sys, ch: nat)
    requires ch < |s.hub.subs| <= |s'.hub.subs|
  {
    forall m :: m in Hub.Seen(s.hub, ch) ==> m in Hub.Seen(s'.hub, ch)
  }

  lemma StepEvolves(c: Client, s: Sys, step: Step)
    requires Enabled(c, s, step)
    ensures Evolves(s.table, Apply(c, s, step).table) && Rank(s.phase) <= Rank(Apply(c, s, step).phase)
  {
  }

  /** A step that leaves a client listening keeps its channel and its history, ... */
  lemma StepKeepsPhase(c: Client, s: Sys, step: Step)
    requires Inv(c, s) && Enabled(c, s, step) && Listening(s) && Listening(Apply(c, s, step))
    ensures var s' := Apply(c, s, step);
            && s'.phase.ch == s.phase.ch && (s.phase.Streaming? ==> s'.phase.Streaming? && s'.phase.history == s.phase.history)
            && s.phase.ch < |s.hub.subs| <= |s'.hub.subs|
  {
  }

  /** ... and never shrinks what it saw. */
  lemma StepKeepsSeen(c: Client, s: Sys, step: Step)
    requires Inv(c, s) && Enabled(c, s, step) && ':' !in c.tenant && Listening(s) && Listening(Apply(c, s, step))
    requires s.phase.ch < |s.hub.subs| <= |Apply(c, s, step).hub.subs|
    ensures SawAll(s, Apply(c, s, step), s.phase.ch)
  {
    var s', ch := Apply(c, s, step), s.phase.ch;
    if step.HubDeliver? {
      var m := step.msg;
      assert Stored(s.table, m);
      DeliverSeen(c, s, m, ch);
      assert s.hub.subs[ch].received + (s.hub.subs[ch].buffer + [m]) == Hub.Seen(s.hub, ch) + [m];
    } else if step.WriteLive? {
      ReceiveKeepsChannel(c, s, ch);
    } else {
      assert s'.hub.subs[ch] == s.hub.subs[ch];
    }
  }

  lemma LaterTransitive(a: Sys, b: Sys, d: Sys)
    requires LaterThan(a, b) && LaterThan(b, d)
    ensures LaterThan(a, d)
  {
    EvolvesTransitive(a.table, b.table, d.table);
  }

  lemma StepLater(c: Client, s: Sys, step: Step)
    requires Inv(c, s) && Enabled(c, s, step) && ':' !in c.tenant
    ensures LaterThan(s, Apply(c, s, step))
  {
    StepEvolves(c, s, step);
    if Listening(s) && Listening(Apply(c, s, step)) {
      StepKeepsPhase(c, s, step);
      StepKeepsSeen(c, s, step);
    }
  }

  lemma {:induction false} RunLater(c: Client, steps: seq<Step>, states: seq<Sys>, i: nat, n: nat)
    requires IsRun(c, steps, states) && i <= n <= |steps| && ':' !in c.tenant
    ensures LaterThan(states[i], states[n])
    decreases n
  {
    if i == n {
      RunInv(c, steps, states, i);
    } else {
      RunLater(c, steps, states, i, n - 1);
      RunInv(c, steps, states, n - 1);
      assert NextAt(c, steps, states, n - 1);
      StepLater(c, states[n - 1], steps[n - 1]);
      LaterTransitive(states[i], states[n - 1], states[n]);
    }
  }

  // ---------------------------------------------------------------- the theorem

  /** The gap query returned rows only up to its limit, all of them before m. */
  ghost predicate CutOff(c: Client, atQuery: Sys, history: seq<Message>, m: Message) {
    && c.since in atQuery.table
    && |AboveCursor(atQuery.table, c.tenant, c.recipient, atQuery.table[c.since])| > GAP_LIMIT
    && |history| == GAP_LIMIT
    && (forall h :: h in history ==> Older(h, m))
  }

  ghost predicate InHistory(history: seq<Message>, m: Message) {
    exists h :: h in history && h.id == m.id
  }

  /** A row stored when the gap is queried is in the batch, or the batch was cut before it. */
  lemma StoredIsReplayed(c: Client, s: Sys, history: seq<Message>, m: Message)
    requires Keyed(s.table) && s.phase.Subscribed? && Enabled(c, s, QueryGap(history))
    requires Stored(s.table, m) && m.tenant == c.tenant && m.recipient == c.recipient
    requires Older(s.table[c.since], m)
    ensures InHistory(history, m) || CutOff(c, s, history, m)
  {
    var row := s.table[m.id];
    var above := AboveCursor(s.table, c.tenant, c.recipient, s.table[c.since]);
    assert row in above;
    if row !in history {
      if |history| < GAP_LIMIT {
        ShortPageIsAll(above, OldestFirst, GAP_LIMIT, history);
      }
      DistinctSize(history);
      assert Elements(history) < above;
      SubsetSize(Elements(history) + {row}, above);
      forall h | h in history ensures Older(h, m) {
        var i :| 0 <= i < |history| && history[i] == h;
        assert OldestFirst(h, row);
        assert h in above && h.id != row.id;
      }
    }
  }

  /** How a message may end up for an open stream whose gap query was answered with history
      in state atQuery, when the hub published it in state atPublish. */
  ghost predicate Accounted(c: Client, s: Sys, atQuery: Sys, atPublish: Sys, history: seq<Message>, m: Message) {
    && s.phase.Streaming? && s.phase.history == history && s.phase.ch < |s.hub.subs|
    && (|| InHistory(history, m)
        || m in Hub.Seen(s.hub, s.phase.ch)
        || CutOff(c, atQuery, history, m)
        || (m.id !in atQuery.table && !Room(atPublish, s.phase.ch)))
  }

  /** No-miss reconnect.  In every interleaving, take a message above the client's cursor whose
      hub publish occurs at step k, and a gap query at step j.  While the stream is open the
      message is in the history batch or went into the client's buffer, unless the gap exceeded
      200 rows, or it was inserted after the query and found the buffer full. */
  lemma NoMissReconnect(c: Client, steps: seq<Step>, states: seq<Sys>,
                        j: nat, history: seq<Message>, k: nat, m: Message)
    requires IsRun(c, steps, states) && ':' !in c.tenant
    requires j < |steps| && steps[j] == QueryGap(history)
    requires k < |steps| && steps[k] == HubDeliver(m)
    requires m.tenant == c.tenant && m.recipient == c.recipient
    requires c.since in states[j].table && Older(states[j].table[c.since], m)
    requires states[|steps|].phase.Streaming?
    ensures Accounted(c, states[|steps|], states[j], states[k], history, m)
  {
    OpenThroughout(c, steps, states, j, history, |steps|, m);
    if k <= j {
      PublishedBefore(c, steps, states, j, history, k, m);
    } else {
      PublishedAfter(c, steps, states, j, history, k, m);
    }
  }

  lemma PublishedBefore(c: Client, steps: seq<Step>, states: seq<Sys>, j: nat, history: seq<Message>, k: nat, m: Message)
    requires IsRun(c, steps, states) && ':' !in c.tenant
    requires k <= j < |steps| && steps[j] == QueryGap(history) && steps[k] == HubDeliver(m)
    requires m.tenant == c.tenant && m.recipient == c.recipient
    requires c.since in states[j].table && Older(states[j].table[c.since], m)
    ensures InHistory(history, m) || CutOff(c, states[j], history, m)
  {
    PublishedIsStored(c, steps, states, k, m);
    RunLater(c, steps, states, k, j);
    QueriedIsReplayed(c, steps, states, j, history, m);
  }

  lemma PublishedAfter(c: Client, steps: seq<Step>, states: seq<Sys>, j: nat, history: seq<Message>, k: nat, m: Message)
    requires IsRun(c, steps, states) && ':' !in c.tenant
    requires j < k < |steps| && steps[j] == QueryGap(history) && steps[k] == HubDeliver(m)
    requires m.tenant == c.tenant && m.recipient == c.recipient
    requires c.since in states[j].table && Older(states[j].table[c.since], m)
    requires states[|steps|].phase.Streaming? && states[|steps|].phase.ch < |states[|steps|].hub.subs|
    ensures || InHistory(history, m) || CutOff(c, states[j], history, m)
            || m in Hub.Seen(states[|steps|].hub, states[|steps|].phase.ch)
            || (m.id !in states[j].table && !Room(states[k], states[|steps|].phase.ch))
  {
    if m.id in states[j].table {
      PublishedIsStored(c, steps, states, k, m);
      RunLater(c, steps, states, j, k);
      QueriedIsReplayed(c, steps, states, j, history, m);
    } else if Room(states[k], states[|steps|].phase.ch) {
      OpenThroughout(c, steps, states, j, history, k, m);
      DeliveredAt(c, steps, states, k, m);
      OpenThroughout(c, steps, states, j, history, k + 1, m);
    }
  }

  lemma PublishedIsStored(c: Client, steps: seq<Step>, states: seq<Sys>, k: nat, m: Message)
    requires IsRun(c, steps, states) && ':' !in c.tenant && k < |steps| && steps[k] == HubDeliver(m)
    ensures Stored(states[k].table, m)
  {
    RunInv(c, steps, states, k);
    assert NextAt(c, steps, states, k);
  }

  lemma QueriedIsReplayed(c: Client, steps: seq<Step>, states: seq<Sys>, j: nat, history: seq<Message>, m: Message)
    requires IsRun(c, steps, states) && ':' !in c.tenant && j < |steps| && steps[j] == QueryGap(history)
    requires Stored(states[j].table, m) && m.tenant == c.tenant && m.recipient == c.recipient
    requires c.since in states[j].table && Older(states[j].table[c.since], m)
    ensures InHistory(history, m) || CutOff(c, states[j], history, m)
  {
    RunInv(c, steps, states, j);
    assert NextAt(c, steps, states, j);
    StoredIsReplayed(c, states[j], history, m);
  }

  /** Between the gap query and the end of an open run the stream is open on one channel,
      and a message seen by then stays seen. */
  lemma OpenThroughout(c: Client, steps: seq<Step>, states: seq<Sys>, j: nat, history: seq<Message>, k: nat, m: Message)
    requires IsRun(c, steps, states) && ':' !in c.tenant
    requires j < k <= |steps| && steps[j] == QueryGap(history) && states[|steps|].phase.Streaming?
    ensures OpenOn(states[k], states[|steps|], history, m)
  {
    assert NextAt(c, steps, states, j);
    assert Rank(states[j + 1].phase) == 2 && Rank(states[|steps|].phase) == 2;
    RunLater(c, steps, states, j + 1, k);
    RunLater(c, steps, states, k, |steps|);
    assert Rank(states[k].phase) == 2;
  }

  ghost predicate OpenOn(p: Sys, s: Sys, history: seq<Message>, m: Message) {
    && p.phase.Streaming? && s.phase.Streaming?
    && p.phase.ch == s.phase.ch && p.phase.history == s.phase.history == history
    && s.phase.ch < |p.hub.subs| <= |s.hub.subs|
    && (m in Hub.Seen(p.hub, s.phase.ch) ==> m in Hub.Seen(s.hub, s.phase.ch))
  }

  /** A message published with room in the buffer while the stream is open enters it. */
  lemma DeliveredAt(c: Client, steps: seq<Step>, states: seq<Sys>, k: nat, m: Message)
    requires IsRun(c, steps, states) && ':' !in c.tenant && k < |steps| && steps[k] == HubDeliver(m)
    requires m.tenant == c.tenant && m.recipient == c.recipient
    requires Listening(states[k]) && Room(states[k], states[k].phase.ch)
    ensures states[k + 1].phase == states[k].phase && states[k].phase.ch < |states[k + 1].hub.subs|
    ensures m in Hub.Seen(states[k + 1].hub, states[k].phase.ch)
  {
    RunInv(c, steps, states, k);
    assert NextAt(c, steps, states, k);
    DeliveredIsSeen(c, states[k], m);
  }

  lemma DeliveredIsSeen(c: Client, s: Sys, m: Message)
    requires Inv(c, s) && ':' !in c.tenant && Listening(s) && Enabled(c, s, HubDeliver(m))
    requires m.tenant == c.tenant && m.recipient == c.recipient && Room(s, s.phase.ch)
    ensures var s' := Apply(c, s, HubDeliver(m));
            s'.phase == s.phase && s.phase.ch < |s'.hub.subs| && m in Hub.Seen(s'.hub, s.phase.ch)
  {
    assert Stored(s.table, m);
    DeliverSeen(c, s, m, s.phase.ch);
  }

  // --------------------------------------------------- exactly what is given

  /** The history batch holds a message exactly if it was stored at the query and not cut off. */
  lemma InHistoryIff(c: Client, steps: seq<Step>, states: seq<Sys>, j: nat, history: seq<Message>, k: nat, m: Message)
    requires IsRun(c, steps, states) && ':' !in c.tenant && j < |steps| && steps[j] == QueryGap(history)
    requires k < |steps| && steps[k] == HubDeliver(m) && m.tenant == c.tenant && m.recipient == c.recipient
    requires c.since in states[j].table && Older(states[j].table[c.since], m)
    ensures InHistory(history, m) <==> m.id in states[j].table && !CutOff(c, states[j], history, m)
  {
    PublishedIsStored(c, steps, states, k, m);
    if m.id in states[j].table {
      if j <= k {
        RunLater(c, steps, states, j, k);
      } else {
        RunLater(c, steps, states, k, j);
      }
      assert Stored(states[j].table, m);
      QueriedIsReplayed(c, steps, states, j, history, m);
    }
    RunInv(c, steps, states, j);
    assert NextAt(c, steps, states, j);
    forall h | h in history && h.id == m.id ensures m.id in states[j].table && !Older(h, m) {
      var i :| 0 <= i < |history| && history[i] == h;
      assert h in AboveCursor(states[j].table, c.tenant, c.recipient, states[j].table[c.since]);
    }
  }

  /** A message is on its way at most once: inserted, then on the wire, then taken. */
  ghost predicate Apart(s: Sys) {
    forall m :: m in s.inserted ==> m !in s.wire
  }

  lemma {:induction false} RunApart(c: Client, steps: seq<Step>, states: seq<Sys>, k: nat)
    requires IsRun(c, steps, states) && ':' !in c.tenant && k <= |steps|
    ensures Apart(states[k])
  {
    if k == 0 {
    } else {
      RunApart(c, steps, states, k - 1);
      RunInv(c, steps, states, k - 1);
      assert NextAt(c, steps, states, k - 1);
    }
  }

  ghost predicate Gone(s: Sys, m: Message) {
    m.id in s.table && m !in s.inserted && m !in s.wire
  }

  lemma {:induction false} GoneForGood(c: Client, steps: seq<Step>, states: seq<Sys>, k: nat, n: nat, m: Message)
    requires IsRun(c, steps, states) && k <= n <= |steps| && Gone(states[k], m)
    ensures Gone(states[n], m)
    decreases n
  {
    if k == n {
    } else {
      GoneForGood(c, steps, states, k, n - 1, m);
      assert NextAt(c, steps, states, n - 1);
    }
  }

  /** The hub takes a message from the wire at most once. */
  lemma TakenOnce(c: Client, steps: seq<Step>, states: seq<Sys>, i: nat, k: nat, m: Message)
    requires IsRun(c, steps, states) && ':' !in c.tenant && i < k < |steps| && steps[i] == HubDeliver(m)
    ensures steps[k] != HubDeliver(m)
  {
    PublishedIsStored(c, steps, states, i, m);
    RunApart(c, steps, states, i);
    assert NextAt(c, steps, states, i) && NextAt(c, steps, states, k);
    GoneForGood(c, steps, states, i + 1, k, m);
  }

  /** What the client has seen, the hub gave it while it listened, with room in its buffer. */
  lemma {:induction false} SeenWasGiven(c: Client, steps: seq<Step>, states: seq<Sys>, n: nat, m: Message) returns (k: nat)
    requires IsRun(c, steps, states) && ':' !in c.tenant && n <= |steps| && Listening(states[n])
    requires states[n].phase.ch < |states[n].hub.subs| && m in Hub.Seen(states[n].hub, states[n].phase.ch)
    ensures k < n && steps[k] == HubDeliver(m) && Listening(states[k]) && states[k].phase.ch == states[n].phase.ch
    ensures Room(states[k], states[n].phase.ch)
  {
    if n == 0 {
    } else {
      k := n - 1;
      var s, ch := states[k], states[n].phase.ch;
      RunInv(c, steps, states, k);
      assert NextAt(c, steps, states, k);
      SeenStep(c, s, steps[k], ch, m);
      if Listening(s) && m in Hub.Seen(s.hub, s.phase.ch) {
        k := SeenWasGiven(c, steps, states, k, m);
      }
    }
  }

  lemma SeenStep(c: Client, s: Sys, step: Step, ch: nat, m: Message)
    requires Inv(c, s) && ':' !in c.tenant && Enabled(c, s, step)
    requires var s' := Apply(c, s, step); Listening(s') && s'.phase.ch == ch && ch < |s'.hub.subs| && m in Hub.Seen(s'.hub, ch)
    ensures Listening(s) && s.phase.ch == ch && ch < |s.hub.subs|
    ensures m in Hub.Seen(s.hub, ch) || (step == HubDeliver(m) && Room(s, ch))
  {
    var s' := Apply(c, s, step);
    if step.HubDeliver? {
      assert Stored(s.table, step.msg);
      DeliverSeen(c, s, step.msg, ch);
    } else if step.WriteLive? {
      ReceiveKeepsChannel(c, s, ch);
    } else if Listening(s) {
      assert s'.hub.subs[ch] == s.hub.subs[ch];
    }
  }

  /** The buffer took a message exactly if the client listened and had room when the hub took
      the message from the wire. */
  lemma SeenIff(c: Client, steps: seq<Step>, states: seq<Sys>, k: nat, m: Message)
    requires IsRun(c, steps, states) && ':' !in c.tenant && k < |steps| && steps[k] == HubDeliver(m)
    requires m.tenant == c.tenant && m.recipient == c.recipient && Listening(states[|steps|])
    ensures states[|steps|].phase.ch < |states[|steps|].hub.subs|
    ensures m in Hub.Seen(states[|steps|].hub, states[|steps|].phase.ch)
       <==> Listening(states[k]) && Room(states[k], states[k].phase.ch)
  {
    RunInv(c, steps, states, |steps|);
    if m in Hub.Seen(states[|steps|].hub, states[|steps|].phase.ch) {
      SeenHadRoom(c, steps, states, k, m);
    }
    if Listening(states[k]) && Room(states[k], states[k].phase.ch) {
      RoomIsSeen(c, steps, states, k, m);
    }
  }

  lemma SeenHadRoom(c: Client, steps: seq<Step>, states: seq<Sys>, k: nat, m: Message)
    requires IsRun(c, steps, states) && ':' !in c.tenant && k < |steps| && steps[k] == HubDeliver(m)
    requires Listening(states[|steps|]) && states[|steps|].phase.ch < |states[|steps|].hub.subs|
    requires m in Hub.Seen(states[|steps|].hub, states[|steps|].phase.ch)
    ensures Listening(states[k]) && Room(states[k], states[k].phase.ch)
  {
    var i := SeenWasGiven(c, steps, states, |steps|, m);
    if i < k {
      TakenOnce(c, steps, states, i, k, m);
    } else if k < i {
      TakenOnce(c, steps, states, k, i, m);
    }
  }

  lemma RoomIsSeen(c: Client, steps: seq<Step>, states: seq<Sys>, k: nat, m: Message)
    requires IsRun(c, steps, states) && ':' !in c.tenant && k < |steps| && steps[k] == HubDeliver(m)
    requires m.tenant == c.tenant && m.recipient == c.recipient && Listening(states[|steps|])
    requires Listening(states[k]) && Room(states[k], states[k].phase.ch)
    ensures states[|steps|].phase.ch < |states[|steps|].hub.subs|
    ensures m in Hub.Seen(states[|steps|].hub, states[|steps|].phase.ch)
  {
    DeliveredAt(c, steps, states, k, m);
    RunLater(c, steps, states, k + 1, |steps|);
    StillSeen(states[k + 1], states[|steps|], m);
  }

  lemma StillSeen(s: Sys, s': Sys, m: Message)
    requires LaterThan(s, s') && Listening(s) && Listening(s')
    requires s.phase.ch < |s.hub.subs| && m in Hub.Seen(s.hub, s.phase.ch)
    ensures s'.phase.ch < |s'.hub.subs| && m in Hub.Seen(s'.hub, s'.phase.ch)
  {
    assert SawAll(s, s', s.phase.ch);
  }

  /** Exactly what a reconnect gives.  A message above the client's cursor that the hub takes at
      step k is in the history batch or went into the buffer if and only if it was stored at the
      gap query and the batch was not cut off before it, or the client listened at k, which it
      does from its subscribe on, and had room. */
  lemma GivenIff(c: Client, steps: seq<Step>, states: seq<Sys>, j: nat, history: seq<Message>, k: nat, m: Message)
    requires IsRun(c, steps, states) && ':' !in c.tenant
    requires j < |steps| && steps[j] == QueryGap(history)
    requires k < |steps| && steps[k] == HubDeliver(m)
    requires m.tenant == c.tenant && m.recipient == c.recipient
    requires c.since in states[j].table && Older(states[j].table[c.since], m)
    requires states[|steps|].phase.Streaming?
    ensures states[|steps|].phase.ch < |states[|steps|].hub.subs|
    ensures InHistory(history, m) || m in Hub.Seen(states[|steps|].hub, states[|steps|].phase.ch)
       <==> || (m.id in states[j].table && !CutOff(c, states[j], history, m))
            || (Listening(states[k]) && Room(states[k], states[k].phase.ch))
  {
    InHistoryIff(c, steps, states, j, history, k, m);
    SeenIff(c, steps, states, k, m);
  }

  /** In every reachable state of an open stream, the client has been sent its history in
      order and then its live messages in order, and only its own messages. */
  lemma FramesInOrder(c: Client, steps: seq<Step>, states: seq<Sys>)
    requires IsRun(c, steps, states) && ':' !in c.tenant && states[|steps|].phase.Streaming?
    ensures var s := states[|steps|];
            && s.phase.ch < |s.hub.subs| && s.phase.sent <= |s.phase.history|
            && |s.frames| == s.phase.sent + |s.hub.subs[s.phase.ch].received|
            && (forall i :: 0 <= i < s.phase.sent ==> s.frames[i] == History(s.phase.history[i]))
            && (forall i :: 0 <= i < |s.hub.subs[s.phase.ch].received| ==>
                  s.frames[s.phase.sent + i] == Live(s.hub.subs[s.phase.ch].received[i]))
            && (forall m :: m in Hub.Seen(s.hub, s.phase.ch) ==> m.tenant == c.tenant && m.recipient == c.recipient)
  {
    RunInv(c, steps, states, |steps|);
  }
}
