/** The WebSocket hub and its Redis channel names (internal/realtime/hub.go).

    A Go channel is a handle, the index of its Subscriber record.  Subscribe, cancel,
    fan-out of one message and receive are atomic steps. */
module Hub {
  import opened Collections
  import opened Strings

  // -------------------------------------------------------------- channel names

  function HubKey(tenant: string, recipient: string): string {
    tenant + ":" + recipient
  }

  function RedisChannel(tenant: string, recipient: string): string {
    "inapp:" + tenant + ":" + recipient
  }

  /** How Run reads a channel name: strip the prefix, split at the first colon. */
  function ParseChannel(channel: string): (r: Option<(string, string)>)
    ensures r.Some? ==> ':' !in r.value.0
  {
    var rest := TrimPrefix(channel, "inapp:");
    var idx := IndexOf(rest, ':');
    if idx.None? then None else Some((rest[..idx.value], rest[idx.value + 1..]))
  }

  /** Channel-name round trip: Run undoes RedisChannel exactly for colon-free tenants,
      whatever the recipient string contains. */
  lemma ChannelRoundTrip(t: string, r: string)
    ensures RedisChannel(t, r) == "inapp:" + (t + ":" + r)
    ensures ParseChannel(RedisChannel(t, r)) == Some((t, r)) <==> ':' !in t
  {
    var rest := TrimPrefix(RedisChannel(t, r), "inapp:");
    assert rest == t + ":" + r;
    if ':' !in t {
      FirstIndex(t, ':', r);
      assert rest[..|t|] == t && rest[|t| + 1..] == r;
    }
  }

  /** Which names Run understands, and how: a tenant up to the first colon and a recipient after it,
      behind the prefix if it is there. */
  lemma ParsesIff(channel: string, t: string, r: string)
    ensures ParseChannel(channel) == Some((t, r))
       <==> ':' !in t && (channel == "inapp:" + (t + ":" + r) || (!("inapp:" <= channel) && channel == t + ":" + r))
  {
    var rest := TrimPrefix(channel, "inapp:");
    assert "inapp:" <= channel ==> channel == "inapp:" + rest;
    assert TrimPrefix("inapp:" + (t + ":" + r), "inapp:") == t + ":" + r;
    SplitsIff(rest, t, r);
  }

  lemma SplitsIff(rest: string, t: string, r: string)
    ensures (var i := IndexOf(rest, ':'); i.Some? && rest[..i.value] == t && rest[i.value + 1..] == r)
       <==> ':' !in t && rest == t + ":" + r
  {
    var i := IndexOf(rest, ':');
    if i.Some? {
      assert rest == rest[..i.value] + ":" + rest[i.value + 1..];
    }
    if ':' !in t && rest == t + ":" + r {
      FirstIndex(t, ':', r);
      assert rest[..|t|] == t && rest[|t| + 1..] == r;
    }
  }

  /** The hub key separates (tenant, recipient) pairs with colon-free tenants. */
  lemma KeyInjective(t1: string, r1: string, t2: string, r2: string)
    requires ':' !in t1 && ':' !in t2
    ensures HubKey(t1, r1) == HubKey(t2, r2) <==> t1 == t2 && r1 == r2
  {
    FirstIndex(t1, ':', r1);
    FirstIndex(t2, ':', r2);
    if HubKey(t1, r1) == HubKey(t2, r2) {
      var k := HubKey(t1, r1);
      assert k == HubKey(t2, r2) && |t1| == |t2|;
      assert t1 == k[..|t1|] && t2 == HubKey(t2, r2)[..|t2|];
      assert r1 == k[|t1| + 1..] && r2 == HubKey(t2, r2)[|t2| + 1..];
    }
  }

  // ---------------------------------------------------------------- step machine

  datatype Subscriber<M> = Subscriber(key: string, buffer: seq<M>, open: bool, received: seq<M>)

  datatype State<M> = State(capacity: nat, conns: map<string, set<nat>>, subs: seq<Subscriber<M>>)

  datatype Op<M> =
    | Subscribe(tenant: string, recipient: string)
    | Cancel(ch: nat)
    | Deliver(channel: string, msg: M)  // one iteration of Run
    | Receive(ch: nat)

  function Empty<M>(capacity: nat): State<M> {
    State(capacity, map[], [])
  }

  function Registered<M>(s: State<M>, key: string): set<nat> {
    if key in s.conns then s.conns[key] else {}
  }

  predicate Enabled<M>(s: State<M>, op: Op<M>) {
    match op
    case Subscribe(_, _) => true
    case Cancel(ch) => ch < |s.subs| && s.subs[ch].open
    case Deliver(_, _) => true
    case Receive(ch) => ch < |s.subs| && s.subs[ch].buffer != []
  }

  /** A non-blocking send: dropped when the buffer is full. */
  function Offer<M>(sub: Subscriber<M>, capacity: nat, msg: M): Subscriber<M> {
    if |sub.buffer| < capacity then sub.(buffer := sub.buffer + [msg]) else sub
  }

  function FanOut<M>(s: State<M>, key: string, msg: M): State<M> {
    var chans := Registered(s, key);
    s.(subs := seq(|s.subs|, i requires 0 <= i < |s.subs| =>
         if i in chans then Offer(s.subs[i], s.capacity, msg) else s.subs[i]))
  }

  function Unregister(conns: map<string, set<nat>>, key: string, ch: nat): map<string, set<nat>> {
    var left := (if key in conns then conns[key] else {}) - {ch};
    if left == {} then conns - {key} else conns[key := left]
  }

  /** One step; an operation that is not enabled leaves the state as it is. */
  function Apply<M>(s: State<M>, op: Op<M>): State<M> {
    if !Enabled(s, op) then s else
    match op
    case Subscribe(t, r) =>
      var key := HubKey(t, r);
      s.(conns := s.conns[key := Registered(s, key) + {|s.subs|}],
         subs := s.subs + [Subscriber(key, [], true, [])])
    case Cancel(ch) =>
      s.(conns := Unregister(s.conns, s.subs[ch].key, ch), subs := s.subs[ch := s.subs[ch].(open := false)])
    case Deliver(channel, msg) =>
      var target := ParseChannel(channel);
      if target.None? then s else FanOut(s, HubKey(target.value.0, target.value.1), msg)
    case Receive(ch) =>
      var sub := s.subs[ch];
      s.(subs := s.subs[ch := sub.(buffer := sub.buffer[1..], received := sub.received + [sub.buffer[0]])])
  }

  // ------------------------------------------------------------------- the class

  class Hub<M(==)> {
    const capacity: nat
    var conns: map<string, set<nat>>
    var subs: seq<Subscriber<M>>

    constructor (bufSize: int)
      ensures View() == Empty(if bufSize <= 0 then 32 else bufSize) && Valid()
    {
      capacity := if bufSize <= 0 then 32 else bufSize;
      conns := map[];
      subs := [];
    }

    function View(): State<M>
      reads this
    {
      State(capacity, conns, subs)
    }

    ghost predicate Valid()
      reads this
    {
      Consistent(View())
    }

    method Subscribe(tenant: string, recipient: string) returns (ch: nat)
      requires Valid()
      modifies this
      ensures View() == Apply(old(View()), Op<M>.Subscribe(tenant, recipient)) && ch == |old(subs)|
      ensures Valid()
    {
      ApplyConsistent(View(), Op<M>.Subscribe(tenant, recipient));
      var key := HubKey(tenant, recipient);
      ch := |subs|;
      subs := subs + [Subscriber(key, [], true, [])];
      if key !in conns {
        conns := conns[key := {}];
      }
      conns := conns[key := conns[key] + {ch}];
    }

    method Cancel(ch: nat)
      requires Valid() && ch < |subs| && subs[ch].open
      modifies this
      ensures View() == Apply(old(View()), Op<M>.Cancel(ch)) && Valid()
    {
      ApplyConsistent(View(), Op<M>.Cancel(ch));
      var key := subs[ch].key;
      conns := conns[key := conns[key] - {ch}];
      if |conns[key]| == 0 {
        conns := conns - {key};
      }
      subs := subs[ch := subs[ch].(open := false)];
    }

    /** Publish: a non-blocking send to each channel of the key, in any order. */
    method Publish(tenant: string, recipient: string, msg: M)
      requires Valid()
      modifies this
      ensures View() == FanOut(old(View()), HubKey(tenant, recipient), msg)
    {
      var key := HubKey(tenant, recipient);
      var chans := if key in conns then conns[key] else {};
      var todo := chans;
      assert chans == Registered(View(), key);
      while todo != {}
        invariant todo <= chans && conns == old(conns) && |subs| == |old(subs)|
        invariant forall ch :: ch in chans ==> ch < |subs|
        invariant forall i :: 0 <= i < |subs| ==>
                    subs[i] == if i in chans - todo then Offer(old(subs)[i], capacity, msg) else old(subs)[i]
        decreases |todo|
      {
        var ch :| ch in todo;
        if |subs[ch].buffer| < capacity {
          subs := subs[ch := subs[ch].(buffer := subs[ch].buffer + [msg])];
        }
        todo := todo - {ch};
      }
    }

    /** One message taken from the Redis subscription by Run. */
    method RunOne(channel: string, msg: M)
      requires Valid()
      modifies this
      ensures View() == Apply(old(View()), Op<M>.Deliver(channel, msg)) && Valid()
    {
      ApplyConsistent(View(), Op<M>.Deliver(channel, msg));
      var rest := TrimPrefix(channel, "inapp:");
      var idx := IndexOf(rest, ':');
      if idx.None? {
        return;
      }
      Publish(rest[..idx.value], rest[idx.value + 1..], msg);
    }

    method Receive(ch: nat) returns (msg: M)
      requires Valid() && ch < |subs| && subs[ch].buffer != []
      modifies this
      ensures View() == Apply(old(View()), Op<M>.Receive(ch)) && msg == old(subs)[ch].buffer[0]
      ensures Valid()
    {
      ApplyConsistent(View(), Op<M>.Receive(ch));
      msg := subs[ch].buffer[0];
      subs := subs[ch := subs[ch].(buffer := subs[ch].buffer[1..], received := subs[ch].received + [msg])];
    }
  }

  // ---------------------------------------------------------------------- runs

  ghost function Run<M>(capacity: nat, ops: seq<Op<M>>): State<M> {
    if ops == [] then Empty(capacity)
    else Apply(Run(capacity, ops[..|ops| - 1]), ops[|ops| - 1])
  }

  /** Every operation of the run was enabled when it was taken. */
  ghost predicate ValidRun<M>(capacity: nat, ops: seq<Op<M>>) {
    ops == [] ||
    (ValidRun(capacity, ops[..|ops| - 1]) && Enabled(Run(capacity, ops[..|ops| - 1]), ops[|ops| - 1]))
  }

  /** Every channel is registered under its own key only, and only while open; no key
      keeps an empty entry; no buffer is over capacity. */
  ghost predicate Consistent<M>(s: State<M>) {
    && (forall key :: key in s.conns ==> s.conns[key] != {})
    && (forall key, ch: nat {:trigger ch in Registered(s, key)} :: ch in Registered(s, key) ==>
          ch < |s.subs| && s.subs[ch].key == key && s.subs[ch].open)
    && (forall ch :: 0 <= ch < |s.subs| && s.subs[ch].open ==> ch in Registered(s, s.subs[ch].key))
    && (forall ch :: 0 <= ch < |s.subs| ==> |s.subs[ch].buffer| <= s.capacity)
  }

  lemma SubscribeConsistent<M>(s: State<M>, t: string, r: string)
    requires Consistent(s)
    ensures Consistent(Apply(s, Subscribe(t, r)))
  {
    var s', mine := Apply(s, Subscribe(t, r)), HubKey(t, r);
    forall key, ch: nat | ch in Registered(s', key)
      ensures ch < |s'.subs| && s'.subs[ch].key == key && s'.subs[ch].open
    {
      assert (key == mine && ch == |s.subs|) || ch in Registered(s, key);
    }
    forall c | 0 <= c < |s'.subs| && s'.subs[c].open ensures c in Registered(s', s'.subs[c].key) {
      assert c == |s.subs| || c in Registered(s, s.subs[c].key);
    }
  }

  lemma CancelConsistent<M>(s: State<M>, ch: nat)
    requires Consistent(s) && Enabled(s, Cancel(ch))
    ensures Consistent(Apply(s, Cancel(ch)))
  {
    var s', mine := Apply(s, Cancel(ch)), s.subs[ch].key;
    assert ch in Registered(s, mine);
    assert forall key :: Registered(s', key) == if key == mine then Registered(s, key) - {ch} else Registered(s, key);
    forall key, c: nat | c in Registered(s', key)
      ensures c < |s'.subs| && s'.subs[c].key == key && s'.subs[c].open
    {
      assert c in Registered(s, key) && c != ch;
    }
    forall c | 0 <= c < |s'.subs| && s'.subs[c].open ensures c in Registered(s', s'.subs[c].key) {
      assert c != ch && c in Registered(s, s.subs[c].key);
    }
  }

  lemma SameRegistration<M>(s: State<M>, s': State<M>)
    requires Consistent(s) && s'.conns == s.conns && s'.capacity == s.capacity && |s'.subs| == |s.subs|
    requires forall c :: 0 <= c < |s.subs| ==>
               s'.subs[c].key == s.subs[c].key && s'.subs[c].open == s.subs[c].open
               && |s'.subs[c].buffer| <= s.capacity
    ensures Consistent(s')
  {
    assert forall key :: Registered(s', key) == Registered(s, key);
  }

  lemma ApplyConsistent<M>(s: State<M>, op: Op<M>)
    requires Consistent(s)
    ensures Consistent(Apply(s, op))
  {
    if Enabled(s, op) {
      match op
      case Subscribe(t, r) => SubscribeConsistent(s, t, r);
      case Cancel(ch) => CancelConsistent(s, ch);
      case Deliver(channel, msg) => SameRegistration(s, Apply(s, op));
      case Receive(ch) => SameRegistration(s, Apply(s, op));
    }
  }

  lemma {:induction false} RunConsistent<M>(capacity: nat, ops: seq<Op<M>>)
    requires ValidRun(capacity, ops)
    ensures Consistent(Run(capacity, ops)) && Run(capacity, ops).capacity == capacity
  {
    if ops == [] {
    } else {
      var n := |ops| - 1;
      RunConsistent(capacity, ops[..n]);
      ApplyConsistent(Run(capacity, ops[..n]), ops[n]);
    }
  }

  // --------------------------------------------- what a subscriber should have seen

  /** Read off the trace alone: the number of subscriptions, whose each one is, whether it
      has been cancelled, and the messages addressed to it while it was active. */
  ghost function Owners<M>(ops: seq<Op<M>>): seq<(string, string)> {
    if ops == [] then []
    else
      var last := ops[|ops| - 1];
      Owners(ops[..|ops| - 1]) + (if last.Subscribe? then [(last.tenant, last.recipient)] else [])
  }

  ghost predicate Active<M>(ops: seq<Op<M>>, ch: nat) {
    ch < |Owners(ops)| && Op<M>.Cancel(ch) !in ops
  }

  ghost predicate Addressed<M>(before: seq<Op<M>>, op: Op<M>, ch: nat) {
    op.Deliver? && Active(before, ch) && ParseChannel(op.channel) == Some(Owners(before)[ch])
  }

  ghost function Offered<M>(ops: seq<Op<M>>, ch: nat): seq<M> {
    if ops == [] then []
    else
      var before, last := ops[..|ops| - 1], ops[|ops| - 1];
      Offered(before, ch) + (if Addressed(before, last, ch) then [last.msg] else [])
  }

  /** How many of those found the subscriber's buffer full. */
  ghost function Drops<M>(capacity: nat, ops: seq<Op<M>>, ch: nat): nat
  {
    if ops == [] then 0
    else
      var before, last := ops[..|ops| - 1], ops[|ops| - 1];
      var full := ch < |Run(capacity, before).subs| && |Run(capacity, before).subs[ch].buffer| >= capacity;
      Drops(capacity, before, ch) + (if Addressed(before, last, ch) && full then 1 else 0)
  }

  ghost predicate ColonFree<M>(ops: seq<Op<M>>) {
    forall op :: op in ops && op.Subscribe? ==> ':' !in op.tenant
  }

  /** Everything that ever entered the subscriber's buffer, in order. */
  function Seen<M>(s: State<M>, ch: nat): seq<M>
    requires ch < |s.subs|
  {
    s.subs[ch].received + s.subs[ch].buffer
  }

  ghost predicate Subsequence<M>(a: seq<M>, b: seq<M>) {
    a == [] ||
    (b != [] && ((a[|a| - 1] == b[|b| - 1] && Subsequence(a[..|a| - 1], b[..|b| - 1]))
                 || Subsequence(a, b[..|b| - 1])))
  }

  /** seen is offered with some messages left out, as many as were dropped. */
  ghost predicate Thinned<M>(seen: seq<M>, offered: seq<M>, drops: nat) {
    && Subsequence(seen, offered)
    && |seen| + drops == |offered|
    && (drops == 0 ==> seen == offered)
  }

  lemma ThinnedExtend<M>(seen: seq<M>, offered: seq<M>, drops: nat, x: M)
    requires Thinned(seen, offered, drops)
    ensures Thinned(seen + [x], offered + [x], drops) && Thinned(seen, offered + [x], drops + 1)
  {
    assert (offered + [x])[..|offered|] == offered && (seen + [x])[..|seen|] == seen;
  }

  /** The implementation's records agree with the trace. */
  ghost predicate Tracks<M>(s: State<M>, ops: seq<Op<M>>) {
    && |s.subs| == |Owners(ops)|
    && forall ch :: 0 <= ch < |s.subs| ==>
         && s.subs[ch].key == HubKey(Owners(ops)[ch].0, Owners(ops)[ch].1)
         && (s.subs[ch].open <==> Active(ops, ch))
         && ':' !in Owners(ops)[ch].0
  }

  lemma TracksStep<M>(s: State<M>, before: seq<Op<M>>, op: Op<M>)
    requires Consistent(s) && Enabled(s, op) && Tracks(s, before)
    requires op.Subscribe? ==> ':' !in op.tenant
    requires forall c: nat :: Op<M>.Cancel(c) in before ==> c < |s.subs|
    ensures Tracks(Apply(s, op), before + [op])
  {
    var ops := before + [op];
    assert ops[..|ops| - 1] == before;
    var s' := Apply(s, op);
    forall ch | 0 <= ch < |s'.subs|
      ensures s'.subs[ch].open <==> Active(ops, ch)
    {
      assert Op<M>.Cancel(ch) in ops <==> Op<M>.Cancel(ch) in before || op == Op<M>.Cancel(ch);
    }
  }

  lemma {:induction false} RunTracks<M>(capacity: nat, ops: seq<Op<M>>)
    requires ValidRun(capacity, ops) && ColonFree(ops)
    ensures Tracks(Run(capacity, ops), ops)
    ensures forall c: nat :: Op<M>.Cancel(c) in ops ==> c < |Run(capacity, ops).subs|
  {
    if ops == [] {
    } else {
      var n := |ops| - 1;
      var before, op := ops[..n], ops[n];
      assert ops == before + [op];
      assert op in ops && forall o :: o in before ==> o in ops;
      RunTracks(capacity, before);
      RunConsistent(capacity, before);
      TracksStep(Run(capacity, before), before, op);
    }
  }

  /** A step adds to what a subscriber has seen exactly the message addressed to it, if
      its buffer has room: fan-out reaches the named recipient's subscribers and no other. */
  lemma SeenStep<M>(s: State<M>, before: seq<Op<M>>, op: Op<M>, ch: nat)
    requires Consistent(s) && Enabled(s, op) && Tracks(s, before) && ch < |s.subs|
    ensures ch < |Apply(s, op).subs|
    ensures Seen(Apply(s, op), ch)
         == Seen(s, ch) + (if Addressed(before, op, ch) && |s.subs[ch].buffer| < s.capacity then [op.msg] else [])
  {
    var s' := Apply(s, op);
    match op
    case Subscribe(t, r) =>
    case Cancel(c) =>
    case Deliver(channel, msg) =>
      var target := ParseChannel(channel);
      if target.Some? {
        var owner := Owners(before)[ch];
        KeyInjective(target.value.0, target.value.1, owner.0, owner.1);
        assert ch in Registered(s, HubKey(target.value.0, target.value.1)) <==> Addressed(before, op, ch);
        assert s.subs[ch].received + (s.subs[ch].buffer + [msg]) == Seen(s, ch) + [msg];
      }
    case Receive(c) =>
      if c == ch {
        var sub := s.subs[ch];
        assert sub.received + [sub.buffer[0]] + sub.buffer[1..] == sub.received + sub.buffer;
      }
  }

  lemma FifoStep<M>(capacity: nat, before: seq<Op<M>>, op: Op<M>, ch: nat)
    requires var s := Run(capacity, before);
             Consistent(s) && s.capacity == capacity && Enabled(s, op) && Tracks(s, before) && ch < |s.subs|
    requires Thinned(Seen(Run(capacity, before), ch), Offered(before, ch), Drops(capacity, before, ch))
    ensures ch < |Run(capacity, before + [op]).subs|
    ensures Thinned(Seen(Run(capacity, before + [op]), ch), Offered(before + [op], ch), Drops(capacity, before + [op], ch))
  {
    var s, ops := Run(capacity, before), before + [op];
    assert ops[..|ops| - 1] == before && ops[|ops| - 1] == op;
    var seen, offered, drops := Seen(s, ch), Offered(before, ch), Drops(capacity, before, ch);
    SeenStep(s, before, op, ch);
    if Addressed(before, op, ch) {
      ThinnedExtend(seen, offered, drops, op.msg);
      assert seen + [] == seen;
    } else {
      assert Seen(Run(capacity, ops), ch) == seen && Offered(ops, ch) == offered;
    }
  }

  lemma FifoStart<M>(capacity: nat, before: seq<Op<M>>, op: Op<M>, ch: nat)
    requires |Run(capacity, before).subs| == |Owners(before)| <= ch < |Run(capacity, before + [op]).subs|
    ensures Thinned(Seen(Run(capacity, before + [op]), ch), Offered(before + [op], ch), Drops(capacity, before + [op], ch))
  {
    var ops := before + [op];
    assert ops[..|ops| - 1] == before && ops[|ops| - 1] == op;
    NotYetSubscribed(capacity, before, ch);
    assert op.Subscribe?;
    assert Seen(Run(capacity, ops), ch) == [];
  }

  /** Hub FIFO refinement.  In every run, what a subscriber has received plus what waits in
      its buffer is an in-order subsequence of the messages published to its own tenant and
      recipient while it was subscribed, and is all of them exactly if none found its buffer
      full; the difference in length is the number that did. */
  lemma {:induction false} FifoRefinement<M>(capacity: nat, ops: seq<Op<M>>, ch: nat)
    requires ValidRun(capacity, ops) && ColonFree(ops) && ch < |Run(capacity, ops).subs|
    ensures Thinned(Seen(Run(capacity, ops), ch), Offered(ops, ch), Drops(capacity, ops, ch))
    ensures Seen(Run(capacity, ops), ch) == Offered(ops, ch) <==> Drops(capacity, ops, ch) == 0
    decreases |ops|
  {
    var n := |ops| - 1;
    var before, op := ops[..n], ops[n];
    assert ops == before + [op];
    assert ColonFree(before) by { assert forall o :: o in before ==> o in ops; }
    RunTracks(capacity, before);
    RunConsistent(capacity, before);
    if ch < |Run(capacity, before).subs| {
      FifoRefinement(capacity, before, ch);
      FifoStep(capacity, before, op, ch);
    } else {
      FifoStart(capacity, before, op, ch);
    }
  }

  lemma {:induction false} NotYetSubscribed<M>(capacity: nat, ops: seq<Op<M>>, ch: nat)
    requires ch >= |Owners(ops)|
    ensures Offered(ops, ch) == [] && Drops(capacity, ops, ch) == 0
  {
    if ops == [] {
    } else {
      NotYetSubscribed(capacity, ops[..|ops| - 1], ch);
    }
  }

  /** The loop of Publish runs after the lock is released.  A channel it picked from the
      registered ones is still open when the send happens exactly if it was not cancelled in
      between; with nothing in between, as in the steps above, no send hits a closed channel.
      Module HubLoop has the loop itself step by step. */
  lemma {:induction false} PickedChannelOpenIff<M>(capacity: nat, before: seq<Op<M>>, between: seq<Op<M>>, key: string, ch: nat)
    requires ValidRun(capacity, before + between) && ch in Registered(Run(capacity, before), key)
    ensures var s := Run(capacity, before + between);
            ch < |s.subs| && (s.subs[ch].open <==> Op<M>.Cancel(ch) !in between)
    decreases |between|
  {
    if between == [] {
      assert before + between == before;
      RunConsistent(capacity, before);
    } else {
      var n := |between| - 1;
      var most, last := between[..n], between[n];
      assert between == most + [last];
      assert before + between == before + most + [last];
      OneMore(capacity, before + most, last);
      PickedChannelOpenIff(capacity, before, most, key, ch);
      OpenStep(Run(capacity, before + most), last, ch);
    }
  }

  lemma OneMore<M>(capacity: nat, ops: seq<Op<M>>, op: Op<M>)
    requires ValidRun(capacity, ops + [op])
    ensures ValidRun(capacity, ops) && Enabled(Run(capacity, ops), op)
    ensures Run(capacity, ops + [op]) == Apply(Run(capacity, ops), op)
  {
    assert (ops + [op])[..|ops + [op]| - 1] == ops;
  }

  lemma OpenStep<M>(s: State<M>, op: Op<M>, ch: nat)
    requires Enabled(s, op) && ch < |s.subs|
    ensures var s' := Apply(s, op); ch < |s'.subs| && (s'.subs[ch].open <==> s.subs[ch].open && op != Op<M>.Cancel(ch))
  {
  }
}
