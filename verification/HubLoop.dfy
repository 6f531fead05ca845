/** The loop of Publish as it is (internal/realtime/hub.go).

    Publish takes the inner map of its key under the read lock and iterates over it after
    releasing the lock, while subscribe and cancel go on changing that map; cancel closes the
    channel only after it has released the lock in its turn.  Here each critical section, each
    step of an iteration, each send and each close is a step of its own.

    Inner maps are objects: one is made when a key gets its first channel and dropped from the
    hub when it is empty, and an iteration stays with the object it began with.  As the Go
    specification has it, an iteration visits no entry twice and none that was removed before
    it got there, visits every entry that is there from beginning to end, and may or may not
    visit entries added meanwhile. */
module HubLoop {
  import opened Collections

  /** home is the inner map the channel was put into; a channel that is leaving has been taken
      out of it again. */
  datatype Channel = Channel(key: string, home: nat, buffer: seq<string>, received: seq<string>, leaving: bool, open: bool)

  /** An iteration: over which map, what was in it at the beginning, the channels sent to, and
      the one it is about to send to. */
  datatype Loop = Loop(
    key: string, msg: string, over: Option<nat>, initial: set<nat>, visited: seq<nat>, picked: Option<nat>, ended: bool)

  datatype State = State(
    capacity: nat,
    channels: seq<Channel>,
    maps: seq<set<nat>>,      // the inner maps ever made
    owners: seq<string>,      // the key each was made for
    conns: map<string, nat>,  // the inner map of each key
    loops: seq<Loop>,
    panicked: bool)           // something was sent on a closed channel

  datatype Step =
    | Subscribe(key: string)
    | Unregister(ch: nat)
    | Close(ch: nat)
    | Receive(ch: nat)
    | Begin(key: string, msg: string)
    | Pick(p: nat, ch: nat)
    | Send(p: nat)
    | End(p: nat)

  function Start(capacity: nat): State {
    State(capacity, [], [], [], map[], [], false)
  }

  predicate Running(s: State, p: nat) {
    p < |s.loops| && !s.loops[p].ended
  }

  /** What is in the map an iteration goes over now. */
  function Entries(s: State, over: Option<nat>): set<nat> {
    if over.Some? && over.value < |s.maps| then s.maps[over.value] else {}
  }

  ghost predicate Enabled(s: State, step: Step) {
    match step
    case Subscribe(_) => true
    case Unregister(ch) => ch < |s.channels| && !s.channels[ch].leaving
    case Close(ch) => ch < |s.channels| && s.channels[ch].leaving && s.channels[ch].open
    case Receive(ch) => ch < |s.channels| && s.channels[ch].buffer != []
    case Begin(_, _) => true
    case Pick(p, ch) =>
      Running(s, p) && s.loops[p].picked.None? && ch in Entries(s, s.loops[p].over) && ch !in s.loops[p].visited
    case Send(p) => Running(s, p) && s.loops[p].picked.Some? && s.loops[p].picked.value < |s.channels|
    case End(p) =>
      Running(s, p) && s.loops[p].picked.None?
      && forall ch :: ch in s.loops[p].initial && ch in Entries(s, s.loops[p].over) ==> ch in s.loops[p].visited
  }

  function Apply(s: State, step: Step): State
    requires Enabled(s, step)
  {
    match step
    case Subscribe(key) => ApplySubscribe(s, key)
    case Unregister(ch) => ApplyUnregister(s, ch)
    case Close(ch) => s.(channels := s.channels[ch := s.channels[ch].(open := false)])
    case Receive(ch) =>
      var c := s.channels[ch];
      s.(channels := s.channels[ch := c.(received := c.received + [c.buffer[0]], buffer := c.buffer[1..])])
    case Begin(key, msg) =>
      var over := if key in s.conns then Some(s.conns[key]) else None;
      s.(loops := s.loops + [Loop(key, msg, over, Entries(s, over), [], None, false)])
    case Pick(p, ch) => s.(loops := s.loops[p := s.loops[p].(picked := Some(ch))])
    case Send(p) => ApplySend(s, p)
    case End(p) => s.(loops := s.loops[p := s.loops[p].(ended := true)])
  }

  function ApplySubscribe(s: State, key: string): State {
    var ch := |s.channels|;
    if key in s.conns && s.conns[key] < |s.maps| then
      var m := s.conns[key];
      s.(channels := s.channels + [Channel(key, m, [], [], false, true)], maps := s.maps[m := s.maps[m] + {ch}])
    else
      var m := |s.maps|;
      s.(channels := s.channels + [Channel(key, m, [], [], false, true)],
         maps := s.maps + [{ch}], owners := s.owners + [key], conns := s.conns[key := m])
  }

  /** delete the channel from the key's map, and the key if its map is empty */
  function ApplyUnregister(s: State, ch: nat): State
    requires ch < |s.channels|
  {
    var c := s.channels[ch];
    var left := s.(channels := s.channels[ch := c.(leaving := true)]);
    if c.key in s.conns && s.conns[c.key] < |s.maps| then
      var m := s.conns[c.key];
      left.(maps := s.maps[m := s.maps[m] - {ch}], conns := if s.maps[m] - {ch} == {} then s.conns - {c.key} else s.conns)
    else left
  }

  /** A non-blocking send: dropped when the buffer is full; on a closed channel Go panics. */
  function ApplySend(s: State, p: nat): State
    requires p < |s.loops| && s.loops[p].picked.Some? && s.loops[p].picked.value < |s.channels|
  {
    var l := s.loops[p];
    var ch := l.picked.value;
    var c := s.channels[ch];
    var on := s.(loops := s.loops[p := l.(visited := l.visited + [ch], picked := None)]);
    if !c.open then on.(panicked := true)
    else if |c.buffer| < s.capacity then on.(channels := s.channels[ch := c.(buffer := c.buffer + [l.msg])])
    else on
  }

  // ------------------------------------------------------------------------- runs

  ghost predicate NextAt(steps: seq<Step>, states: seq<State>, k: nat)
    requires k < |steps| && k + 1 < |states|
  {
    Enabled(states[k], steps[k]) && states[k + 1] == Apply(states[k], steps[k])
  }

  ghost predicate IsRun(capacity: nat, steps: seq<Step>, states: seq<State>) {
    && |states| == |steps| + 1 && states[0] == Start(capacity)
    && (forall k {:trigger NextAt(steps, states, k)} :: 0 <= k < |steps| ==> NextAt(steps, states, k))
  }

  // -------------------------------------------------------------------- invariant

  /** A channel is in its home map exactly while it is not leaving, and open until it is closed
      after that. */
  ghost predicate ChannelOk(s: State, ch: nat)
    requires ch < |s.channels|
  {
    var c := s.channels[ch];
    && c.home < |s.maps| && |s.owners| == |s.maps| && c.key == s.owners[c.home]
    && (!c.leaving ==> c.open && ch in s.maps[c.home] && c.key in s.conns && s.conns[c.key] == c.home)
  }

  ghost predicate MapOk(s: State, m: nat)
    requires m < |s.maps|
  {
    forall ch :: ch in s.maps[m] ==> ch < |s.channels| && s.channels[ch].home == m && !s.channels[ch].leaving
  }

  ghost predicate KeyOk(s: State, key: string)
    requires key in s.conns
  {
    s.conns[key] < |s.maps| && |s.owners| == |s.maps| && s.owners[s.conns[key]] == key && s.maps[s.conns[key]] != {}
  }

  /** A channel of the map an iteration goes over. */
  ghost predicate OfLoop(s: State, l: Loop, ch: nat) {
    l.over.Some? && ch < |s.channels| && s.channels[ch].home == l.over.value && s.channels[ch].key == l.key
  }

  ghost predicate LoopOk(s: State, l: Loop) {
    && (l.over.Some? ==> l.over.value < |s.maps| && |s.owners| == |s.maps| && s.owners[l.over.value] == l.key)
    && (forall ch :: ch in l.initial || ch in l.visited || l.picked == Some(ch) ==> OfLoop(s, l, ch))
    && (forall i, j :: 0 <= i < j < |l.visited| ==> l.visited[i] != l.visited[j])
    && (l.picked.Some? ==> l.picked.value !in l.visited)
    && (l.ended ==> l.picked.None? && forall ch :: ch in l.initial ==> s.channels[ch].leaving || ch in l.visited)
  }

  ghost predicate Inv(s: State) {
    && (forall ch :: 0 <= ch < |s.channels| ==> ChannelOk(s, ch))
    && (forall m :: 0 <= m < |s.maps| ==> MapOk(s, m))
    && (forall key :: key in s.conns ==> KeyOk(s, key))
    && |s.owners| == |s.maps|
    && (forall p :: 0 <= p < |s.loops| ==> LoopOk(s, s.loops[p]))
  }

  // ------------------------------------------------------------------ preservation

  /** Channels keep their key and home, and only ever leave and close; maps keep their owner. */
  ghost predicate Later(s: State, s': State) {
    && |s.channels| <= |s'.channels| && |s.maps| <= |s'.maps| && |s.owners| <= |s'.owners|
    && (forall ch :: 0 <= ch < |s.channels| ==>
          && s'.channels[ch].key == s.channels[ch].key && s'.channels[ch].home == s.channels[ch].home
          && (s.channels[ch].leaving ==> s'.channels[ch].leaving))
    && (forall m :: 0 <= m < |s.owners| ==> s'.owners[m] == s.owners[m])
    && (|s.owners| == |s.maps| ==> |s'.owners| == |s'.maps|)
  }

  lemma StepLater(s: State, step: Step)
    requires Enabled(s, step)
    ensures Later(s, Apply(s, step))
  {
  }

  lemma LoopStays(s: State, s': State, l: Loop)
    requires LoopOk(s, l) && Later(s, s') && |s.owners| == |s.maps|
    ensures LoopOk(s', l)
  {
    forall ch | ch in l.initial || ch in l.visited || l.picked == Some(ch) ensures OfLoop(s', l, ch) {
      assert OfLoop(s, l, ch);
    }
  }

  lemma SubscribeInv(s: State, key: string)
    requires Inv(s)
    ensures var s' := Apply(s, Subscribe(key));
            && (forall ch :: 0 <= ch < |s'.channels| ==> ChannelOk(s', ch))
            && (forall m :: 0 <= m < |s'.maps| ==> MapOk(s', m))
            && (forall k :: k in s'.conns ==> KeyOk(s', k))
  {
    var s' := Apply(s, Subscribe(key));
    assert key in s.conns ==> KeyOk(s, key);
    forall ch | 0 <= ch < |s'.channels| ensures ChannelOk(s', ch) {
      if ch < |s.channels| {
        assert ChannelOk(s, ch);
      }
    }
    forall m | 0 <= m < |s'.maps| ensures MapOk(s', m) {
      if m < |s.maps| {
        assert MapOk(s, m);
      }
    }
    forall k | k in s'.conns ensures KeyOk(s', k) {
      if k in s.conns {
        assert KeyOk(s, k);
      }
    }
  }

  lemma UnregisterInv(s: State, ch: nat)
    requires Inv(s) && Enabled(s, Unregister(ch))
    ensures var s' := Apply(s, Unregister(ch));
            && (forall c :: 0 <= c < |s'.channels| ==> ChannelOk(s', c))
            && (forall m :: 0 <= m < |s'.maps| ==> MapOk(s', m))
            && (forall k :: k in s'.conns ==> KeyOk(s', k))
  {
    var s' := Apply(s, Unregister(ch));
    assert ChannelOk(s, ch);
    forall c | 0 <= c < |s'.channels| ensures ChannelOk(s', c) {
      assert ChannelOk(s, c);
    }
    forall m | 0 <= m < |s'.maps| ensures MapOk(s', m) {
      assert MapOk(s, m);
    }
    forall k | k in s'.conns ensures KeyOk(s', k) {
      assert KeyOk(s, k);
    }
  }

  /** The other steps leave maps and registration alone. */
  lemma OtherInv(s: State, step: Step)
    requires Inv(s) && Enabled(s, step) && !step.Subscribe? && !step.Unregister?
    ensures var s' := Apply(s, step);
            && (forall c :: 0 <= c < |s'.channels| ==> ChannelOk(s', c))
            && (forall m :: 0 <= m < |s'.maps| ==> MapOk(s', m))
            && (forall k :: k in s'.conns ==> KeyOk(s', k))
  {
    var s' := Apply(s, step);
    forall c | 0 <= c < |s'.channels| ensures ChannelOk(s', c) {
      assert ChannelOk(s, c);
    }
    forall m | 0 <= m < |s'.maps| ensures MapOk(s', m) {
      assert MapOk(s, m);
    }
    forall k | k in s'.conns ensures KeyOk(s', k) {
      assert KeyOk(s, k);
    }
  }

  /** The loop that took the step is as it should be. */
  lemma BeginOk(s: State, key: string, msg: string)
    requires Inv(s)
    ensures var s' := Apply(s, Begin(key, msg)); LoopOk(s', s'.loops[|s.loops|])
  {
    var s' := Apply(s, Begin(key, msg));
    var l := s'.loops[|s.loops|];
    if key in s.conns {
      assert KeyOk(s, key) && MapOk(s, s.conns[key]);
      forall ch | ch in l.initial ensures OfLoop(s', l, ch) {
        assert ChannelOk(s, ch);
      }
    }
  }

  lemma PickOk(s: State, p: nat, ch: nat)
    requires Inv(s) && Enabled(s, Pick(p, ch))
    ensures LoopOk(Apply(s, Pick(p, ch)), Apply(s, Pick(p, ch)).loops[p])
  {
    assert LoopOk(s, s.loops[p]);
    assert MapOk(s, s.loops[p].over.value);
    assert ChannelOk(s, ch);
    LoopStays(s, Apply(s, Pick(p, ch)), s.loops[p]);
  }

  lemma SendOk(s: State, p: nat)
    requires Inv(s) && Enabled(s, Send(p))
    ensures LoopOk(Apply(s, Send(p)), Apply(s, Send(p)).loops[p])
  {
    var s' := Apply(s, Send(p));
    assert LoopOk(s, s.loops[p]);
    StepLater(s, Send(p));
    LoopStays(s, s', s.loops[p]);
    assert s'.loops[p].visited == s.loops[p].visited + [s.loops[p].picked.value];
  }

  lemma EndOk(s: State, p: nat)
    requires Inv(s) && Enabled(s, End(p))
    ensures LoopOk(Apply(s, End(p)), Apply(s, End(p)).loops[p])
  {
    var l := s.loops[p];
    assert LoopOk(s, l);
    forall ch | ch in l.initial ensures s.channels[ch].leaving || ch in l.visited {
      assert OfLoop(s, l, ch) && ChannelOk(s, ch);
    }
    LoopStays(s, Apply(s, End(p)), l);
  }

  lemma LoopsInv(s: State, step: Step)
    requires Inv(s) && Enabled(s, step)
    ensures forall p :: 0 <= p < |Apply(s, step).loops| ==> LoopOk(Apply(s, step), Apply(s, step).loops[p])
  {
    var s' := Apply(s, step);
    StepLater(s, step);
    forall p | 0 <= p < |s'.loops| ensures LoopOk(s', s'.loops[p]) {
      if p < |s.loops| && s'.loops[p] == s.loops[p] {
        LoopStays(s, s', s.loops[p]);
      } else {
        match step
        case Begin(key, msg) => BeginOk(s, key, msg);
        case Pick(q, ch) => PickOk(s, q, ch);
        case Send(q) => SendOk(s, q);
        case End(q) => EndOk(s, q);
      }
    }
  }

  lemma StepInv(s: State, step: Step)
    requires Inv(s) && Enabled(s, step)
    ensures Inv(Apply(s, step))
  {
    StepLater(s, step);
    LoopsInv(s, step);
    match step
    case Subscribe(key) => SubscribeInv(s, key);
    case Unregister(ch) => UnregisterInv(s, ch);
    case _ => OtherInv(s, step);
  }

  /** Every reachable state of any number of iterations, subscribes and cancels. */
  lemma {:induction false} RunInv(capacity: nat, steps: seq<Step>, states: seq<State>, k: nat)
    requires IsRun(capacity, steps, states) && k <= |steps|
    ensures Inv(states[k])
  {
    if k == 0 {
    } else {
      RunInv(capacity, steps, states, k - 1);
      assert NextAt(steps, states, k - 1);
      StepInv(states[k - 1], steps[k - 1]);
    }
  }

  // ---------------------------------------------------------------------- theorems

  /** An iteration sends to channels of its own key only, to none twice, and, once it has ended,
      to every channel that was registered at its beginning and still is. */
  lemma LoopExact(capacity: nat, steps: seq<Step>, states: seq<State>, k: nat, p: nat)
    requires IsRun(capacity, steps, states) && k <= |steps| && p < |states[k].loops|
    ensures var s, l := states[k], states[k].loops[p];
            && (forall ch :: ch in l.visited ==> ch < |s.channels| && s.channels[ch].key == l.key)
            && (forall i, j :: 0 <= i < j < |l.visited| ==> l.visited[i] != l.visited[j])
            && (l.ended ==> forall ch :: ch in l.initial ==> ch < |s.channels| && (s.channels[ch].leaving || ch in l.visited))
  {
    RunInv(capacity, steps, states, k);
    var s, l := states[k], states[k].loops[p];
    assert LoopOk(s, l);
    assert forall ch :: ch in l.initial || ch in l.visited ==> OfLoop(s, l, ch);
  }

  /** What an iteration finds at its beginning are the registered channels of its key. */
  lemma InitialIsRegistered(capacity: nat, steps: seq<Step>, states: seq<State>, k: nat, key: string, msg: string, ch: nat)
    requires IsRun(capacity, steps, states) && k < |steps| && steps[k] == Begin(key, msg) && ch < |states[k].channels|
    ensures |states[k + 1].loops| == |states[k].loops| + 1
    ensures ch in states[k + 1].loops[|states[k].loops|].initial
       <==> states[k].channels[ch].key == key && !states[k].channels[ch].leaving
  {
    RunInv(capacity, steps, states, k);
    assert NextAt(steps, states, k);
    var s := states[k];
    assert ChannelOk(s, ch);
    if key in s.conns {
      assert KeyOk(s, key) && MapOk(s, s.conns[key]);
    }
  }

  /** An iteration keeps what it began with. */
  lemma {:induction false} LoopKeeps(capacity: nat, steps: seq<Step>, states: seq<State>, j: nat, k: nat, p: nat)
    requires IsRun(capacity, steps, states) && j <= k <= |steps| && p < |states[j].loops|
    ensures p < |states[k].loops| && states[k].loops[p].initial == states[j].loops[p].initial
    ensures states[k].loops[p].key == states[j].loops[p].key && states[k].loops[p].msg == states[j].loops[p].msg
    decreases k
  {
    if j == k {
    } else {
      LoopKeeps(capacity, steps, states, j, k - 1, p);
      assert NextAt(steps, states, k - 1);
    }
  }

  /** An iteration has ended exactly if its End step was taken. */
  lemma {:induction false} EndedIff(capacity: nat, steps: seq<Step>, states: seq<State>, n: nat, p: nat)
    requires IsRun(capacity, steps, states) && n <= |steps|
    ensures p < |states[n].loops| && states[n].loops[p].ended <==> End(p) in steps[..n]
  {
    if n == 0 {
    } else {
      EndedIff(capacity, steps, states, n - 1, p);
      assert NextAt(steps, states, n - 1);
      assert steps[..n] == steps[..n - 1] + [steps[n - 1]];
    }
  }

  /** Fan-out is complete for whoever stays: a channel registered for the key when a publish
      begins, and still registered when it has ended, was sent to, exactly once. */
  lemma StayersGetIt(capacity: nat, steps: seq<Step>, states: seq<State>, j: nat, k: nat, key: string, msg: string, ch: nat)
    requires IsRun(capacity, steps, states) && j < k <= |steps| && steps[j] == Begin(key, msg)
    requires ch < |states[j].channels| && states[j].channels[ch].key == key
    requires ch < |states[k].channels| && !states[k].channels[ch].leaving
    ensures |states[j].loops| < |states[k].loops|
    ensures states[k].loops[|states[j].loops|].ended ==> multiset(states[k].loops[|states[j].loops|].visited)[ch] == 1
  {
    var p := |states[j].loops|;
    NeverReturns(capacity, steps, states, j, k, ch);
    InitialIsRegistered(capacity, steps, states, j, key, msg, ch);
    LoopKeeps(capacity, steps, states, j + 1, k, p);
    LoopExact(capacity, steps, states, k, p);
    var l := states[k].loops[p];
    if l.ended {
      OnceInSequence(l.visited, ch);
    }
  }

  lemma {:induction false} OnceInSequence(s: seq<nat>, x: nat)
    requires x in s && forall i, j :: 0 <= i < j < |s| ==> s[i] != s[j]
    ensures multiset(s)[x] == 1
  {
    var n := |s| - 1;
    assert s == s[..n] + [s[n]];
    if s[n] == x {
      assert x !in s[..n];
    } else {
      OnceInSequence(s[..n], x);
    }
  }

  lemma {:induction false} NeverReturns(capacity: nat, steps: seq<Step>, states: seq<State>, j: nat, k: nat, ch: nat)
    requires IsRun(capacity, steps, states) && j <= k <= |steps| && ch < |states[j].channels|
    ensures ch < |states[k].channels| && (states[j].channels[ch].leaving ==> states[k].channels[ch].leaving)
    decreases k
  {
    if j == k {
    } else {
      NeverReturns(capacity, steps, states, j, k - 1, ch);
      assert NextAt(steps, states, k - 1);
      StepLater(states[k - 1], steps[k - 1]);
    }
  }

  /** Between its being picked and the send, a channel is open until it is closed. */
  lemma {:induction false} PickedOpenIff(capacity: nat, steps: seq<Step>, states: seq<State>, j: nat, k: nat, p: nat, ch: nat)
    requires IsRun(capacity, steps, states) && j < k <= |steps| && steps[j] == Pick(p, ch)
    requires forall i :: j < i < k ==> steps[i] != Send(p)
    ensures p < |states[k].loops| && states[k].loops[p].picked == Some(ch) && ch < |states[k].channels|
    ensures states[k].channels[ch].open <==> Close(ch) !in steps[j + 1..k]
    decreases k
  {
    assert NextAt(steps, states, k - 1);
    if k == j + 1 {
      RunInv(capacity, steps, states, j);
      PickedOpen(states[j], p, ch);
      assert steps[j + 1..k] == [];
    } else {
      PickedOpenIff(capacity, steps, states, j, k - 1, p, ch);
      assert steps[j + 1..k] == steps[j + 1..k - 1] + [steps[k - 1]];
      OpenStep(states[k - 1], steps[k - 1], p, ch);
    }
  }

  lemma OpenStep(s: State, step: Step, p: nat, ch: nat)
    requires Enabled(s, step) && step != Send(p) && ch < |s.channels|
    requires p < |s.loops| && s.loops[p].picked == Some(ch)
    ensures var s' := Apply(s, step);
            && p < |s'.loops| && s'.loops[p].picked == Some(ch) && ch < |s'.channels|
            && (s'.channels[ch].open <==> s.channels[ch].open && step != Close(ch))
  {
  }

  /** A send panics exactly if its channel was closed after the iteration had picked it. */
  lemma PanicIff(capacity: nat, steps: seq<Step>, states: seq<State>, j: nat, k: nat, p: nat, ch: nat)
    requires IsRun(capacity, steps, states) && j < k < |steps| && steps[j] == Pick(p, ch) && steps[k] == Send(p)
    requires forall i :: j < i < k ==> steps[i] != Send(p)
    ensures states[k + 1].panicked <==> states[k].panicked || Close(ch) in steps[j + 1..k]
  {
    PickedOpenIff(capacity, steps, states, j, k, p, ch);
    assert NextAt(steps, states, k);
  }

  /** Iteration p is about to send on a channel that is closed. */
  predicate OnClosed(s: State, p: nat) {
    && p < |s.loops| && s.loops[p].picked.Some? && s.loops[p].picked.value < |s.channels|
    && !s.channels[s.loops[p].picked.value].open
  }

  /** Nothing else makes the hub panic. */
  lemma {:induction false} PanickedIff(capacity: nat, steps: seq<Step>, states: seq<State>, n: nat)
    requires IsRun(capacity, steps, states) && n <= |steps|
    ensures states[n].panicked <==> exists k :: 0 <= k < n && steps[k].Send? && OnClosed(states[k], steps[k].p)
  {
    if n == 0 {
    } else {
      PanickedIff(capacity, steps, states, n - 1);
      assert NextAt(steps, states, n - 1);
    }
  }

  /** And that can happen: the subscriber of a picked channel leaves before the send. */
  lemma PanicReachable(capacity: nat, key: string, msg: string) returns (steps: seq<Step>, states: seq<State>)
    ensures IsRun(capacity, steps, states) && states[|steps|].panicked
  {
    steps := [Subscribe(key), Begin(key, msg), Pick(0, 0), Unregister(0), Close(0), Send(0)];
    var s0 := Start(capacity);
    var s1 := Apply(s0, steps[0]);
    var s2 := Apply(s1, steps[1]);
    var s3 := Apply(s2, steps[2]);
    var s4 := Apply(s3, steps[3]);
    var s5 := Apply(s4, steps[4]);
    states := [s0, s1, s2, s3, s4, s5, Apply(s5, steps[5])];
    forall k | 0 <= k < |steps| ensures NextAt(steps, states, k) {
    }
  }

  lemma PickedOpen(s: State, p: nat, ch: nat)
    requires Inv(s) && Enabled(s, Pick(p, ch))
    ensures ch < |s.channels| && s.channels[ch].open
  {
    assert LoopOk(s, s.loops[p]) && MapOk(s, s.loops[p].over.value);
    assert ChannelOk(s, ch);
  }

  // ----------------------------------------------------- the loop as a single step

  /** A non-blocking send to an open channel. */
  function Offer(c: Channel, capacity: nat, msg: string): Channel {
    if |c.buffer| < capacity then c.(buffer := c.buffer + [msg]) else c
  }

  predicate OfIteration(step: Step, p: nat) {
    match step
    case Pick(q, _) => q == p
    case Send(q) => q == p
    case End(q) => q == p
    case _ => false
  }

  /** How far an iteration has got that nothing else came in between of. */
  ghost predicate SoFar(s: State, s': State, p: nat, msg: string, chans: set<nat>) {
    && |s'.channels| == |s.channels| && s'.maps == s.maps && s'.panicked == s.panicked && s'.capacity == s.capacity
    && p < |s'.loops| && s'.loops[p].msg == msg && s'.loops[p].initial == chans == Entries(s', s'.loops[p].over)
    && (forall ch :: ch in s'.loops[p].visited || s'.loops[p].picked == Some(ch) ==> ch in chans)
    && (s'.loops[p].picked.Some? ==> s'.loops[p].picked.value !in s'.loops[p].visited)
    && (s'.loops[p].ended ==> forall ch :: ch in chans ==> ch in s'.loops[p].visited)
    && (forall ch :: 0 <= ch < |s.channels| ==>
          s'.channels[ch] == if ch in s'.loops[p].visited then Offer(s.channels[ch], s.capacity, msg) else s.channels[ch])
  }

  lemma SoFarStep(s: State, t: State, step: Step, p: nat, msg: string, chans: set<nat>)
    requires SoFar(s, t, p, msg, chans) && Enabled(t, step) && OfIteration(step, p)
    requires forall ch :: ch in chans ==> ch < |s.channels| && s.channels[ch].open
    ensures SoFar(s, Apply(t, step), p, msg, chans)
  {
    var t' := Apply(t, step);
    if step.Send? {
      var ch := t.loops[p].picked.value;
      assert t'.loops[p].visited == t.loops[p].visited + [ch];
      assert t.channels[ch] == s.channels[ch];
    }
  }

  lemma {:induction false} RunSoFar(capacity: nat, steps: seq<Step>, states: seq<State>, j: nat, k: nat, key: string, msg: string)
    requires IsRun(capacity, steps, states) && j < k <= |steps| && steps[j] == Begin(key, msg)
    requires forall i :: j < i < k ==> OfIteration(steps[i], |states[j].loops|)
    requires forall ch :: ch in Chans(states[j], key) ==> ch < |states[j].channels| && states[j].channels[ch].open
    ensures SoFar(states[j], states[k], |states[j].loops|, msg, Chans(states[j], key))
    decreases k
  {
    assert NextAt(steps, states, k - 1);
    if k == j + 1 {
    } else {
      RunSoFar(capacity, steps, states, j, k - 1, key, msg);
      SoFarStep(states[j], states[k - 1], steps[k - 1], |states[j].loops|, msg, Chans(states[j], key));
    }
  }

  /** The channels in the map of a key. */
  function Chans(s: State, key: string): set<nat> {
    if key in s.conns && s.conns[key] < |s.maps| then s.maps[s.conns[key]] else {}
  }

  lemma ChansRegistered(s: State, key: string, ch: nat)
    requires Inv(s)
    ensures ch in Chans(s, key) <==> ch < |s.channels| && s.channels[ch].key == key && !s.channels[ch].leaving
    ensures ch in Chans(s, key) ==> s.channels[ch].open
  {
    if key in s.conns {
      assert KeyOk(s, key) && MapOk(s, s.conns[key]);
    }
    if ch < |s.channels| {
      assert ChannelOk(s, ch);
    }
  }

  /** An iteration that nothing comes in between of is the single step of the hub's step
      machine: every registered channel of the key is offered the message once, no other channel
      changes, and nothing is sent on a closed channel. */
  lemma Undisturbed(capacity: nat, steps: seq<Step>, states: seq<State>, j: nat, k: nat, key: string, msg: string)
    requires IsRun(capacity, steps, states) && j < k <= |steps| && steps[j] == Begin(key, msg)
    requires var p := |states[j].loops|;
             forall i :: j < i < k ==> steps[i] == Send(p) || steps[i] == End(p) || (steps[i].Pick? && steps[i].p == p)
    requires |states[j].loops| < |states[k].loops| && states[k].loops[|states[j].loops|].ended
    ensures |states[k].channels| == |states[j].channels| && states[k].panicked == states[j].panicked
    ensures forall ch :: 0 <= ch < |states[j].channels| ==>
              var c := states[j].channels[ch];
              states[k].channels[ch] == if c.key == key && !c.leaving && |c.buffer| < states[j].capacity
                                        then c.(buffer := c.buffer + [msg]) else c
  {
    RunInv(capacity, steps, states, j);
    forall ch: nat
      ensures ch in Chans(states[j], key)
         <==> ch < |states[j].channels| && states[j].channels[ch].key == key && !states[j].channels[ch].leaving
      ensures ch in Chans(states[j], key) ==> states[j].channels[ch].open
    {
      ChansRegistered(states[j], key, ch);
    }
    RunSoFar(capacity, steps, states, j, k, key, msg);
  }
}
