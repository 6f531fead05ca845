/** The sliding-window rate limiter (internal/service/ratelimit.go).

    A key's Redis value is a sorted set in which the member is the score itself, so it is a
    set of timestamps, together with the instant at which the key expires.  Timestamps are
    exact integers (Unix nanoseconds) and one clock is used for scores and for expiry.
    A call either executes its MULTI/EXEC pipeline as a whole or fails without effect. */
module RateLimit {
  import opened Collections

  /** Extra time to live granted beyond the window: one second, in nanoseconds. */
  const SLACK: nat := 1_000_000_000

  datatype KeyLog = KeyLog(entries: set<int>, expiresAt: int)

  /** A key that was never written, or was deleted by expiry, reads as the empty set. */
  const ABSENT := KeyLog({}, 0)

  /** One call on a key: when it was made and whether Redis executed the pipeline. */
  datatype Call = Call(at: int, up: bool)

  datatype Verdict = Allowed | Denied | RedisError

  function NewerThan(s: set<int>, cutoff: int): set<int> {
    set x | x in s && cutoff < x
  }

  /** The set Redis sees at time now: empty once the key has expired. */
  function Live(log: KeyLog, now: int): set<int> {
    if now < log.expiresAt then log.entries else {}
  }

  /** What one executed pipeline leaves behind. */
  function Record(log: KeyLog, now: int, window: int): KeyLog {
    KeyLog(NewerThan(Live(log, now), now - window) + {now}, now + window + SLACK)
  }

  function Decide(log: KeyLog, c: Call, window: int, cap: int): Verdict {
    if !c.up then RedisError
    else if |NewerThan(Live(log, c.at), c.at - window)| < cap then Allowed
    else Denied
  }

  function After(log: KeyLog, c: Call, window: int): KeyLog {
    if c.up then Record(log, c.at, window) else log
  }

  /** The stored log after a run of calls on a fresh key. */
  function Stored(calls: seq<Call>, window: int): KeyLog {
    if calls == [] then ABSENT
    else After(Stored(calls[..|calls| - 1], window), calls[|calls| - 1], window)
  }

  /** The verdict the service gives on call i of the run. */
  function VerdictAt(calls: seq<Call>, i: nat, window: int, cap: int): Verdict
    requires i < |calls|
  {
    Decide(Stored(calls[..i], window), calls[i], window, cap)
  }

  ghost predicate Monotone(calls: seq<Call>) {
    forall i, j :: 0 <= i <= j < |calls| ==> calls[i].at <= calls[j].at
  }

  /** One call: an executed pipeline counts the live timestamps of the window, allows if they are
      fewer than the cap, and leaves them and the present one, to expire a second after the
      window; a failed one is an error and leaves the log as it was. */
  lemma CallIs(log: KeyLog, now: int, window: int, cap: int)
    ensures Decide(log, Call(now, false), window, cap) == RedisError && After(log, Call(now, false), window) == log
    ensures var live := if now < log.expiresAt then log.entries else {};
            var recent := set x | x in live && x > now - window;
            && Decide(log, Call(now, true), window, cap) == (if |recent| < cap then Allowed else Denied)
            && After(log, Call(now, true), window) == KeyLog(recent + {now}, now + window + 1_000_000_000)
  {
    var live := if now < log.expiresAt then log.entries else {};
    assert (set x | x in live && x > now - window) == NewerThan(Live(log, now), now - window);
  }

  // ---------------------------------------------------------------- the service

  class RateLimiter {
    var keys: map<string, KeyLog>

    constructor ()
      ensures keys == map[]
    {
      keys := map[];
    }

    function Get(key: string): (log: KeyLog)
      reads this
    {
      if key in keys then keys[key] else ABSENT
    }

    /** AllowKey: prune, count, add, expire, in one transaction.  A failed pipeline reports
        an error and leaves every key as it was. */
    method AllowKey(key: string, now: int, window: int, cap: int, up: bool) returns (v: Verdict)
      modifies this
      ensures v == Decide(old(Get(key)), Call(now, up), window, cap)
      ensures Get(key) == After(old(Get(key)), Call(now, up), window)
      ensures forall other :: other != key ==> Get(other) == old(Get(other))
    {
      if !up {
        return RedisError;
      }
      var windowStart := now - window;
      var log := Get(key);
      var live := if now < log.expiresAt then log.entries else {};
      // 1. ZREMRANGEBYSCORE key -inf windowStart
      var entries := set x | x in live && !(x <= windowStart);
      assert entries == NewerThan(Live(log, now), windowStart);
      // 2. ZCARD key
      var count := |entries|;
      // 3. ZADD key score score
      entries := entries + {now};
      // 4. EXPIRE key window+1s
      keys := keys[key := KeyLog(entries, now + window + SLACK)];
      v := if count < cap then Allowed else Denied;
    }

    /** Allow: the same check on the key composed from user and channel. */
    method Allow(user: string, channel: string, now: int, window: int, cap: int, up: bool)
      returns (v: Verdict)
      modifies this
      ensures var key := "ratelimit:" + user + ":" + channel;
              && v == Decide(old(Get(key)), Call(now, up), window, cap)
              && Get(key) == After(old(Get(key)), Call(now, up), window)
              && forall other :: other != key ==> Get(other) == old(Get(other))
      ensures forall u, c :: ':' !in channel && ':' !in c && (u, c) != (user, channel)
                ==> Get(UserKey(u, c)) == old(Get(UserKey(u, c)))
    {
      v := AllowKey(UserKey(user, channel), now, window, cap, up);
      forall u, c | ':' !in channel && ':' !in c && (u, c) != (user, channel)
        ensures Get(UserKey(u, c)) == old(Get(UserKey(u, c)))
      {
        UserKeyInjective(user, channel, u, c);
      }
    }
  }

  function UserKey(user: string, channel: string): string {
    "ratelimit:" + user + ":" + channel
  }

  /** Behind position p of a there is no colon, so a colon at q is at p or before it. */
  lemma LastColon(a: string, p: nat, tail: string, q: nat)
    requires p < |a| && a[p + 1..] == tail && ':' !in tail
    requires q < |a| && a[q] == ':'
    ensures q <= p
  {
  }

  /** Distinct (user, channel) pairs never share a key: channel names contain no colon, so
      the last colon of the key separates the two parts even when the user id has colons. */
  lemma UserKeyInjective(u1: string, c1: string, u2: string, c2: string)
    requires ':' !in c1 && ':' !in c2
    ensures UserKey(u1, c1) == UserKey(u2, c2) <==> u1 == u2 && c1 == c2
  {
    if UserKey(u1, c1) == UserKey(u2, c2) {
      var a, b := UserKey(u1, c1), UserKey(u2, c2);
      var p, q := 10 + |u1|, 10 + |u2|;
      assert a[p] == ':' && b[q] == ':';
      assert c1 == a[p + 1..] && c2 == b[q + 1..];
      LastColon(a, p, c1, q);
      LastColon(a, q, c2, p);
      assert u1 == a[10..p] && u2 == b[10..q];
    }
  }

  // ------------------------------------------------- agreement with the full history

  /** Every timestamp at which an attempt was recorded, allowed or denied, never pruned. */
  function History(calls: seq<Call>): set<int> {
    set c | c in calls && c.up :: c.at
  }

  /** The specification of call i: look at the whole unpruned history before it. */
  function Reference(calls: seq<Call>, i: nat, window: int, cap: int): Verdict
    requires i < |calls|
  {
    if !calls[i].up then RedisError
    else if |InWindow(History(calls[..i]), calls[i].at, window)| < cap then Allowed
    else Denied
  }

  /** Timestamps in the half-open interval (now - window, now]. */
  function InWindow(s: set<int>, now: int, window: int): set<int> {
    set x | x in s && now - window < x <= now
  }

  lemma HistoryAppend(calls: seq<Call>, c: Call)
    ensures History(calls + [c]) == History(calls) + (if c.up then {c.at} else {})
  {
    var l, r := History(calls + [c]), History(calls) + (if c.up then {c.at} else {});
    forall x | x in r ensures x in l {
      if x in History(calls) {
        var d :| d in calls && d.up && d.at == x;
        assert d in calls + [c];
      } else {
        assert c in calls + [c];
      }
    }
  }

  lemma HistoryBound(calls: seq<Call>, now: int)
    requires forall c :: c in calls ==> c.at <= now
    ensures forall x :: x in History(calls) ==> x <= now
  {
  }

  /** One more call, seen from a later instant. */
  lemma RecordIsWindow(log: KeyLog, past: set<int>, c: Call, now: int, window: int)
    requires c.at <= now && (forall x :: x in past ==> x <= c.at)
    requires NewerThan(Live(log, c.at), c.at - window) == InWindow(past, c.at, window)
    ensures NewerThan(Live(Record(log, c.at, window), now), now - window)
         == InWindow(past + {c.at}, now, window)
  {
    var l, r := NewerThan(Live(Record(log, c.at, window), now), now - window), InWindow(past + {c.at}, now, window);
    forall x | x in r ensures x in l {
      assert x == c.at || x in InWindow(past, c.at, window);
    }
  }

  /** What pruning and expiry leave is exactly the window seen from any later instant. */
  lemma {:induction false} StoredIsWindow(calls: seq<Call>, now: int, window: int)
    requires Monotone(calls)
    requires forall c :: c in calls ==> c.at <= now
    ensures NewerThan(Live(Stored(calls, window), now), now - window)
         == InWindow(History(calls), now, window)
    decreases |calls|
  {
    if calls == [] {
      assert InWindow(History(calls), now, window) == {};
    } else {
      var n := |calls| - 1;
      var before, c := calls[..n], calls[n];
      assert calls == before + [c];
      assert c in calls;
      assert forall d :: d in before ==> d in calls && d.at <= c.at;
      HistoryAppend(before, c);
      if c.up {
        StoredIsWindow(before, c.at, window);
        HistoryBound(before, c.at);
        RecordIsWindow(Stored(before, window), History(before), c, now, window);
      } else {
        StoredIsWindow(before, now, window);
        assert History(calls) == History(before);
      }
    }
  }

  /** Pruned log refines full history: every decision is the one the entire unpruned
      history would give, so neither eviction nor key expiry ever changes a decision. */
  lemma PrunedLogRefinesHistory(calls: seq<Call>, i: nat, window: int, cap: int)
    requires Monotone(calls) && i < |calls|
    ensures VerdictAt(calls, i, window, cap) == Reference(calls, i, window, cap)
  {
    assert forall c :: c in calls[..i] ==> c.at <= calls[i].at;
    StoredIsWindow(calls[..i], calls[i].at, window);
  }

  // ---------------------------------------------------------------- sliding window

  /** The distinct timestamps at which some attempt of the run was allowed. */
  ghost function AllowedTimes(calls: seq<Call>, window: int, cap: int): set<int> {
    set i | 0 <= i < |calls| && VerdictAt(calls, i, window, cap) == Allowed :: calls[i].at
  }

  lemma {:induction false} MaxExists(s: set<int>) returns (m: int)
    requires |s| > 0
    ensures m in s && forall x :: x in s ==> x <= m
  {
    var x := Pick(s);
    var rest := s - {x};
    m := x;
    if |rest| == 0 {
    } else {
      var y := MaxExists(rest);
      m := if x < y then y else x;
    }
    forall z | z in s ensures z <= m {
      assert z == x || z in rest;
    }
  }

  lemma AllowedIndex(calls: seq<Call>, window: int, cap: int, x: int) returns (i: nat)
    requires x in AllowedTimes(calls, window, cap)
    ensures i < |calls| && calls[i].at == x && VerdictAt(calls, i, window, cap) == Allowed
  {
    i :| 0 <= i < |calls| && VerdictAt(calls, i, window, cap) == Allowed && calls[i].at == x;
  }

  /** An attempt recorded before time t precedes every call made at t. */
  lemma EarlierRecorded(calls: seq<Call>, j: nat, i: nat)
    requires Monotone(calls) && i < |calls| && j < |calls|
    requires calls[j].up && calls[j].at < calls[i].at
    ensures calls[j].at in History(calls[..i])
  {
    assert j < i;
    assert calls[..i][j] == calls[j];
  }

  /** Any set of allowed timestamps spanning less than the window has at most cap members. */
  lemma SpreadBound(calls: seq<Call>, window: int, cap: int, s: set<int>)
    requires Monotone(calls)
    requires s <= AllowedTimes(calls, window, cap)
    requires forall x, y :: x in s && y in s ==> y - x < window
    ensures |s| <= (if cap > 0 then cap else 0)
  {
    if |s| > 0 {
      var last := MaxExists(s);
      var i := AllowedIndex(calls, window, cap, last);
      PrunedLogRefinesHistory(calls, i, window, cap);
      var seen := InWindow(History(calls[..i]), last, window);
      forall x | x in s - {last} ensures x in seen {
        var j := AllowedIndex(calls, window, cap, x);
        EarlierRecorded(calls, j, i);
      }
      SubsetSize(s - {last}, seen);
    }
  }

  /** Sliding-window bound: over any run on a non-decreasing clock, every half-open interval
      of length W holds at most cap distinct timestamps at which an attempt was allowed. */
  lemma SlidingWindowBound(calls: seq<Call>, window: int, cap: int, from: int)
    requires Monotone(calls)
    ensures |set x | x in AllowedTimes(calls, window, cap) && from <= x < from + window|
         <= (if cap > 0 then cap else 0)
    ensures |set x | x in AllowedTimes(calls, window, cap) && from < x <= from + window|
         <= (if cap > 0 then cap else 0)
  {
    SpreadBound(calls, window, cap,
      set x | x in AllowedTimes(calls, window, cap) && from <= x < from + window);
    SpreadBound(calls, window, cap,
      set x | x in AllowedTimes(calls, window, cap) && from < x <= from + window);
  }

  // ------------------------------------------------- counting attempts or instants

  predicate Recent(c: Call, now: int, window: int) {
    c.up && now - window < c.at <= now
  }

  /** The recorded attempts in the window, each counted. */
  function Attempts(calls: seq<Call>, now: int, window: int): nat {
    if calls == [] then 0
    else
      var n := |calls| - 1;
      Attempts(calls[..n], now, window) + (if Recent(calls[n], now, window) then 1 else 0)
  }

  /** The verdict of a limiter whose log had one entry per attempt. */
  function CountingVerdict(calls: seq<Call>, i: nat, window: int, cap: int): Verdict
    requires i < |calls|
  {
    if !calls[i].up then RedisError
    else if Attempts(calls[..i], calls[i].at, window) < cap then Allowed
    else Denied
  }

  ghost predicate DistinctRecent(calls: seq<Call>, now: int, window: int) {
    forall a, b :: 0 <= a < b < |calls| && Recent(calls[a], now, window) && Recent(calls[b], now, window) ==>
      calls[a].at != calls[b].at
  }

  /** The window holds one instant per attempt exactly if the attempts' instants differ. */
  lemma {:induction false} InstantsPerAttempt(calls: seq<Call>, now: int, window: int)
    ensures |InWindow(History(calls), now, window)| <= Attempts(calls, now, window)
    ensures |InWindow(History(calls), now, window)| == Attempts(calls, now, window) <==> DistinctRecent(calls, now, window)
  {
    if calls == [] {
      assert InWindow(History(calls), now, window) == {};
    } else {
      var n := |calls| - 1;
      var before, c := calls[..n], calls[n];
      assert calls == before + [c];
      InstantsPerAttempt(before, now, window);
      WindowAppend(before, c, now, window);
      LastDistinct(before, c, now, window);
    }
  }

  lemma WindowAppend(before: seq<Call>, c: Call, now: int, window: int)
    ensures InWindow(History(before + [c]), now, window)
         == InWindow(History(before), now, window) + (if Recent(c, now, window) then {c.at} else {})
  {
    HistoryAppend(before, c);
  }

  lemma LastDistinct(before: seq<Call>, c: Call, now: int, window: int)
    ensures DistinctRecent(before + [c], now, window) <==>
            DistinctRecent(before, now, window)
            && (Recent(c, now, window) ==> c.at !in InWindow(History(before), now, window))
  {
    var calls := before + [c];
    if DistinctRecent(calls, now, window) {
      forall a, b | 0 <= a < b < |before| && Recent(before[a], now, window) && Recent(before[b], now, window)
        ensures before[a].at != before[b].at
      {
        assert calls[a] == before[a] && calls[b] == before[b];
      }
      forall d | d in before && Recent(d, now, window) && Recent(c, now, window) ensures d.at != c.at {
        var a :| 0 <= a < |before| && before[a] == d;
        assert calls[a] == d && calls[|before|] == c;
      }
    }
    if DistinctRecent(before, now, window) && (Recent(c, now, window) ==> c.at !in InWindow(History(before), now, window)) {
      forall a, b | 0 <= a < b < |calls| && Recent(calls[a], now, window) && Recent(calls[b], now, window)
        ensures calls[a].at != calls[b].at
      {
        assert calls[a] == before[a] && calls[a] in before;
        if b < |before| {
          assert calls[b] == before[b];
        }
      }
    }
  }

  /** Log entries stand for attempts exactly if their instants differ: a verdict agrees, for
      every cap, with the one that counts attempts if and only if the recorded attempts in its
      window were made at pairwise different instants, or the call itself failed. */
  lemma CountsAttemptsIff(calls: seq<Call>, i: nat, window: int)
    requires Monotone(calls) && i < |calls|
    ensures (forall cap :: VerdictAt(calls, i, window, cap) == CountingVerdict(calls, i, window, cap))
       <==> !calls[i].up || DistinctRecent(calls[..i], calls[i].at, window)
  {
    var attempts := Attempts(calls[..i], calls[i].at, window);
    InstantsPerAttempt(calls[..i], calls[i].at, window);
    forall cap ensures VerdictAt(calls, i, window, cap) == Reference(calls, i, window, cap) {
      PrunedLogRefinesHistory(calls, i, window, cap);
    }
    if calls[i].up && !DistinctRecent(calls[..i], calls[i].at, window) {
      assert VerdictAt(calls, i, window, attempts) != CountingVerdict(calls, i, window, attempts);
    }
  }

  // ----------------------------------------------------- bursts at a single instant

  function Burst(at: int, n: nat): seq<Call> {
    seq(n, _ => Call(at, true))
  }

  lemma BurstHistory(at: int, n: nat)
    ensures History(Burst(at, n)) == if n == 0 then {} else {at}
  {
    if n > 0 {
      assert Burst(at, n)[0] == Call(at, true);
      assert Call(at, true) in Burst(at, n);
    }
  }

  /** Equal timestamps collapse to one entry: in a burst at one instant, with cap at least
      two every attempt is allowed, however long the burst; with cap one only the first is. */
  lemma BurstVerdicts(at: int, n: nat, i: nat, window: int, cap: int)
    requires i < n && window > 0
    ensures VerdictAt(Burst(at, n), i, window, cap) == Allowed
       <==> cap >= 2 || (cap == 1 && i == 0)
  {
    var b := Burst(at, n);
    PrunedLogRefinesHistory(b, i, window, cap);
    assert b[..i] == Burst(at, i);
    BurstHistory(at, i);
    assert InWindow(History(b[..i]), at, window) == if i == 0 then {} else {at};
  }

  // ------------------------------------------------------- overload and recovery

  ghost predicate AllUp(calls: seq<Call>) {
    forall c :: c in calls ==> c.up
  }

  ghost predicate StrictlyIncreasing(calls: seq<Call>) {
    forall i, j :: 0 <= i < j < |calls| ==> calls[i].at < calls[j].at
  }

  /** Attempts made at distinct times contribute one timestamp each. */
  lemma {:induction false} DistinctTimes(calls: seq<Call>)
    requires AllUp(calls) && StrictlyIncreasing(calls)
    ensures |History(calls)| == |calls|
  {
    if calls == [] {
    } else {
      var n := |calls| - 1;
      var before, c := calls[..n], calls[n];
      assert calls == before + [c];
      assert AllUp(before) by {
        assert forall d :: d in before ==> d in calls;
      }
      DistinctTimes(before);
      HistoryAppend(before, c);
      assert c in calls;
      assert c.at !in History(before);
    }
  }

  lemma SliceIncreasing(calls: seq<Call>, lo: nat, hi: nat)
    requires lo <= hi <= |calls|
    requires AllUp(calls) && StrictlyIncreasing(calls)
    ensures AllUp(calls[lo..hi]) && StrictlyIncreasing(calls[lo..hi])
  {
    assert forall d :: d in calls[lo..hi] ==> d in calls;
  }

  /** The cap attempts before attempt i all lie in its window. */
  lemma RecentInWindow(calls: seq<Call>, i: nat, window: int, cap: nat)
    requires StrictlyIncreasing(calls) && cap <= i < |calls|
    requires calls[i].at - calls[i - cap].at < window
    ensures History(calls[i - cap..i]) <= InWindow(History(calls[..i]), calls[i].at, window)
  {
    forall x | x in History(calls[i - cap..i])
      ensures x in InWindow(History(calls[..i]), calls[i].at, window)
    {
      var d :| d in calls[i - cap..i] && d.up && d.at == x;
      var k :| 0 <= k < cap && calls[i - cap..i][k] == d;
      assert calls[i - cap + k] == d;
      assert calls[i - cap].at <= d.at < calls[i].at;
      assert calls[..i][i - cap + k] == d;
    }
  }

  /** When the attempt cap places back is out of the window, so are all before it. */
  lemma OldOutOfWindow(calls: seq<Call>, i: nat, window: int, cap: nat)
    requires StrictlyIncreasing(calls) && 0 < cap <= i < |calls|
    requires calls[i].at - calls[i - cap].at >= window
    ensures InWindow(History(calls[..i]), calls[i].at, window) <= History(calls[i - cap + 1..i])
  {
    forall x | x in InWindow(History(calls[..i]), calls[i].at, window) ensures x in History(calls[i - cap + 1..i]) {
      var d :| d in calls[..i] && d.up && d.at == x;
      var k :| 0 <= k < i && calls[..i][k] == d;
      assert calls[k] == d && k > i - cap;
      assert calls[i - cap + 1..i][k - (i - cap + 1)] == d;
    }
  }

  /** Which attempts at distinct instants are allowed: the first cap, and later exactly those
      that come a window or more after the attempt cap places before, allowed or not. */
  lemma AllowedExactly(calls: seq<Call>, i: nat, window: int, cap: nat)
    requires AllUp(calls) && StrictlyIncreasing(calls) && i < |calls|
    ensures VerdictAt(calls, i, window, cap) == Allowed
       <==> i < cap || (cap > 0 && calls[i].at - calls[i - cap].at >= window)
  {
    PrunedLogRefinesHistory(calls, i, window, cap);
    assert calls[i] in calls;
    var seen := InWindow(History(calls[..i]), calls[i].at, window);
    if i < cap {
      SliceIncreasing(calls, 0, i);
      assert calls[0..i] == calls[..i];
      DistinctTimes(calls[..i]);
      SubsetSize(seen, History(calls[..i]));
    } else if calls[i].at - calls[i - cap].at < window {
      SliceIncreasing(calls, i - cap, i);
      DistinctTimes(calls[i - cap..i]);
      RecentInWindow(calls, i, window, cap);
      SubsetSize(History(calls[i - cap..i]), seen);
    } else if cap > 0 {
      SliceIncreasing(calls, i - cap + 1, i);
      DistinctTimes(calls[i - cap + 1..i]);
      OldOutOfWindow(calls, i, window, cap);
      SubsetSize(seen, History(calls[i - cap + 1..i]));
    }
  }

  /** Overload lockout.  If every cap + 1 consecutive attempts fit inside a window, exactly
      the first cap attempts are allowed: denied attempts keep the window full for ever. */
  lemma OverloadLockout(calls: seq<Call>, i: nat, window: int, cap: nat)
    requires AllUp(calls) && StrictlyIncreasing(calls) && i < |calls|
    requires forall k :: cap <= k < |calls| ==> calls[k].at - calls[k - cap].at < window
    ensures VerdictAt(calls, i, window, cap) == if i < cap then Allowed else Denied
  {
    AllowedExactly(calls, i, window, cap);
    assert calls[i] in calls;
  }

  function Paced(start: int, period: int, n: nat): seq<Call> {
    seq(n, i => Call(start + i * period, true))
  }

  /** A caller attempting every d, with cap * d < W, gets its first cap attempts and no more. */
  lemma PacedLockout(start: int, period: int, n: nat, i: nat, window: int, cap: nat)
    requires period > 0 && cap * period < window && i < n
    ensures VerdictAt(Paced(start, period, n), i, window, cap) == Allowed <==> i < cap
  {
    var calls := Paced(start, period, n);
    forall a, b | 0 <= a < b < |calls| ensures calls[a].at < calls[b].at {
      assert (b - a) * period > 0;
      assert b * period == a * period + (b - a) * period;
    }
    forall k | cap <= k < |calls| ensures calls[k].at - calls[k - cap].at < window {
      assert k * period == (k - cap) * period + cap * period;
    }
    OverloadLockout(calls, i, window, cap);
  }

  /** After a window of silence the next attempt is allowed exactly when the cap is positive. */
  lemma SilenceRecovers(calls: seq<Call>, now: int, window: int, cap: int)
    requires Monotone(calls)
    requires forall c :: c in calls && c.up ==> c.at + window <= now
    requires forall c :: c in calls ==> c.at <= now
    ensures Decide(Stored(calls, window), Call(now, true), window, cap) == Allowed <==> cap > 0
  {
    StoredIsWindow(calls, now, window);
    assert InWindow(History(calls), now, window) == {};
  }
}
