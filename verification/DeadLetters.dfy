/** Dead letters: the consumer that persists them (internal/worker/dlq_consumer.go) and the
    operator's replay (internal/api/handler/dlq.go), as steps of the delivery machine. */
module DeadLetters {
  import opened Collections
  import opened Delivery

  /** What the consumer fetched: a record it cannot decode, or the one at a position. */
  datatype Fetched = Undecodable | Position(i: nat)

  datatype Response = NotFound | PublishFailed | Replayed | ReplayedUnmarked

  function NewDeadLetter(d: DlqRecord): DeadLetter {
    DeadLetter(d.original.tenant, d.original.notificationId, d, false)
  }

  /** The consumer fetches records that are on the topic. */
  predicate OnTopic(dlq: seq<DlqRecord>, fetched: seq<Fetched>) {
    forall k :: 0 <= k < |fetched| && fetched[k].Position? ==> fetched[k].i < |dlq|
  }

  /** The table after persisting the fetched records whose insert works. */
  function Persisted(dead: map<nat, DeadLetter>, dlq: seq<DlqRecord>, fetched: seq<Fetched>,
                     ids: nat -> nat, up: nat -> bool): map<nat, DeadLetter>
    requires OnTopic(dlq, fetched)
  {
    if fetched == [] then dead
    else
      var n := |fetched| - 1;
      var before := Persisted(dead, dlq, fetched[..n], ids, up);
      if fetched[n].Position? && up(n) then before[ids(n) := NewDeadLetter(dlq[fetched[n].i])] else before
  }

  /** Every new row is some record's. */
  lemma {:induction false} PersistedOnly(dead: map<nat, DeadLetter>, dlq: seq<DlqRecord>, fetched: seq<Fetched>,
                                         ids: nat -> nat, up: nat -> bool, id: nat)
    requires OnTopic(dlq, fetched) && id in Persisted(dead, dlq, fetched, ids, up) && id !in dead
    ensures exists k: nat :: k < |fetched| && fetched[k].Position? && up(k) && ids(k) == id
  {
    var n := |fetched| - 1;
    if n < 0 {
    } else if fetched[n].Position? && up(n) && ids(n) == id {
    } else {
      PersistedOnly(dead, dlq, fetched[..n], ids, up, id);
      var k: nat :| k < n && fetched[..n][k].Position? && up(k) && ids(k) == id;
      assert fetched[k] == fetched[..n][k];
    }
  }

  lemma NextIdFresh(dead: map<nat, DeadLetter>, dlq: seq<DlqRecord>, fetched: seq<Fetched>,
                    ids: nat -> nat, up: nat -> bool, n: nat)
    requires OnTopic(dlq, fetched) && n == |fetched| && FreshIds(dead, ids, n + 1)
    ensures ids(n) !in Persisted(dead, dlq, fetched, ids, up)
  {
    if ids(n) in Persisted(dead, dlq, fetched, ids, up) {
      PersistedOnly(dead, dlq, fetched, ids, up, ids(n));
    }
  }

  /** Each persisted record is in the table as it was dead-lettered, under its own id. */
  lemma {:induction false} PersistedExactly(dead: map<nat, DeadLetter>, dlq: seq<DlqRecord>, fetched: seq<Fetched>,
                                            ids: nat -> nat, up: nat -> bool)
    requires OnTopic(dlq, fetched) && FreshIds(dead, ids, |fetched|)
    ensures var after := Persisted(dead, dlq, fetched, ids, up);
            && (forall id :: id in dead ==> id in after && after[id] == dead[id])
            && (forall k: nat :: k < |fetched| ==> (ids(k) in after <==> fetched[k].Position? && up(k)))
            && (forall k: nat :: k < |fetched| && fetched[k].Position? && up(k) ==>
                  && fetched[k].i < |dlq|
                  && var d := dlq[fetched[k].i];
                     after[ids(k)] == DeadLetter(d.original.tenant, d.original.notificationId, d, false))
  {
    if fetched == [] {
    } else {
      var n := |fetched| - 1;
      PersistedExactly(dead, dlq, fetched[..n], ids, up);
      assert forall k: nat :: k < n ==> fetched[..n][k] == fetched[k];
      NextIdFresh(dead, dlq, fetched[..n], ids, up, n);
    }
  }

  lemma PersistOne(cfg: Config, s: State, steps: seq<Step>, dead: map<nat, DeadLetter>, i: nat, id: nat)
    requires Reaches(cfg, s, steps, s.(dead := dead)) && i < |s.dlq| && id !in dead
    ensures Reaches(cfg, s, steps + [Persist(i, id)], s.(dead := dead[id := NewDeadLetter(s.dlq[i])]))
  {
    ReachesStep(cfg, s, steps, s.(dead := dead), Persist(i, id));
  }

  /** The consumer's inserts are Persist steps of the machine. */
  lemma {:induction false} PersistReaches(cfg: Config, s: State, fetched: seq<Fetched>, ids: nat -> nat, up: nat -> bool)
    returns (steps: seq<Step>)
    requires OnTopic(s.dlq, fetched) && FreshIds(s.dead, ids, |fetched|)
    ensures Reaches(cfg, s, steps, s.(dead := Persisted(s.dead, s.dlq, fetched, ids, up)))
  {
    if fetched == [] {
      steps := [];
      ReachesNone(cfg, s);
    } else {
      var n := |fetched| - 1;
      steps := PersistReaches(cfg, s, fetched[..n], ids, up);
      if fetched[n].Position? && up(n) {
        NextIdFresh(s.dead, s.dlq, fetched[..n], ids, up, n);
        PersistOne(cfg, s, steps, Persisted(s.dead, s.dlq, fetched[..n], ids, up), fetched[n].i, ids(n));
        steps := steps + [Persist(fetched[n].i, ids(n))];
      }
    }
  }

  class DeadLetterService {
    const cfg: Config
    var dlq: seq<DlqRecord>
    var dead: map<nat, DeadLetter>
    var log: seq<Record>
    ghost var others: State  // what the other components hold

    constructor (cfg: Config)
      ensures this.cfg == cfg && View() == EMPTY
    {
      this.cfg := cfg;
      dlq := [];
      dead := map[];
      log := [];
      others := EMPTY;
    }

    ghost function View(): State
      reads this
    {
      others.(dlq := dlq, dead := dead, log := log)
    }

    /** The consumer loop: persist, then commit.  A record is committed exactly if it cannot be
        decoded or its row was inserted. */
    method Consume(fetched: seq<Fetched>, ids: nat -> nat, up: nat -> bool)
      returns (commits: seq<nat>, ghost steps: seq<Step>)
      requires OnTopic(dlq, fetched) && FreshIds(dead, ids, |fetched|)
      modifies this`dead
      ensures dead == Persisted(old(dead), dlq, fetched, ids, up)
      ensures forall k: nat :: k < |fetched| ==> (k in commits <==> fetched[k].Undecodable? || up(k))
      ensures forall k :: k in commits ==> k < |fetched|
      ensures Reaches(cfg, old(View()), steps, View())
    {
      commits := [];
      steps := PersistReaches(cfg, View(), fetched, ids, up);
      var k := 0;
      while k < |fetched|
        invariant 0 <= k <= |fetched|
        invariant dead == Persisted(old(dead), dlq, fetched[..k], ids, up)
        invariant forall j: nat :: j < k ==> (j in commits <==> fetched[j].Undecodable? || up(j))
        invariant forall j :: j in commits ==> j < k
      {
        assert fetched[..k + 1][..k] == fetched[..k];
        if fetched[k].Undecodable? {
          commits := commits + [k];
        } else if up(k) {
          dead := dead[ids(k) := NewDeadLetter(dlq[fetched[k].i])];
          commits := commits + [k];
        }
        k := k + 1;
      }
      assert fetched[..|fetched|] == fetched;
    }

    /** Replay: republish the original message as a first attempt, then mark the row. */
    method ReplayOne(tenant: nat, id: nat, publishUp: bool, markUp: bool)
      returns (r: Response, ghost steps: seq<Step>)
      modifies this`dead, this`log
      ensures r == NotFound <==> id !in old(dead) || old(dead)[id].tenant != tenant
      ensures r == PublishFailed <==> r != NotFound && !publishUp
      ensures r == NotFound || r == PublishFailed ==> log == old(log) && dead == old(dead)
      ensures r == Replayed || r == ReplayedUnmarked ==>
                var d := old(dead)[id].record;
                log == old(log) + [Record(d.originalTopic, d.original.recipient,
                                          d.original.(attempt := 1, maxAttempts := cfg.replayAttempts), ByReplay)]
      ensures r == Replayed ==> markUp && dead == old(dead)[id := old(dead)[id].(replayed := true)]
      ensures r == ReplayedUnmarked ==> !markUp && dead == old(dead)
      ensures Reaches(cfg, old(View()), steps, View())
    {
      steps := [];
      ReachesNone(cfg, View());
      if id !in dead || dead[id].tenant != tenant {
        return NotFound, steps;
      }
      ghost var start := View();
      ReachesStep(cfg, start, steps, start, Replay(id, publishUp));
      steps := steps + [Replay(id, publishUp)];
      if !publishUp {
        return PublishFailed, steps;
      }
      var d := dead[id].record;
      var original := d.original;
      original := original.(attempt := 1);
      original := original.(maxAttempts := cfg.replayAttempts);
      log := log + [Record(d.originalTopic, original.recipient, original, ByReplay)];
      if !markUp {
        return ReplayedUnmarked, steps;
      }
      ReachesStep(cfg, start, steps, View(), MarkReplayed(id));
      steps := steps + [MarkReplayed(id)];
      dead := dead[id := dead[id].(replayed := true)];
      r := Replayed;
    }
  }
}
