/** The in-app provider (internal/provider/inapp/inapp.go): insert the row, then publish it.
    One call performs the InsertRow and RedisPublish steps of the reconnect system. */
module InAppProvider {
  import opened Collections
  import opened Inbox
  import opened Reconnect

  datatype Outcome = Sent | Temporary | Permanent

  type Payload = map<string, string>

  /** A rendered value wins over the caller's own unless it is empty. */
  function Pick(payload: Payload, rendered: string, plain: string): string {
    if rendered in payload && payload[rendered] != "" then payload[rendered]
    else if plain in payload then payload[plain] else ""
  }

  function Title(payload: Payload): string {
    Pick(payload, "_subject", "title")
  }

  function Body(payload: Payload): string {
    Pick(payload, "_body", "body")
  }

  class Provider {
    var table: Table
    ghost var inserted: set<Message>
    var wire: set<Message>

    constructor ()
      ensures Valid() && table == map[] && wire == {}
    {
      table, inserted, wire := map[], {}, {};
    }

    /** Whatever is on the wire, or about to be, is stored. */
    ghost predicate Valid()
      reads this
    {
      Keyed(table) && forall m :: m in inserted || m in wire ==> Stored(table, m)
    }

    /** The provider's part of a system state. */
    ghost predicate IsPartOf(s: Sys)
      reads this
    {
      s.table == table && s.inserted == inserted && s.wire == wire
    }

    /** Send: permanent without a title and a body, temporary if the insert fails, and a success
        as soon as the row is stored, published or not.  In the system it is no step, or the
        insert followed by the publish of the same row. */
    method Send(tenant: string, recipient: string, payload: Payload, id: nat, now: int,
                insertUp: bool, publishUp: bool) returns (outcome: Outcome, ghost m: Message)
      requires Valid() && id !in table && ':' !in tenant
      modifies this
      ensures Valid() && Evolves(old(table), table)
      ensures var title := if "_subject" in payload && payload["_subject"] != "" then payload["_subject"]
                           else if "title" in payload then payload["title"] else "";
              var body := if "_body" in payload && payload["_body"] != "" then payload["_body"]
                          else if "body" in payload then payload["body"] else "";
              && (outcome == Permanent <==> title == "" || body == "")
              && (outcome == Sent <==> title != "" && body != "" && insertUp)
              && (outcome == Sent ==> m == Message(id, tenant, recipient, title + "\n" + body, now, None))
      ensures outcome != Sent ==> table == old(table) && wire == old(wire) && inserted == old(inserted)
      ensures outcome == Sent ==> forall c: Client, s: Sys :: old(IsPartOf(s)) ==>
                Enabled(c, s, InsertRow(m)) && Enabled(c, Apply(c, s, InsertRow(m)), RedisPublish(m, publishUp))
                && IsPartOf(Apply(c, Apply(c, s, InsertRow(m)), RedisPublish(m, publishUp)))
    {
      var title, body := Title(payload), Body(payload);
      m := Message(id, tenant, recipient, title + "\n" + body, now, None);
      if title == "" || body == "" {
        return Permanent, m;
      }
      if !insertUp {
        return Temporary, m;
      }
      assert m !in inserted && m !in wire;
      var saved := Message(id, tenant, recipient, title + "\n" + body, now, None);
      table := table[id := saved];
      if publishUp {
        wire := wire + {saved};
      }
      outcome := Sent;
    }
  }
}
