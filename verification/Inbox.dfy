/** The in-app message table and its repository
    (internal/db/inapp.sql.go, internal/repository/inapp.go).

    Message ids are natural numbers compared by value, tenant ids are their UUID strings
    (which contain no colon), timestamps are integers.  Title, body and
    payload are one opaque content string.  A failing database is an explicit input. */
module Inbox {
  import opened Collections
  import opened OrderedQuery

  datatype Message = Message(
    id: nat, tenant: string, recipient: string, content: string, createdAt: int, readAt: Option<int>)

  /** The table, by primary key. */
  type Table = map<nat, Message>

  ghost predicate Keyed(t: Table) {
    forall id :: id in t ==> t[id].id == id
  }

  datatype Query = Query(
    tenant: string, recipient: string, unreadOnly: bool, limit: int, afterId: Option<nat>)

  const DEFAULT_LIMIT: nat := 50
  const GAP_LIMIT: nat := 200

  function PageSize(limit: int): nat {
    if limit <= 0 then DEFAULT_LIMIT else limit
  }

  // ------------------------------------------------------------------ ordering

  /** a comes strictly before b in the order (created_at, id). */
  predicate Older(a: Message, b: Message) {
    a.createdAt < b.createdAt || (a.createdAt == b.createdAt && a.id < b.id)
  }

  /** ORDER BY created_at DESC, id DESC */
  predicate NewestFirst(a: Message, b: Message) {
    a.createdAt > b.createdAt || (a.createdAt == b.createdAt && a.id >= b.id)
  }

  /** ORDER BY created_at ASC, id ASC */
  predicate OldestFirst(a: Message, b: Message) {
    NewestFirst(b, a)
  }

  /** ORDER BY created_at DESC, which leaves rows created at the same instant unordered. */
  predicate NewestTimeFirst(a: Message, b: Message) {
    a.createdAt >= b.createdAt
  }

  // ------------------------------------------------------------------- queries

  predicate Matches(m: Message, q: Query) {
    m.tenant == q.tenant && m.recipient == q.recipient && (q.unreadOnly ==> m.readAt.None?)
  }

  function Matching(t: Table, q: Query): set<Message> {
    set id | id in t && Matches(t[id], q) :: t[id]
  }

  /** WHERE clause of ListInboxAfterCursor */
  function BelowCursor(t: Table, q: Query, cursor: Message): set<Message> {
    set id | id in t && Matches(t[id], q) && Older(t[id], cursor) :: t[id]
  }

  /** WHERE clause of ListInboxSince */
  function AboveCursor(t: Table, tenant: string, recipient: string, cursor: Message): set<Message> {
    set id | id in t && t[id].tenant == tenant && t[id].recipient == recipient && Older(cursor, t[id]) :: t[id]
  }

  /** The cursor row of an after_id or since parameter. */
  predicate HasCursor(t: Table, tenant: string, id: nat) {
    id in t && t[id].tenant == tenant
  }

  // ------------------------------------------- what the queries answer, field by field

  /** A page after a cursor: rows of the table that are the recipient's, unread if asked, and below
      the cursor by creation time and then id; in descending order of both, at most as many as
      the limit, or 50 without one; a row left out comes after a full page. */
  lemma AfterPageIs(t: Table, q: Query, cursor: Message, page: seq<Message>)
    requires Keyed(t) && IsFirst(BelowCursor(t, q, cursor), NewestFirst, PageSize(q.limit), page)
    ensures forall i :: 0 <= i < |page| ==>
              && page[i].id in t && t[page[i].id] == page[i] && page[i].tenant == q.tenant && page[i].recipient == q.recipient
              && (q.unreadOnly ==> page[i].readAt.None?)
              && (page[i].createdAt < cursor.createdAt || (page[i].createdAt == cursor.createdAt && page[i].id < cursor.id))
    ensures forall i, j :: 0 <= i < j < |page| ==>
              page[i].createdAt > page[j].createdAt || (page[i].createdAt == page[j].createdAt && page[i].id > page[j].id)
    ensures |page| <= if q.limit <= 0 then 50 else q.limit
    ensures forall id | id in t && t[id] !in page && t[id].tenant == q.tenant && t[id].recipient == q.recipient
                        && (q.unreadOnly ==> t[id].readAt.None?)
                        && (t[id].createdAt < cursor.createdAt || (t[id].createdAt == cursor.createdAt && id < cursor.id)) ::
                && |page| == (if q.limit <= 0 then 50 else q.limit)
                && forall i :: 0 <= i < |page| ==>
                     page[i].createdAt > t[id].createdAt || (page[i].createdAt == t[id].createdAt && page[i].id > id)
  {
    var rows := BelowCursor(t, q, cursor);
    assert forall i :: 0 <= i < |page| ==> page[i] in rows;
    forall id | id in t && t[id] in rows && t[id] !in page
      ensures |page| == PageSize(q.limit) && forall i :: 0 <= i < |page| ==> NewestFirst(page[i], t[id]) && page[i].id != id
    {
      if |page| < PageSize(q.limit) {
        ShortPageIsAll(rows, NewestFirst, PageSize(q.limit), page);
      }
    }
  }

  /** A first page: the recipient's rows, unread if asked, newest first; rows of one instant come
      in any order. */
  lemma TopPageIs(t: Table, q: Query, page: seq<Message>)
    requires Keyed(t) && IsFirst(Matching(t, q), NewestTimeFirst, PageSize(q.limit), page)
    ensures forall i :: 0 <= i < |page| ==>
              && page[i].id in t && t[page[i].id] == page[i] && page[i].tenant == q.tenant && page[i].recipient == q.recipient
              && (q.unreadOnly ==> page[i].readAt.None?)
    ensures forall i, j :: 0 <= i < j < |page| ==> page[i] != page[j] && page[i].createdAt >= page[j].createdAt
    ensures |page| <= if q.limit <= 0 then 50 else q.limit
    ensures forall id | id in t && t[id] !in page && t[id].tenant == q.tenant && t[id].recipient == q.recipient
                        && (q.unreadOnly ==> t[id].readAt.None?) ::
                && |page| == (if q.limit <= 0 then 50 else q.limit)
                && forall i :: 0 <= i < |page| ==> page[i].createdAt >= t[id].createdAt
  {
    var rows := Matching(t, q);
    assert forall i :: 0 <= i < |page| ==> page[i] in rows;
    forall id | id in t && t[id] in rows && t[id] !in page
      ensures |page| == PageSize(q.limit) && forall i :: 0 <= i < |page| ==> NewestTimeFirst(page[i], t[id])
    {
      if |page| < PageSize(q.limit) {
        ShortPageIsAll(rows, NewestTimeFirst, PageSize(q.limit), page);
      }
    }
  }

  /** What a reconnect is sent: the recipient's rows above the cursor by creation time and then id,
      in ascending order of both, the first 200 of them. */
  lemma SincePageIs(t: Table, tenant: string, recipient: string, cursor: Message, page: seq<Message>)
    requires Keyed(t) && IsFirst(AboveCursor(t, tenant, recipient, cursor), OldestFirst, GAP_LIMIT, page)
    ensures forall i :: 0 <= i < |page| ==>
              && page[i].id in t && t[page[i].id] == page[i] && page[i].tenant == tenant && page[i].recipient == recipient
              && (page[i].createdAt > cursor.createdAt || (page[i].createdAt == cursor.createdAt && page[i].id > cursor.id))
    ensures forall i, j :: 0 <= i < j < |page| ==>
              page[i].createdAt < page[j].createdAt || (page[i].createdAt == page[j].createdAt && page[i].id < page[j].id)
    ensures |page| <= 200
    ensures forall id | id in t && t[id] !in page && t[id].tenant == tenant && t[id].recipient == recipient
                        && (t[id].createdAt > cursor.createdAt || (t[id].createdAt == cursor.createdAt && id > cursor.id)) ::
                && |page| == 200
                && forall i :: 0 <= i < |page| ==>
                     page[i].createdAt < t[id].createdAt || (page[i].createdAt == t[id].createdAt && page[i].id < id)
  {
    var rows := AboveCursor(t, tenant, recipient, cursor);
    assert forall i :: 0 <= i < |page| ==> page[i] in rows;
    forall id | id in t && t[id] in rows && t[id] !in page
      ensures |page| == GAP_LIMIT && forall i :: 0 <= i < |page| ==> OldestFirst(page[i], t[id]) && page[i].id != id
    {
      if |page| < GAP_LIMIT {
        ShortPageIsAll(rows, OldestFirst, GAP_LIMIT, page);
      }
    }
  }

  // --------------------------------------------------------- what writers may do

  /** Rows are never removed and only their read mark changes, once, from unset to set. */
  ghost predicate Evolves(before: Table, after: Table) {
    forall id :: id in before ==>
      && id in after
      && after[id] == before[id].(readAt := after[id].readAt)
      && (before[id].readAt.Some? ==> after[id].readAt == before[id].readAt)
  }

  lemma EvolvesTransitive(a: Table, b: Table, c: Table)
    requires Evolves(a, b) && Evolves(b, c)
    ensures Evolves(a, c)
  {
  }

  // ---------------------------------------------------------------- repository

  class InAppRepo {
    var table: Table

    constructor ()
      ensures table == map[]
    {
      table := map[];
    }

    /** Insert: the database supplies a fresh id and the creation time. */
    method Insert(tenant: string, recipient: string, content: string, id: nat, now: int, up: bool)
      returns (r: Result<Message>)
      requires Keyed(table) && id !in table
      modifies this
      ensures Keyed(table) && Evolves(old(table), table)
      ensures up ==> r == Ok(Message(id, tenant, recipient, content, now, None))
      ensures up ==> table == old(table)[id := Message(id, tenant, recipient, content, now, None)]
      ensures !up ==> r.Err? && table == old(table)
    {
      if !up {
        return Err("insert inapp message");
      }
      var m := Message(id, tenant, recipient, content, now, None);
      table := table[id := m];
      r := Ok(m);
    }

    /** MarkRead: stamps exactly the named row, if it is the recipient's and still unread. */
    method MarkRead(tenant: string, id: nat, recipient: string, now: int)
      requires Keyed(table)
      modifies this
      ensures Keyed(table) && Evolves(old(table), table) && table.Keys == old(table).Keys
      ensures forall k :: k in table ==>
                table[k].readAt == (if k == id && table[k].tenant == tenant && table[k].recipient == recipient
                                       && old(table)[k].readAt.None? then Some(now) else old(table)[k].readAt)
    {
      if id in table && table[id].tenant == tenant && table[id].recipient == recipient && table[id].readAt.None? {
        table := table[id := table[id].(readAt := Some(now))];
      }
    }

    /** MarkAllRead leaves the recipient no unread message and touches nobody else's. */
    method MarkAllRead(tenant: string, recipient: string, now: int)
      requires Keyed(table)
      modifies this
      ensures Keyed(table) && Evolves(old(table), table) && table.Keys == old(table).Keys
      ensures Matching(table, Query(tenant, recipient, true, 0, None)) == {}
      ensures forall k :: k in table ==>
                table[k].readAt == (if table[k].tenant == tenant && table[k].recipient == recipient
                                       && old(table)[k].readAt.None? then Some(now) else old(table)[k].readAt)
    {
      table := map id | id in table ::
        if table[id].tenant == tenant && table[id].recipient == recipient && table[id].readAt.None?
        then table[id].(readAt := Some(now)) else table[id];
    }

    /** List with a cursor: fails exactly when the database is down or the cursor row is not
        the tenant's, and otherwise returns the first page strictly below the cursor. */
    method ListAfter(q: Query, up: bool) returns (r: Result<seq<Message>>)
      requires q.afterId.Some?
      ensures r.Ok? <==> up && q.afterId.value in table && table[q.afterId.value].tenant == q.tenant
      ensures r.Ok? ==> IsFirst(BelowCursor(table, q, table[q.afterId.value]), NewestFirst, PageSize(q.limit), r.value)
    {
      var limit := q.limit;
      if limit <= 0 {
        limit := DEFAULT_LIMIT;
      }
      if !up || !HasCursor(table, q.tenant, q.afterId.value) {
        return Err("list inbox cursor lookup");
      }
      var rows := Select(BelowCursor(table, q, table[q.afterId.value]), NewestFirst, limit);
      r := Ok(rows);
    }

    /** List without a cursor: the page that starts at the offset of some legal listing; the
        database rejects a negative offset. */
    method ListTop(q: Query, offset: int, up: bool) returns (r: Result<seq<Message>>, ghost all: seq<Message>)
      requires q.afterId.None?
      ensures r.Ok? <==> up && offset >= 0
      ensures r.Ok? ==> IsFirst(Matching(table, q), NewestTimeFirst, offset + PageSize(q.limit), all)
      ensures r.Ok? ==> r.value == if offset <= |all| then all[offset..] else []
      ensures r.Ok? && offset == 0 ==> IsFirst(Matching(table, q), NewestTimeFirst, PageSize(q.limit), r.value)
    {
      var limit := q.limit;
      if limit <= 0 {
        limit := DEFAULT_LIMIT;
      }
      all := [];
      if !up || offset < 0 {
        return Err("list inbox"), all;
      }
      var rows := Select(Matching(table, q), NewestTimeFirst, offset + limit);
      all := rows;
      r := Ok(if offset <= |rows| then rows[offset..] else []);
    }

    /** ListSince: the first 200 rows above the cursor, oldest first. */
    method ListSince(tenant: string, recipient: string, since: nat, up: bool) returns (r: Result<seq<Message>>)
      ensures r.Ok? <==> up && since in table && table[since].tenant == tenant
      ensures r.Ok? ==> IsFirst(AboveCursor(table, tenant, recipient, table[since]), OldestFirst, GAP_LIMIT, r.value)
    {
      if !up || !HasCursor(table, tenant, since) {
        return Err("list inbox since cursor lookup");
      }
      var rows := Select(AboveCursor(table, tenant, recipient, table[since]), OldestFirst, GAP_LIMIT);
      r := Ok(rows);
    }

    /** CountUnread counts what an unread-only listing would range over. */
    method CountUnread(tenant: string, recipient: string) returns (n: nat)
      requires Keyed(table)
      ensures n == |Matching(table, Query(tenant, recipient, true, 0, None))|
      ensures n == |set id | id in table && table[id].tenant == tenant && table[id].recipient == recipient
                             && table[id].readAt.None?|
    {
      n := 0;
      var todo := table.Keys;
      ghost var done: set<Message>, ids: set<nat> := {}, {};
      var q := Query(tenant, recipient, true, 0, None);
      while todo != {}
        invariant todo <= table.Keys
        invariant done == (set id | id in table && id !in todo && Matches(table[id], q) :: table[id])
        invariant ids == (set id | id in table && id !in todo && table[id].tenant == tenant && table[id].recipient == recipient
                                   && table[id].readAt.None?)
        invariant n == |done| == |ids|
        decreases |todo|
      {
        var id :| id in todo;
        todo := todo - {id};
        if table[id].tenant == tenant && table[id].recipient == recipient && table[id].readAt.None? {
          assert table[id] !in done;
          done, ids := done + {table[id]}, ids + {id};
          n := n + 1;
        }
      }
      assert done == Matching(table, q);
      assert ids == set id | id in table && table[id].tenant == tenant && table[id].recipient == recipient
                             && table[id].readAt.None?;
    }
  }
}
