/** Following after_id from page to page while other clients write
    (internal/repository/inapp.go List, internal/db/inapp.sql.go ListInboxAfterCursor). */
module Paging {
  import opened Collections
  import opened OrderedQuery
  import opened Inbox

  /** Page k is read from tables[k]; between reads the table evolves under inserts and
      mark-reads.  Each page's cursor is the last row of the full page before it. */
  ghost predicate Walk(q: Query, cursorId: nat, tables: seq<Table>, pages: seq<seq<Message>>)
    decreases |pages|
  {
    && |tables| == |pages| > 0
    && Keyed(tables[0])
    && HasCursor(tables[0], q.tenant, cursorId)
    && IsFirst(BelowCursor(tables[0], q, tables[0][cursorId]), NewestFirst, PageSize(q.limit), pages[0])
    && (|pages| > 1 ==>
          && |pages[0]| == PageSize(q.limit)
          && Evolves(tables[0], tables[1])
          && Walk(q, pages[0][|pages[0]| - 1].id, tables[1..], pages[1..]))
  }

  /** The client stops at the first short page. */
  ghost predicate CompleteWalk(q: Query, cursorId: nat, tables: seq<Table>, pages: seq<seq<Message>>) {
    Walk(q, cursorId, tables, pages) && |pages[|pages| - 1]| < PageSize(q.limit)
  }

  ghost predicate StrictlyDescending(rows: seq<Message>) {
    forall i, j :: 0 <= i < j < |rows| ==> Older(rows[j], rows[i])
  }

  ghost predicate AllOlder(rows: seq<Message>, cursor: Message) {
    forall i :: 0 <= i < |rows| ==> Older(rows[i], cursor)
  }

  /** Rows of the walk below cursor, in strictly descending order. */
  lemma {:induction false} WalkDescends(q: Query, cursorId: nat, tables: seq<Table>, pages: seq<seq<Message>>)
    requires Walk(q, cursorId, tables, pages)
    ensures StrictlyDescending(Flatten(pages))
    ensures AllOlder(Flatten(pages), tables[0][cursorId])
    decreases |pages|
  {
    var page, cursor := pages[0], tables[0][cursorId];
    PageDescends(tables[0], q, cursor, page);
    if |pages| > 1 {
      var last := page[|page| - 1];
      WalkDescends(q, last.id, tables[1..], pages[1..]);
      LastPersists(tables[0], tables[1], q, cursor, page);
      ConcatDescends(page, Flatten(pages[1..]), cursor);
    } else {
      assert Flatten(pages[1..]) == [];
      assert Flatten(pages) == page;
    }
  }

  lemma PageDescends(t: Table, q: Query, cursor: Message, page: seq<Message>)
    requires Keyed(t) && IsFirst(BelowCursor(t, q, cursor), NewestFirst, PageSize(q.limit), page)
    ensures StrictlyDescending(page) && AllOlder(page, cursor)
    ensures forall i :: 0 <= i < |page| ==> page[i].id in t && t[page[i].id] == page[i] && Matches(page[i], q)
  {
    forall i, j | 0 <= i < j < |page| ensures Older(page[j], page[i]) {
      assert page[i] in BelowCursor(t, q, cursor) && page[j] in BelowCursor(t, q, cursor);
    }
  }

  /** The last row of a page is still there, with the same position, at the next read. */
  lemma LastPersists(t: Table, t': Table, q: Query, cursor: Message, page: seq<Message>)
    requires Keyed(t) && IsFirst(BelowCursor(t, q, cursor), NewestFirst, PageSize(q.limit), page)
    requires Evolves(t, t') && |page| > 0
    ensures var last := page[|page| - 1];
            && last.id in t' && t'[last.id].id == last.id && t'[last.id].createdAt == last.createdAt
            && t'[last.id].tenant == q.tenant
  {
    PageDescends(t, q, cursor, page);
  }

  lemma ConcatDescends(page: seq<Message>, rest: seq<Message>, cursor: Message)
    requires |page| > 0 && StrictlyDescending(page) && StrictlyDescending(rest)
    requires AllOlder(page, cursor) && AllOlder(rest, page[|page| - 1])
    ensures StrictlyDescending(page + rest) && AllOlder(page + rest, cursor)
  {
  }

  /** Reading a later table keeps every row below a page's last row below it, so a row not
      yet returned is still ahead of the walk. */
  lemma {:induction false} WalkFinds(q: Query, cursorId: nat, tables: seq<Table>, pages: seq<seq<Message>>, id: nat)
    requires CompleteWalk(q, cursorId, tables, pages)
    requires id in tables[0] && Older(tables[0][id], tables[0][cursorId])
    requires forall k :: 0 <= k < |tables| ==> id in tables[k] && Matches(tables[k][id], q)
    ensures exists m :: m in Flatten(pages) && m.id == id
    decreases |pages|
  {
    var page, cursor, row := pages[0], tables[0][cursorId], tables[0][id];
    var below := BelowCursor(tables[0], q, cursor);
    assert row in below;
    if row in page {
      assert row in Flatten(pages);
    } else {
      if |pages| == 1 {
        ShortPageIsAll(below, NewestFirst, PageSize(q.limit), page);
        assert false;
      }
      var last := page[|page| - 1];
      LastPersists(tables[0], tables[1], q, cursor, page);
      assert NewestFirst(last, row);
      PageDescends(tables[0], q, cursor, page);
      WalkFinds(q, last.id, tables[1..], pages[1..], id);
      var m :| m in Flatten(pages[1..]) && m.id == id;
      assert m in Flatten(pages);
    }
  }

  /** Rows keep their position, so equal ids would mean equal positions. */
  lemma {:induction false} WalkRowsStored(q: Query, cursorId: nat, tables: seq<Table>, pages: seq<seq<Message>>, m: Message)
    requires Walk(q, cursorId, tables, pages) && m in Flatten(pages)
    ensures exists k :: 0 <= k < |tables| && m.id in tables[k] && tables[k][m.id] == m && Matches(m, q)
    ensures m.id in tables[|tables| - 1] && tables[|tables| - 1][m.id].createdAt == m.createdAt
    decreases |pages|
  {
    var page := pages[0];
    if m in page {
      PageDescends(tables[0], q, tables[0][cursorId], page);
      WalkEvolves(q, cursorId, tables, pages);
    } else {
      assert m in Flatten(pages[1..]);
      assert |pages| > 1;
      WalkRowsStored(q, page[|page| - 1].id, tables[1..], pages[1..], m);
      var k :| 0 <= k < |tables[1..]| && m.id in tables[1..][k] && tables[1..][k][m.id] == m && Matches(m, q);
      assert tables[k + 1] == tables[1..][k];
    }
  }

  lemma {:induction false} WalkEvolves(q: Query, cursorId: nat, tables: seq<Table>, pages: seq<seq<Message>>)
    requires Walk(q, cursorId, tables, pages)
    ensures Evolves(tables[0], tables[|tables| - 1])
    decreases |pages|
  {
    if |pages| > 1 {
      WalkEvolves(q, pages[0][|pages[0]| - 1].id, tables[1..], pages[1..]);
      EvolvesTransitive(tables[0], tables[1], tables[|tables| - 1]);
    }
  }

  /** Keyset paging under concurrent writes.  Following after_id from any cursor to a short
      page returns rows in strictly descending (created_at, id) order, never the same row
      twice, only rows that matched when read, and every row below the cursor that existed at
      the start and matched throughout. */
  lemma KeysetPaging(q: Query, cursorId: nat, tables: seq<Table>, pages: seq<seq<Message>>)
    requires CompleteWalk(q, cursorId, tables, pages)
    ensures var rows := Flatten(pages);
            && (forall i, j :: 0 <= i < j < |rows| ==>
                  && rows[i].id != rows[j].id
                  && (rows[i].createdAt > rows[j].createdAt
                      || (rows[i].createdAt == rows[j].createdAt && rows[i].id > rows[j].id)))
            && (forall m :: m in rows ==>
                  && Older(m, tables[0][cursorId])
                  && exists k :: 0 <= k < |tables| && m.id in tables[k] && tables[k][m.id] == m && Matches(m, q))
            && (forall id :: id in tables[0] && Older(tables[0][id], tables[0][cursorId])
                  && (forall k :: 0 <= k < |tables| ==> id in tables[k] && Matches(tables[k][id], q))
                  ==> exists m :: m in rows && m.id == id)
  {
    var rows := Flatten(pages);
    WalkDescends(q, cursorId, tables, pages);
    forall i, j | 0 <= i < j < |rows| ensures rows[i].id != rows[j].id {
      WalkRowsStored(q, cursorId, tables, pages, rows[i]);
      WalkRowsStored(q, cursorId, tables, pages, rows[j]);
    }
    forall m | m in rows
      ensures Older(m, tables[0][cursorId])
           && exists k :: 0 <= k < |tables| && m.id in tables[k] && tables[k][m.id] == m && Matches(m, q)
    {
      WalkRowsStored(q, cursorId, tables, pages, m);
    }
    forall id | id in tables[0] && Older(tables[0][id], tables[0][cursorId])
                && (forall k :: 0 <= k < |tables| ==> id in tables[k] && Matches(tables[k][id], q))
      ensures exists m :: m in rows && m.id == id
    {
      WalkFinds(q, cursorId, tables, pages, id);
    }
  }

  /** The cursor lookup of every page after the first succeeds: the walk can always go on. */
  lemma WalkContinues(q: Query, t: Table, t': Table, cursorId: nat, page: seq<Message>)
    requires Keyed(t) && HasCursor(t, q.tenant, cursorId) && Evolves(t, t')
    requires IsFirst(BelowCursor(t, q, t[cursorId]), NewestFirst, PageSize(q.limit), page)
    requires |page| == PageSize(q.limit)
    ensures HasCursor(t', q.tenant, page[|page| - 1].id)
  {
    LastPersists(t, t', q, t[cursorId], page);
  }

  // ------------------------------------------------------------ the first page

  /** Row id is on the page read from t. */
  ghost predicate OnPage(t: Table, page: seq<Message>, id: nat) {
    id in t && t[id] in page
  }

  /** Row id is below the page's last row in t', where the following pages are read from. */
  ghost predicate Follows(t': Table, q: Query, page: seq<Message>, id: nat)
    requires |page| > 0
  {
    id in t' && t'[id] in BelowCursor(t', q, page[|page| - 1])
  }

  /** The first page is ordered by created_at alone.  Followed from its last row, with inserts
      and read marks in between, a row that matches at both reads is returned exactly once
      unless it shares that row's created_at on the wrong side: returned with a smaller id it
      comes twice, left out with a larger id it never comes. */
  lemma FirstPageExact(t: Table, t': Table, q: Query, page: seq<Message>, id: nat)
    requires Keyed(t) && Keyed(t') && Evolves(t, t')
    requires IsFirst(Matching(t, q), NewestTimeFirst, PageSize(q.limit), page) && |page| == PageSize(q.limit)
    requires id in t && Matches(t[id], q) && Matches(t'[id], q)
    ensures var row, last := t[id], page[|page| - 1];
            OnPage(t, page, id) != Follows(t', q, page, id)
            <==> !(row.createdAt == last.createdAt
                   && ((row in page && row.id < last.id) || (row !in page && row.id > last.id)))
  {
    var row, last := t[id], page[|page| - 1];
    assert last in Matching(t, q) && row in Matching(t, q);
    assert Follows(t', q, page, id) <==> Older(row, last) by {
      FollowsIff(t', q, last, id);
    }
    if row in page {
      var k :| 0 <= k < |page| && page[k] == row;
      assert row == last || NewestTimeFirst(row, last);
    } else {
      assert NewestTimeFirst(last, row);
      var lastId :| lastId in t && Matches(t[lastId], q) && t[lastId] == last;
      assert row.id != last.id;
    }
  }

  lemma FollowsIff(t': Table, q: Query, last: Message, id: nat)
    requires id in t' && Matches(t'[id], q)
    ensures t'[id] in BelowCursor(t', q, last) <==> Older(t'[id], last)
  {
  }

  // ------------------------------------------------ the condition on the table

  /** A full first page the database may return. */
  ghost predicate FirstPage(t: Table, q: Query, page: seq<Message>) {
    IsFirst(Matching(t, q), NewestTimeFirst, PageSize(q.limit), page) && |page| == PageSize(q.limit)
  }

  /** Whatever legal first page is returned, and whatever is written before the next is read,
      every row that matches at both reads is on the page or follows it, and not both. */
  ghost predicate ExactlyOnce(t: Table, q: Query) {
    forall page, t', id :: FirstPage(t, q, page) && MatchesBoth(t, t', q, id) ==>
      OnPage(t, page, id) != Follows(t', q, page, id)
  }

  ghost predicate MatchesBoth(t: Table, t': Table, q: Query, id: nat) {
    Keyed(t') && Evolves(t, t') && id in t && Matches(t[id], q) && Matches(t'[id], q)
  }

  /** Rows newer than the last of a legal page are on it. */
  lemma NewerIsOnPage(t: Table, q: Query, page: seq<Message>, row: Message)
    requires FirstPage(t, q, page) && row in Matching(t, q) && row.createdAt > page[|page| - 1].createdAt
    ensures row in page
  {
    assert row in page || NewestTimeFirst(page[|page| - 1], row);
  }

  /** No legal page ends earlier than another. */
  lemma BoundaryNotNewer(t: Table, q: Query, a: seq<Message>, b: seq<Message>)
    requires FirstPage(t, q, a) && FirstPage(t, q, b)
    ensures b[|b| - 1].createdAt <= a[|a| - 1].createdAt
  {
    var last := a[|a| - 1];
    if b[|b| - 1].createdAt > last.createdAt {
      forall row | row in Elements(b) ensures row in Elements(a) - {last} {
        var i :| 0 <= i < |b| && b[i] == row;
        assert row in Matching(t, q) && (row == b[|b| - 1] || NewestTimeFirst(row, b[|b| - 1]));
        NewerIsOnPage(t, q, a, row);
      }
      assert last in Elements(a);
      DistinctSize(a);
      DistinctSize(b);
      SubsetSize(Elements(b), Elements(a) - {last});
    }
  }

  /** A tied row in the last place makes another legal page. */
  lemma ReplaceLast(t: Table, q: Query, page: seq<Message>, row: Message) returns (other: seq<Message>)
    requires FirstPage(t, q, page) && row in Matching(t, q) && row !in page && row.createdAt == page[|page| - 1].createdAt
    ensures FirstPage(t, q, other) && other[|other| - 1] == row && page[|page| - 1] !in other
  {
    var n := |page| - 1;
    other := page[n := row];
    assert forall i :: 0 <= i < n ==> other[i] == page[i];
    forall i, r | 0 <= i < |other| && r in Matching(t, q) && r !in other ensures NewestTimeFirst(other[i], r) {
      if r in page {
        assert r == page[n];
        assert i == n || NewestTimeFirst(page[i], page[n]);
      } else {
        assert NewestTimeFirst(page[i], r);
      }
    }
  }

  /** So does swapping tied rows. */
  lemma SwapLast(t: Table, q: Query, page: seq<Message>, k: nat) returns (other: seq<Message>)
    requires FirstPage(t, q, page) && k < |page| - 1 && page[k].createdAt == page[|page| - 1].createdAt
    ensures FirstPage(t, q, other) && other[|other| - 1] == page[k] && page[|page| - 1] in other
  {
    var n := |page| - 1;
    other := page[k := page[n]][n := page[k]];
    assert forall i :: 0 <= i < |page| ==> other[i] == if i == k then page[n] else if i == n then page[k] else page[i];
    assert other[k] in other;
    forall i, j | 0 <= i < j < |other| ensures other[i] != other[j] && NewestTimeFirst(other[i], other[j]) {
      Between(page, k, i, j);
    }
    forall i, r | 0 <= i < |other| && r in Matching(t, q) && r !in other ensures NewestTimeFirst(other[i], r) {
      SameRows(page, other, k, r);
      assert NewestTimeFirst(page[i], r) && NewestTimeFirst(page[n], r) && NewestTimeFirst(page[k], r);
    }
  }

  /** From a tied row on, all rows of a page are tied with its last. */
  lemma Between(page: seq<Message>, k: nat, i: nat, j: nat)
    requires Ascending(NewestTimeFirst, page) && k < |page| - 1 && page[k].createdAt == page[|page| - 1].createdAt
    requires i < j < |page|
    ensures NewestTimeFirst(page[i], page[j])
    ensures k <= i ==> page[i].createdAt == page[k].createdAt
    ensures k <= j ==> page[j].createdAt == page[k].createdAt
  {
    var n := |page| - 1;
    assert k < i ==> NewestTimeFirst(page[k], page[i]);
    assert k < j ==> NewestTimeFirst(page[k], page[j]);
    assert i < n ==> NewestTimeFirst(page[i], page[n]);
    assert j < n ==> NewestTimeFirst(page[j], page[n]);
  }

  lemma SameRows(page: seq<Message>, other: seq<Message>, k: nat, r: Message)
    requires k < |page| - 1 && other == page[k := page[|page| - 1]][|page| - 1 := page[k]]
    requires r !in other
    ensures r !in page
  {
    var n := |page| - 1;
    forall i | 0 <= i < |page| ensures page[i] != r {
      var j := if i == k then n else if i == n then k else i;
      assert other[j] == page[i] && other[j] in other;
    }
  }

  /** A legal page that loses or repeats the row with this id. */
  ghost predicate Misses(t: Table, q: Query, page: seq<Message>, id: nat) {
    FirstPage(t, q, page) && id in t && Matches(t[id], q) && OnPage(t, page, id) == Follows(t, q, page, id)
  }

  /** With a second row at the boundary instant, some legal page loses or repeats one. */
  lemma TieMisses(t: Table, q: Query, page: seq<Message>, row: Message) returns (other: seq<Message>, id: nat)
    requires Keyed(t) && FirstPage(t, q, page) && row in Matching(t, q)
    requires row != page[|page| - 1] && row.createdAt == page[|page| - 1].createdAt
    ensures Misses(t, q, other, id)
  {
    var n := |page| - 1;
    var last := page[n];
    assert last in Matching(t, q);
    assert t[row.id] == row && t[last.id] == last;
    other, id := page, row.id;
    if row !in page {
      if row.id < last.id {
        other := ReplaceLast(t, q, page, row);
        id := last.id;
      }
    } else {
      var k :| 0 <= k < |page| && page[k] == row;
      if row.id > last.id {
        other := SwapLast(t, q, page, k);
        id := last.id;
      }
    }
    FirstPageExact(t, t, q, other, id);
  }

  /** First page exactness.  Let some legal first page end with a row created at some instant.
      Then every legal first page, followed from its last row, gives every matching row exactly
      once if and only if no other matching row was created at that instant. */
  lemma FirstPageIff(t: Table, q: Query, page: seq<Message>)
    requires Keyed(t) && FirstPage(t, q, page)
    ensures ExactlyOnce(t, q)
       <==> forall row :: row in Matching(t, q) && row.createdAt == page[|page| - 1].createdAt ==> row == page[|page| - 1]
  {
    var last := page[|page| - 1];
    if row :| row in Matching(t, q) && row.createdAt == last.createdAt && row != last {
      var other, id := TieMisses(t, q, page, row);
      assert MatchesBoth(t, t, q, id);
      assert !(OnPage(t, other, id) != Follows(t, q, other, id));
    } else {
      forall p, t', id | FirstPage(t, q, p) && MatchesBoth(t, t', q, id)
        ensures OnPage(t, p, id) != Follows(t', q, p, id)
      {
        BoundaryNotNewer(t, q, page, p);
        BoundaryNotNewer(t, q, p, page);
        assert p[|p| - 1] in Matching(t, q) && t[id] in Matching(t, q);
        FirstPageExact(t, t', q, p, id);
      }
    }
  }

  /** Two rows created at the same instant, page size one: the second is never returned. */
  lemma FirstPageCanLose()
    ensures var a, b := Message(1, "t", "u", "", 0, None), Message(2, "t", "u", "", 0, None);
            var t, q := map[1 := a, 2 := b], Query("t", "u", false, 1, None);
            && IsFirst(Matching(t, q), NewestTimeFirst, PageSize(q.limit), [a])
            && b in Matching(t, q) && b !in [a] && BelowCursor(t, q, a) == {}
  {
    var a, b := Message(1, "t", "u", "", 0, None), Message(2, "t", "u", "", 0, None);
    var t, q := map[1 := a, 2 := b], Query("t", "u", false, 1, None);
    assert t[1] == a && t[2] == b;
    assert Matching(t, q) == {a, b};
  }
}
