/** The meaning of a SQL SELECT with WHERE, ORDER BY and LIMIT.

    The rows that pass the WHERE clause form a finite set.  ORDER BY is a total preorder;
    where it leaves ties the database may return the tied rows in any order, so the result
    is characterised by a predicate rather than computed by a function. */
module OrderedQuery {
  import opened Collections

  ghost predicate TotalPreorder<T(!new)>(le: (T, T) -> bool) {
    && (forall a, b :: le(a, b) || le(b, a))
    && (forall a, b, c :: le(a, b) && le(b, c) ==> le(a, c))
  }

  ghost predicate Distinct<T>(s: seq<T>) {
    forall i, j :: 0 <= i < j < |s| ==> s[i] != s[j]
  }

  ghost predicate Ascending<T>(le: (T, T) -> bool, s: seq<T>) {
    forall i, j :: 0 <= i < j < |s| ==> le(s[i], s[j])
  }

  /** out is a legal answer to: SELECT rows ORDER BY le LIMIT n. */
  ghost predicate IsFirst<T>(rows: set<T>, le: (T, T) -> bool, n: nat, out: seq<T>) {
    && (forall i :: 0 <= i < |out| ==> out[i] in rows)
    && Distinct(out)
    && Ascending(le, out)
    && |out| == (if |rows| < n then |rows| else n)
    && (forall i, r :: 0 <= i < |out| && r in rows && r !in out ==> le(out[i], r))
  }

  function Elements<T>(s: seq<T>): set<T> {
    set x | x in s
  }

  lemma {:induction false} DistinctSize<T>(s: seq<T>)
    requires Distinct(s)
    ensures |Elements(s)| == |s|
  {
    if s == [] {
    } else {
      var n := |s| - 1;
      DistinctSize(s[..n]);
      assert s == s[..n] + [s[n]];
      assert Elements(s) == Elements(s[..n]) + {s[n]};
      assert s[n] !in s[..n];
    }
  }

  lemma SubsetFull<T>(a: set<T>, b: set<T>)
    requires a <= b && |a| == |b|
    ensures a == b
  {
    assert b == a + (b - a);
  }

  /** A page shorter than the limit holds every row that passed the filter. */
  lemma ShortPageIsAll<T>(rows: set<T>, le: (T, T) -> bool, n: nat, out: seq<T>)
    requires IsFirst(rows, le, n, out) && |out| < n
    ensures forall r :: r in rows ==> r in out
  {
    DistinctSize(out);
    SubsetFull(Elements(out), rows);
  }

  /** When the order has no ties among the rows the answer is unique. */
  lemma FirstUnique<T>(rows: set<T>, le: (T, T) -> bool, n: nat, a: seq<T>, b: seq<T>)
    requires IsFirst(rows, le, n, a) && IsFirst(rows, le, n, b)
    requires forall x, y :: x in rows && y in rows && le(x, y) && le(y, x) ==> x == y
    ensures a == b
  {
    if a != b {
      // Take the first position at which the answers differ.
      var k :| 0 <= k < |a| && a[k] != b[k];
      k := FirstDifference(a, b, k);
      assert a[k] !in b[..k];
      assert b[k] !in a[..k];
      LaterOrAbsent(rows, le, n, a, b[k], k);
      LaterOrAbsent(rows, le, n, b, a[k], k);
    }
  }

  lemma {:induction false} FirstDifference<T>(a: seq<T>, b: seq<T>, k: nat) returns (d: nat)
    requires |a| == |b| && k < |a| && a[k] != b[k]
    ensures d < |a| && a[d] != b[d] && a[..d] == b[..d]
  {
    if a[..k] == b[..k] {
      d := k;
    } else {
      var j :| 0 <= j < k && a[..k][j] != b[..k][j];
      d := FirstDifference(a, b, j);
    }
  }

  /** A row different from out[k] that does not occur before it comes no earlier. */
  lemma LaterOrAbsent<T>(rows: set<T>, le: (T, T) -> bool, n: nat, out: seq<T>, r: T, k: nat)
    requires IsFirst(rows, le, n, out) && k < |out| && r in rows && r != out[k] && r !in out[..k]
    ensures le(out[k], r)
  {
    if r in out {
      var j :| 0 <= j < |out| && out[j] == r;
      if j < k {
        assert false;
      }
    }
  }

  /** out holds the first rows, rest the others. */
  ghost predicate Selected<T(!new)>(rows: set<T>, le: (T, T) -> bool, out: seq<T>, rest: set<T>) {
    && Distinct(out) && Ascending(le, out)
    && (forall r :: r in rows <==> r in out || r in rest)
    && (forall r :: r in out ==> r !in rest)
    && (forall i, r :: 0 <= i < |out| && r in rest ==> le(out[i], r))
  }

  lemma SelectOne<T(!new)>(rows: set<T>, le: (T, T) -> bool, out: seq<T>, rest: set<T>, m: T)
    requires Selected(rows, le, out, rest)
    requires m in rest && forall x :: x in rest ==> le(m, x)
    ensures Selected(rows, le, out + [m], rest - {m})
  {
  }

  /** A nonempty set of rows has a least one. */
  lemma {:induction false} LeastOf<T(!new)>(s: set<T>, le: (T, T) -> bool) returns (m: T)
    requires TotalPreorder(le) && |s| > 0
    ensures m in s && forall x :: x in s ==> le(m, x)
    decreases |s|
  {
    m := Pick(s);
    var others := s - {m};
    assert s == others + {m};
    if others == {} {
    } else {
      var least := LeastOf(others, le);
      if !le(m, least) {
        m := least;
      }
    }
  }

  lemma {:induction false} FirstRows<T(!new)>(rows: set<T>, le: (T, T) -> bool, n: nat) returns (out: seq<T>, rest: set<T>)
    requires TotalPreorder(le) && n <= |rows|
    ensures Selected(rows, le, out, rest) && |out| == n && |out| + |rest| == |rows|
  {
    if n == 0 {
      out, rest := [], rows;
    } else {
      out, rest := FirstRows(rows, le, n - 1);
      var m := LeastOf(rest, le);
      SelectOne(rows, le, out, rest, m);
      out, rest := out + [m], rest - {m};
    }
  }

  /** Every set of rows can be listed in order. */
  lemma Listing<T(!new)>(rows: set<T>, le: (T, T) -> bool) returns (out: seq<T>)
    requires TotalPreorder(le)
    ensures IsFirst(rows, le, |rows|, out) && forall r :: r in rows ==> r in out
  {
    var rest;
    out, rest := FirstRows(rows, le, |rows|);
    assert rest == {};
  }

  /** Every query has a legal answer; the loop selects a least remaining row each time. */
  method Select<T(!new, ==)>(rows: set<T>, le: (T, T) -> bool, n: nat) returns (out: seq<T>)
    requires TotalPreorder(le)
    ensures IsFirst(rows, le, n, out)
  {
    out := [];
    var rest := rows;
    while |out| < n && rest != {}
      invariant Selected(rows, le, out, rest)
      invariant |out| <= n && |out| + |rest| == |rows|
    {
      ghost var least := LeastOf(rest, le);
      var m :| m in rest && forall x :: x in rest ==> le(m, x);
      SelectOne(rows, le, out, rest, m);
      out := out + [m];
      rest := rest - {m};
    }
  }
}
