// Keyset paging through a user's transactions, newest first.
module Pagination {
  import opened Wrappers
  import opened Money
  import opened Ledger
  import opened Tables
  import Cursor

  type Position = Cursor.Position

  const PageDefaultLimit := 20
  const PageMaxLimit := 100

  // ---------- The query ----------

  predicate Newer(a: Entry, b: Entry) {
    a.createdAt > b.createdAt || (a.createdAt == b.createdAt && a.id > b.id)
  }

  /** The row is the user's and comes after the cursor position. */
  predicate Matches(e: Entry, u: User, after: Option<Position>) {
    && (e.sender == Some(u) || e.receiver == Some(u))
    && (after.Some? ==>
          e.createdAt < after.value.createdAt || (e.createdAt == after.value.createdAt && e.id < after.value.id))
  }

  function Insert(rows: seq<Entry>, e: Entry): seq<Entry> {
    if rows == [] || Newer(e, rows[0]) then [e] + rows else [rows[0]] + Insert(rows[1..], e)
  }

  /** The matching rows of the log, in descending order of (created_at, id). */
  function Rows(log: seq<Entry>, u: User, after: Option<Position>): seq<Entry> {
    if log == [] then []
    else
      var last := log[|log| - 1];
      var rest := Rows(log[..|log| - 1], u, after);
      if Matches(last, u, after) then Insert(rest, last) else rest
  }

  function Clamp(limit: int): (n: nat)
    ensures 1 <= n <= PageMaxLimit && (n == limit <==> 1 <= limit <= PageMaxLimit)
    ensures limit <= 0 ==> n == 20
    ensures limit > 100 ==> n == 100
  {
    if limit <= 0 then PageDefaultLimit else if limit > PageMaxLimit then PageMaxLimit else limit
  }

  function Take(rows: seq<Entry>, n: nat): seq<Entry> {
    if |rows| <= n then rows else rows[..n]
  }

  datatype Page = Page(rows: seq<Entry>, next: Option<Position>)

  function PositionOf(e: Entry): Position {
    Cursor.Position(Wrap64(e.createdAt), e.id)
  }

  /** One page: it looks one row ahead, and has a successor exactly when that row exists. */
  function Query(log: seq<Entry>, u: User, after: Option<Position>, limit: nat): Page
    requires limit > 0
  {
    var rows := Rows(log, u, after);
    if |rows| > limit then Page(rows[..limit], Some(PositionOf(rows[limit - 1]))) else Page(rows, None)
  }

  /** What the endpoint returns for a cursor text; None when the cursor is invalid. */
  function Answer(log: seq<Entry>, u: User, cursor: string, limit: int): Option<(seq<Entry>, string)> {
    if cursor != "" && Cursor.DecodeCursor(cursor) == None then None
    else
      var page := Query(log, u, if cursor == "" then None else Cursor.DecodeCursor(cursor), Clamp(limit));
      Some((page.rows, NextCursor(page)))
  }

  function NextCursor(page: Page): string {
    if page.next.Some? then Cursor.EncodeCursor(page.next.value) else ""
  }

  class PostgresTxLogStore {
    var log: seq<Entry>

    constructor ()
      ensures log == []
    {
      log := [];
    }

    /** The insert fails when the id is taken. */
    method Append(e: Entry) returns (failed: bool)
      modifies this
      ensures failed <==> Row(old(log), e.id).Some?
      ensures log == if failed then old(log) else old(log) + [e]
    {
      if Row(log, e.id).Some? {
        return true;
      }
      log := log + [e];
      return false;
    }

    /** Reads the rows one by one, and cuts off the extra one. */
    method Fetch(userID: User, after: Option<Position>, limit: nat) returns (txs: seq<Entry>, nextCursor: string)
      requires limit > 0
      ensures var page := Query(log, userID, after, limit);
              txs == page.rows && nextCursor == NextCursor(page)
    {
      var rows := Take(Rows(log, userID, after), limit + 1);
      txs := [];
      var i := 0;
      while i < |rows|
        invariant 0 <= i <= |rows| && txs == rows[..i]
      {
        txs := txs + [rows[i]];
        i := i + 1;
      }
      assert txs == rows;
      nextCursor := "";
      if |txs| > limit {
        var last := txs[limit - 1];
        nextCursor := Cursor.EncodeCursor(PositionOf(last));
        txs := txs[..limit];
      }
    }

    method QueryByUserID(userID: User, cursor: string, limit: int) returns (r: Option<(seq<Entry>, string)>)
      ensures r == None <==> cursor != "" && Cursor.DecodeCursor(cursor) == None
      ensures r.Some? ==>
                var after := if cursor == "" then None else Cursor.DecodeCursor(cursor);
                var page := Query(log, userID, after, Clamp(limit));
                r.value == (page.rows, NextCursor(page))
      ensures r == Answer(log, userID, cursor, limit)
    {
      var n := limit;
      if n <= 0 {
        n := PageDefaultLimit;
      }
      if n > PageMaxLimit {
        n := PageMaxLimit;
      }
      var after := None;
      if cursor != "" {
        after := Cursor.DecodeCursor(cursor);
        if after == None {
          return None;
        }
      }
      var txs, nextCursor := Fetch(userID, after, n);
      return Some((txs, nextCursor));
    }
  }

  // ---------- The rows are sorted and complete ----------

  ghost predicate Descending(rows: seq<Entry>) {
    forall i, j :: 0 <= i < j < |rows| ==> Newer(rows[i], rows[j])
  }

  lemma {:induction false} InsertSorted(rows: seq<Entry>, e: Entry)
    requires Descending(rows) && forall r :: r in rows ==> r.id != e.id
    ensures Descending(Insert(rows, e))
    ensures forall r :: r in Insert(rows, e) <==> r in rows || r == e
  {
    if rows != [] && !Newer(e, rows[0]) {
      InsertSorted(rows[1..], e);
      var tail := Insert(rows[1..], e);
      assert rows == [rows[0]] + rows[1..];
      assert rows[0] in rows;
      forall r | r in tail ensures Newer(rows[0], r) {
        if r != e {
          var k :| 0 <= k < |rows[1..]| && rows[1..][k] == r;
          assert rows[k + 1] == r;
        }
      }
    } else if rows != [] {
      forall j | 0 <= j < |rows| ensures Newer(e, rows[j]) {
        assert j > 0 ==> Newer(rows[0], rows[j]);
      }
    }
  }

  lemma {:induction false} RowsOk(log: seq<Entry>, u: User, after: Option<Position>)
    requires UniqueIds(log)
    ensures Descending(Rows(log, u, after))
    ensures forall e :: e in Rows(log, u, after) <==> e in log && Matches(e, u, after)
  {
    if log != [] {
      var front, last := log[..|log| - 1], log[|log| - 1];
      RowsOk(front, u, after);
      assert log == front + [last];
      if Matches(last, u, after) {
        forall r | r in Rows(front, u, after) ensures r.id != last.id {
          var k :| 0 <= k < |front| && front[k] == r;
          assert log[k].id != log[|log| - 1].id;
        }
        InsertSorted(Rows(front, u, after), last);
      }
    }
  }

  lemma SameFirst(a: seq<Entry>, b: seq<Entry>)
    requires Descending(a) && Descending(b) && a != [] && b != [] && a[0] in b && b[0] in a
    ensures a[0] == b[0]
  {
    var i :| 0 <= i < |b| && b[i] == a[0];
    var j :| 0 <= j < |a| && a[j] == b[0];
    assert i > 0 ==> Newer(b[0], b[i]);
    assert j > 0 ==> Newer(a[0], a[j]);
  }

  /** Only one descending sequence has given elements. */
  lemma {:induction false} DescendingUnique(a: seq<Entry>, b: seq<Entry>)
    requires Descending(a) && Descending(b) && forall e :: e in a <==> e in b
    ensures a == b
  {
    if b != [] {
      Inhabited(b, a);
    }
    if a != [] {
      assert a[0] in b;
      assert b[0] in a;
      SameFirst(a, b);
      forall e ensures e in a[1..] <==> e in b[1..] {
        OnlyFirst(a, e);
        OnlyFirst(b, e);
      }
      DescendingUnique(a[1..], b[1..]);
    }
  }

  lemma Inhabited(b: seq<Entry>, a: seq<Entry>)
    requires b != [] && forall e :: e in b ==> e in a
    ensures a != []
  {
    assert b[0] in a;
  }

  lemma OnlyFirst(a: seq<Entry>, e: Entry)
    requires Descending(a) && a != []
    ensures e in a[1..] <==> e in a && e != a[0]
  {
    if e in a[1..] {
      var k :| 0 <= k < |a[1..]| && a[1..][k] == e;
      assert Newer(a[0], a[k + 1]);
    }
  }

  /** In full: whose rows they are, which come after the cursor, and that the newest comes first. */
  lemma RowsInFull(log: seq<Entry>, u: User, after: Option<Position>)
    requires UniqueIds(log)
    ensures forall e :: e in Rows(log, u, after) <==>
              && e in log && (e.sender == Some(u) || e.receiver == Some(u))
              && (after.Some? ==>
                    e.createdAt < after.value.createdAt
                    || (e.createdAt == after.value.createdAt && e.id < after.value.id))
    ensures var rows := Rows(log, u, after);
            forall i, j :: 0 <= i < j < |rows| ==>
              || rows[i].createdAt > rows[j].createdAt
              || (rows[i].createdAt == rows[j].createdAt && rows[i].id > rows[j].id)
  {
    RowsOk(log, u, after);
  }
}
