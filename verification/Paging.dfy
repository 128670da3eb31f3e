// Following the cursors from the first page to the last.
module Paging {
  import opened Wrappers
  import opened Arithmetic
  import opened Money
  import opened Ledger
  import opened Tables
  import opened Pagination
  import Cursor
  import WalletHistory

  /** The time of every row fits the 64 bits of a cursor, and ids are unique. */
  ghost predicate LogOk(log: seq<Entry>) {
    UniqueIds(log) && forall e :: e in log ==> InRange(e.createdAt)
  }

  // ---------- One page ----------

  lemma LeftForNext(log: seq<Entry>, u: User, after: Option<Position>, limit: nat, e: Entry)
    requires LogOk(log) && limit > 0 && |Rows(log, u, after)| > limit
    requires e in Rows(log, u, after) && e !in Rows(log, u, after)[..limit]
    ensures Matches(e, u, Query(log, u, after, limit).next)
  {
    var rows := Rows(log, u, after);
    RowsOk(log, u, after);
    var k :| 0 <= k < |rows| && rows[k] == e;
    assert forall i :: 0 <= i < limit ==> rows[..limit][i] == rows[i];
    assert rows[limit - 1] in rows && Newer(rows[limit - 1], e);
  }

  lemma OlderThanPage(log: seq<Entry>, u: User, after: Option<Position>, limit: nat, e: Entry, r: Entry)
    requires LogOk(log) && limit > 0 && |Rows(log, u, after)| > limit
    requires Matches(e, u, Query(log, u, after, limit).next) && r in Rows(log, u, after)[..limit]
    ensures Newer(r, e) && Matches(e, u, after)
  {
    var rows := Rows(log, u, after);
    RowsOk(log, u, after);
    var k :| 0 <= k < limit && rows[k] == r;
    assert rows[limit - 1] in rows;
    assert k < limit - 1 ==> Newer(rows[k], rows[limit - 1]);
  }

  /** Every matching row is on the page or is left for the next one, which has only older rows. */
  lemma PageSplits(log: seq<Entry>, u: User, after: Option<Position>, limit: nat)
    requires LogOk(log) && limit > 0
    ensures var page := Query(log, u, after, limit);
            && Descending(page.rows)
            && (forall e :: e in page.rows ==> e in log && Matches(e, u, after))
            && (forall e :: e in log && Matches(e, u, after) && e !in page.rows ==>
                  page.next.Some? && Matches(e, u, page.next))
            && (forall e, r :: page.next.Some? && Matches(e, u, page.next) && r in page.rows ==>
                  Newer(r, e) && Matches(e, u, after))
  {
    RowsOk(log, u, after);
    var rows, page := Rows(log, u, after), Query(log, u, after, limit);
    assert forall e :: e in page.rows ==> e in rows;
    if page.next.Some? {
      forall e | e in log && Matches(e, u, after) && e !in page.rows ensures Matches(e, u, page.next) {
        LeftForNext(log, u, after, limit, e);
      }
      forall e, r | Matches(e, u, page.next) && r in page.rows ensures Newer(r, e) && Matches(e, u, after) {
        OlderThanPage(log, u, after, limit, e, r);
      }
    }
  }

  /** The cursor text a page hands out asks for exactly the rows after it; the empty text asks for the first page. */
  lemma CursorContinues(log: seq<Entry>, log': seq<Entry>, u: User, after: Option<Position>, limit: int)
    ensures var page := Query(log, u, after, Clamp(limit));
            && (page.next == None <==> NextCursor(page) == "")
            && (page.next.Some? ==>
                  var page' := Query(log', u, page.next, Clamp(limit));
                  Answer(log', u, NextCursor(page), limit) == Some((page'.rows, NextCursor(page'))))
  {
    var page := Query(log, u, after, Clamp(limit));
    if page.next.Some? {
      Cursor.CursorRoundTrip(page.next.value);
      Cursor.CursorsDiffer(page.next.value, page.next.value);
    }
  }

  // ---------- Pages of a growing log ----------

  /** logs[i] is the log when page i is read. */
  ghost function Follow(logs: seq<seq<Entry>>, u: User, after: Option<Position>, limit: nat): seq<Page>
    requires limit > 0
  {
    if logs == [] then []
    else
      var page := Query(logs[0], u, after, limit);
      [page] + if page.next.Some? then Follow(logs[1..], u, page.next, limit) else []
  }

  ghost function AllRows(pages: seq<Page>): seq<Entry> {
    if pages == [] then [] else pages[0].rows + AllRows(pages[1..])
  }

  /** The last page was reached. */
  ghost predicate Complete(pages: seq<Page>) {
    pages != [] && pages[|pages| - 1].next == None
  }

  /** Between pages entries are appended and statuses change, as in every run of the wallet. */
  ghost predicate Growing(logs: seq<seq<Entry>>) {
    && (forall i :: 0 <= i < |logs| ==> LogOk(logs[i]))
    && (forall i, j :: 0 <= i <= j < |logs| ==> WalletHistory.Grows(logs[i], logs[j]))
  }

  lemma Unfold(logs: seq<seq<Entry>>, u: User, after: Option<Position>, limit: nat)
    requires limit > 0 && logs != []
    ensures var page := Query(logs[0], u, after, limit);
            var rest := if page.next.Some? then Follow(logs[1..], u, page.next, limit) else [];
            && Follow(logs, u, after, limit) == [page] + rest
            && AllRows(Follow(logs, u, after, limit)) == page.rows + AllRows(rest)
  {
    var page := Query(logs[0], u, after, limit);
    var rest := if page.next.Some? then Follow(logs[1..], u, page.next, limit) else [];
    assert ([page] + rest)[1..] == rest;
  }

  /** The row is from one of the logs. */
  ghost predicate FromSome(logs: seq<seq<Entry>>, e: Entry) {
    exists i :: 0 <= i < |logs| && e in logs[i]
  }

  /** Over all pages the rows only get older: nothing is shown twice. */
  lemma {:induction false} FollowDescends(logs: seq<seq<Entry>>, u: User, after: Option<Position>, limit: nat)
    requires limit > 0 && forall i :: 0 <= i < |logs| ==> LogOk(logs[i])
    ensures var rows := AllRows(Follow(logs, u, after, limit));
            Descending(rows) && forall e :: e in rows ==> Matches(e, u, after) && FromSome(logs, e)
  {
    if logs != [] {
      Unfold(logs, u, after, limit);
      PageSplits(logs[0], u, after, limit);
      var page := Query(logs[0], u, after, limit);
      if page.next.Some? {
        FollowDescends(logs[1..], u, page.next, limit);
        var rest := AllRows(Follow(logs[1..], u, page.next, limit));
        JoinDescending(page.rows, rest);
        forall e | e in rest ensures FromSome(logs, e) {
          var i :| 0 <= i < |logs[1..]| && e in logs[1..][i];
          assert e in logs[i + 1];
        }
        forall e | e in page.rows + rest ensures Matches(e, u, after) && FromSome(logs, e) {
          if e in rest {
            assert limit > 0 && page.rows[0] in page.rows;
          }
        }
      }
    }
  }

  lemma JoinDescending(a: seq<Entry>, b: seq<Entry>)
    requires Descending(a) && Descending(b) && forall r, e :: r in a && e in b ==> Newer(r, e)
    ensures Descending(a + b)
  {
  }

  /** On a growing log no entry is listed twice. */
  lemma NoDuplicates(logs: seq<seq<Entry>>, u: User, limit: nat, i: nat, j: nat)
    requires limit > 0 && Growing(logs)
    requires i < j < |AllRows(Follow(logs, u, None, limit))|
    ensures AllRows(Follow(logs, u, None, limit))[i].id != AllRows(Follow(logs, u, None, limit))[j].id
  {
    FollowDescends(logs, u, None, limit);
    var rows := AllRows(Follow(logs, u, None, limit));
    assert rows[i] in rows && rows[j] in rows && Newer(rows[i], rows[j]);
    if rows[i].id == rows[j].id {
      var p := InLast(logs, rows[i]);
      var q := InLast(logs, rows[j]);
      SameId(logs[|logs| - 1], p, q);
    }
  }

  lemma SameId(log: seq<Entry>, p: Entry, q: Entry)
    requires UniqueIds(log) && p in log && q in log && p.id == q.id
    ensures p == q
  {
    var i :| 0 <= i < |log| && log[i] == p;
    var j :| 0 <= j < |log| && log[j] == q;
  }

  /** An entry of an earlier log is in the last one, up to its status. */
  lemma InLast(logs: seq<seq<Entry>>, e: Entry) returns (p: Entry)
    requires Growing(logs) && FromSome(logs, e)
    ensures logs != [] && p in logs[|logs| - 1] && p.id == e.id && p.createdAt == e.createdAt
  {
    var i :| 0 <= i < |logs| && e in logs[i];
    var k :| 0 <= k < |logs[i]| && logs[i][k] == e;
    assert WalletHistory.Grows(logs[i], logs[|logs| - 1]);
    p := logs[|logs| - 1][k];
  }

  lemma GrowingTail(logs: seq<seq<Entry>>)
    requires Growing(logs) && |logs| > 1
    ensures Growing(logs[1..]) && WalletHistory.Grows(logs[0], logs[1])
  {
    assert forall i, j :: 0 <= i <= j < |logs[1..]| ==> logs[1..][i] == logs[i + 1] && logs[1..][j] == logs[j + 1];
  }

  lemma StillThere(log: seq<Entry>, log': seq<Entry>, e: Entry) returns (e': Entry)
    requires WalletHistory.Grows(log, log') && e in log
    ensures e' in log' && e' == e.(status := e'.status)
  {
    var k :| 0 <= k < |log| && log[k] == e;
    e' := log'[k];
  }

  /** When the last page is reached, nothing that was there at the first page has been missed. */
  lemma {:induction false} NothingMissed(logs: seq<seq<Entry>>, u: User, after: Option<Position>, limit: nat, e: Entry)
    requires limit > 0 && logs != [] && Growing(logs) && Complete(Follow(logs, u, after, limit))
    requires e in logs[0] && Matches(e, u, after)
    ensures exists r :: r in AllRows(Follow(logs, u, after, limit)) && r == e.(status := r.status)
  {
    Unfold(logs, u, after, limit);
    PageSplits(logs[0], u, after, limit);
    var page := Query(logs[0], u, after, limit);
    if e in page.rows {
      assert e in AllRows(Follow(logs, u, after, limit)) && e == e.(status := e.status);
    } else {
      var rest := Follow(logs[1..], u, page.next, limit);
      assert Follow(logs, u, after, limit) == [page] + rest;
      assert rest != [];
      GrowingTail(logs);
      var e' := StillThere(logs[0], logs[1], e);
      NothingMissed(logs[1..], u, page.next, limit, e');
      var r :| r in AllRows(rest) && r == e'.(status := r.status);
      assert r in AllRows(Follow(logs, u, after, limit));
    }
  }

  // ---------- Pages of a fixed log ----------

  function Repeat(log: seq<Entry>, m: nat): seq<seq<Entry>> {
    seq(m, i => log)
  }

  function PagesNeeded(n: nat, limit: nat): nat
    requires limit > 0
  {
    if n <= limit then 1 else 1 + PagesNeeded(n - limit, limit)
  }

  lemma {:induction false} PagesNeededIsCeiling(n: nat, limit: nat)
    requires limit > 0
    ensures PagesNeeded(n, limit) == if n == 0 then 1 else (n + limit - 1) / limit
  {
    if n > limit {
      PagesNeededIsCeiling(n - limit, limit);
      var q := (n - 1) / limit;
      DivUnique(n + limit - 1, limit, q + 1, (n - 1) % limit);
    } else if n > 0 {
      DivUnique(n + limit - 1, limit, 1, n - 1);
    }
  }

  lemma LaterRow(log: seq<Entry>, u: User, after: Option<Position>, limit: nat, e: Entry)
    requires LogOk(log) && limit > 0 && |Rows(log, u, after)| > limit && e in Rows(log, u, after)[limit..]
    ensures e in log && Matches(e, u, Query(log, u, after, limit).next)
  {
    var rows := Rows(log, u, after);
    RowsOk(log, u, after);
    var k :| limit <= k < |rows| && rows[k] == e;
    assert Newer(rows[limit - 1], e);
    assert e in rows && rows[limit - 1] in rows;
  }

  lemma RowLater(log: seq<Entry>, u: User, after: Option<Position>, limit: nat, e: Entry)
    requires LogOk(log) && limit > 0 && |Rows(log, u, after)| > limit
    requires e in log && Matches(e, u, Query(log, u, after, limit).next)
    ensures e in Rows(log, u, after)[limit..]
  {
    var rows, page := Rows(log, u, after), Query(log, u, after, limit);
    RowsOk(log, u, after);
    PageSplits(log, u, after, limit);
    assert page.rows[0] in page.rows;
    assert e in rows;
    assert e !in page.rows;
    var k :| 0 <= k < |rows| && rows[k] == e;
    assert forall i :: 0 <= i < limit ==> page.rows[i] == rows[i];
    assert rows[limit..][k - limit] == e;
  }

  /** The rows after a full page are exactly the remaining ones. */
  lemma RowsAfterPage(log: seq<Entry>, u: User, after: Option<Position>, limit: nat)
    requires LogOk(log) && limit > 0 && |Rows(log, u, after)| > limit
    ensures Rows(log, u, Query(log, u, after, limit).next) == Rows(log, u, after)[limit..]
  {
    var next := Query(log, u, after, limit).next;
    var rest := Rows(log, u, after)[limit..];
    RowsOk(log, u, after);
    RowsOk(log, u, next);
    forall e ensures e in rest <==> e in Rows(log, u, next) {
      if e in rest { LaterRow(log, u, after, limit, e); }
      if e in log && Matches(e, u, next) { RowLater(log, u, after, limit, e); }
    }
    DescendingUnique(rest, Rows(log, u, next));
  }

  /** What following the cursor of a full page adds to it. */
  lemma PageAndRest(log: seq<Entry>, u: User, after: Option<Position>, limit: nat, m: nat)
    requires limit > 0 && m > 0 && Query(log, u, after, limit).next.Some?
    ensures var page := Query(log, u, after, limit);
            var pages, rest := Follow(Repeat(log, m), u, after, limit), Follow(Repeat(log, m - 1), u, page.next, limit);
            && |pages| == 1 + |rest| && (Complete(rest) ==> Complete(pages))
            && AllRows(pages) == page.rows + AllRows(rest)
  {
    Unfold(Repeat(log, m), u, after, limit);
    assert Repeat(log, m)[1..] == Repeat(log, m - 1);
  }

  /** These pages list these rows, each once and in order, and there are no more than needed. */
  ghost predicate ListsAll(pages: seq<Page>, rows: seq<Entry>, limit: nat)
    requires limit > 0
  {
    Complete(pages) && |pages| == PagesNeeded(|rows|, limit) && AllRows(pages) == rows
  }

  lemma OneMorePage(pages: seq<Page>, rest: seq<Page>, rows: seq<Entry>, limit: nat)
    requires limit > 0 && |rows| > limit && ListsAll(rest, rows[limit..], limit)
    requires |pages| == 1 + |rest| && (Complete(rest) ==> Complete(pages))
    requires AllRows(pages) == rows[..limit] + AllRows(rest)
    ensures ListsAll(pages, rows, limit)
  {
    assert rows[..limit] + rows[limit..] == rows;
  }

  /** A full page comes before the pages of what is left. */
  lemma FullPage(log: seq<Entry>, u: User, after: Option<Position>, limit: nat, m: nat)
    requires LogOk(log) && limit > 0 && m > 0 && |Rows(log, u, after)| > limit
    requires var next := Query(log, u, after, limit).next;
             ListsAll(Follow(Repeat(log, m - 1), u, next, limit), Rows(log, u, next), limit)
    ensures ListsAll(Follow(Repeat(log, m), u, after, limit), Rows(log, u, after), limit)
  {
    var next := Query(log, u, after, limit).next;
    PageAndRest(log, u, after, limit, m);
    RowsAfterPage(log, u, after, limit);
    OneMorePage(Follow(Repeat(log, m), u, after, limit), Follow(Repeat(log, m - 1), u, next, limit),
                Rows(log, u, after), limit);
  }

  /**
   * On a fixed log the pages list each of the user's entries exactly once, newest first, and there are
   * ceil(n / limit) of them, or one when there are no entries.
   */
  lemma {:induction false} FixedLogPages(log: seq<Entry>, u: User, after: Option<Position>, limit: nat, m: nat)
    requires LogOk(log) && limit > 0 && m >= PagesNeeded(|Rows(log, u, after)|, limit)
    ensures ListsAll(Follow(Repeat(log, m), u, after, limit), Rows(log, u, after), limit)
    decreases m
  {
    if |Rows(log, u, after)| <= limit {
      Unfold(Repeat(log, m), u, after, limit);
    } else {
      RowsAfterPage(log, u, after, limit);
      FixedLogPages(log, u, Query(log, u, after, limit).next, limit, m - 1);
      FullPage(log, u, after, limit, m);
    }
  }
}
