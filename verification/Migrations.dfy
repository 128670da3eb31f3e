// The migration runner over the table of applied versions, with calls that may stop at an error anywhere.
module Migrations {
  import opened Wrappers

  /** A migration number with its up and down files, either of which may be missing. */
  datatype Migration = Migration(number: int, hasUp: bool, hasDown: bool)

  datatype Action = RanUp(number: int) | RanDown(number: int)

  /** versions is schema_migrations, if the table exists; history the scripts that were committed. */
  datatype Db = Db(versions: Option<set<int>>, history: seq<Action>)

  const Fresh := Db(None, [])

  function Applied(db: Db): set<int> {
    if db.versions.Some? then db.versions.value else {}
  }

  /** The loader sorts by number, one migration per number. */
  predicate Sorted(ms: seq<Migration>) {
    forall i, j :: 0 <= i < j < |ms| ==> ms[i].number < ms[j].number
  }

  // ---------- What a call does ----------

  /** CREATE TABLE IF NOT EXISTS. */
  function WithTable(db: Db): Db {
    db.(versions := Some(Applied(db)))
  }

  function UpOne(db: Db, m: Migration): Db {
    if !m.hasUp || m.number in Applied(db) then db
    else Db(Some(Applied(db) + {m.number}), db.history + [RanUp(m.number)])
  }

  function DownOne(db: Db, m: Migration): Db {
    if !m.hasDown || m.number !in Applied(db) then db
    else Db(Some(Applied(db) - {m.number}), db.history + [RanDown(m.number)])
  }

  /** Up, stopped after the first n migrations. */
  function UpTo(db: Db, ms: seq<Migration>, n: nat): Db
    requires n <= |ms|
  {
    if n == 0 then WithTable(db) else UpOne(UpTo(db, ms, n - 1), ms[n - 1])
  }

  /** Down, stopped when the migrations from index n on are done. */
  function DownTo(db: Db, ms: seq<Migration>, n: nat): Db
    requires n <= |ms|
    decreases |ms| - n
  {
    if n == |ms| then db else DownOne(DownTo(db, ms, n + 1), ms[n])
  }

  /** The statement that fails: creating the table, looking a version up, or anything in a migration's transaction. */
  datatype Fault = TableFails | CheckFails(index: nat) | ApplyFails(index: nat)

  /** The fault strikes migration k: its look-up, or its script when the look-up says that it has to run. */
  predicate StopsUp(db: Db, ms: seq<Migration>, fault: Option<Fault>, k: int) {
    && 0 <= k < |ms| && ms[k].hasUp
    && (fault == Some(CheckFails(k)) || (fault == Some(ApplyFails(k)) && ms[k].number !in Applied(UpTo(db, ms, k))))
  }

  /** Without the table every look-up fails. */
  predicate StopsDown(db: Db, ms: seq<Migration>, fault: Option<Fault>, k: int) {
    && 0 <= k < |ms| && ms[k].hasDown
    && (db.versions == None || fault == Some(CheckFails(k))
        || (fault == Some(ApplyFails(k)) && ms[k].number in Applied(DownTo(db, ms, k + 1))))
  }

  class Runner {
    var db: Db

    constructor ()
      ensures db == Fresh
    {
      db := Fresh;
    }

    /** done is how many migrations were dealt with; a fault that strikes one of them stops the call there. */
    method Up(ms: seq<Migration>, fault: Option<Fault>) returns (failed: bool, done: nat)
      modifies this
      ensures done <= |ms| && (!failed ==> done == |ms|)
      ensures db == if fault == Some(TableFails) then old(db) else UpTo(old(db), ms, done)
      ensures failed <==> fault == Some(TableFails) || exists k :: StopsUp(old(db), ms, fault, k)
      ensures failed ==> fault == Some(TableFails) || StopsUp(old(db), ms, fault, done)
      ensures fault == Some(TableFails) ==> done == 0
    {
      done := 0;
      if fault == Some(TableFails) {
        return true, 0;
      }
      db := WithTable(db);
      while done < |ms|
        invariant done <= |ms| && db == UpTo(old(db), ms, done)
        invariant forall k :: 0 <= k < done ==> !StopsUp(old(db), ms, fault, k)
      {
        var m := ms[done];
        if m.hasUp {
          if fault == Some(CheckFails(done)) {
            assert StopsUp(old(db), ms, fault, done);
            return true, done;
          }
          if m.number !in Applied(db) {
            if fault == Some(ApplyFails(done)) {
              assert StopsUp(old(db), ms, fault, done);
              return true, done;
            }
            db := Db(Some(Applied(db) + {m.number}), db.history + [RanUp(m.number)]);
          }
        }
        done := done + 1;
      }
      return false, done;
    }

    /** from is the index down to which migrations were dealt with. */
    method Down(ms: seq<Migration>, fault: Option<Fault>) returns (failed: bool, from: nat)
      modifies this
      ensures from <= |ms| && (!failed ==> from == 0)
      ensures db == DownTo(old(db), ms, from)
      ensures failed <==> exists k :: StopsDown(old(db), ms, fault, k)
      ensures failed ==> StopsDown(old(db), ms, fault, from - 1)
      ensures forall k :: from <= k < |ms| ==> !StopsDown(old(db), ms, fault, k)
      ensures old(db).versions == None ==> db == old(db)
    {
      from := |ms|;
      while from > 0
        invariant from <= |ms| && db == DownTo(old(db), ms, from)
        invariant forall k :: from <= k < |ms| ==> !StopsDown(old(db), ms, fault, k)
        invariant old(db).versions == None ==> db == old(db) && forall k :: from <= k < |ms| ==> !ms[k].hasDown
        invariant old(db).versions.Some? ==> db.versions.Some?
      {
        var m := ms[from - 1];
        if m.hasDown {
          if db.versions == None || fault == Some(CheckFails(from - 1)) {
            assert StopsDown(old(db), ms, fault, from - 1);
            return true, from;
          }
          if m.number in Applied(db) {
            if fault == Some(ApplyFails(from - 1)) {
              assert StopsDown(old(db), ms, fault, from - 1);
              return true, from;
            }
            db := Db(Some(Applied(db) - {m.number}), db.history + [RanDown(m.number)]);
          }
        }
        from := from - 1;
      }
      return false, 0;
    }
  }

  // ---------- Runs of calls ----------

  /** A call that dealt with some of the migrations. */
  datatype Call = UpCall(n: nat) | DownCall(n: nat)

  function AfterCall(db: Db, ms: seq<Migration>, call: Call): Db {
    match call
    case UpCall(n) => UpTo(db, ms, if n < |ms| then n else |ms|)
    case DownCall(n) => DownTo(db, ms, if n < |ms| then n else |ms|)
  }

  function AfterCalls(ms: seq<Migration>, calls: seq<Call>): Db {
    if calls == [] then Fresh else AfterCall(AfterCalls(ms, calls[..|calls| - 1]), ms, calls[|calls| - 1])
  }

  // ---------- The applied versions are a prefix ----------

  /** The applied migrations come before all others. */
  ghost predicate IsPrefix(ms: seq<Migration>, applied: set<int>) {
    forall i, j :: 0 <= i < j < |ms| && ms[j].number in applied ==> ms[i].number in applied
  }

  /** Only migrations with an up file are ever applied. */
  ghost predicate OnlyUps(ms: seq<Migration>, applied: set<int>) {
    forall i :: 0 <= i < |ms| && ms[i].number in applied ==> ms[i].hasUp
  }

  /** Migrations without up files come last; one that cannot be undone has only such ones before it. */
  ghost predicate WellPaired(ms: seq<Migration>) {
    forall i, j :: 0 <= i < j < |ms| && ms[j].hasUp ==> ms[i].hasUp && (!ms[j].hasDown ==> !ms[i].hasDown)
  }

  lemma {:induction false} UpKeepsPrefix(db: Db, ms: seq<Migration>, n: nat)
    requires Sorted(ms) && n <= |ms| && OnlyUps(ms, Applied(db))
    requires WellPaired(ms) && IsPrefix(ms, Applied(db))
    ensures var applied := Applied(UpTo(db, ms, n));
            && OnlyUps(ms, applied) && IsPrefix(ms, applied)
            && (forall k :: 0 <= k < n && ms[k].hasUp ==> ms[k].number in applied)
  {
    if n > 0 {
      UpKeepsPrefix(db, ms, n - 1);
    }
  }

  lemma {:induction false} DownKeepsPrefix(db: Db, ms: seq<Migration>, n: nat)
    requires Sorted(ms) && n <= |ms| && OnlyUps(ms, Applied(db))
    requires WellPaired(ms) && IsPrefix(ms, Applied(db))
    ensures var applied := Applied(DownTo(db, ms, n));
            && OnlyUps(ms, applied) && IsPrefix(ms, applied)
            && (forall k :: n <= k < |ms| && ms[k].hasDown ==> ms[k].number !in applied)
    decreases |ms| - n
  {
    if n < |ms| {
      DownKeepsPrefix(db, ms, n + 1);
    }
  }

  lemma {:induction false} CallsKeepPrefix(ms: seq<Migration>, calls: seq<Call>)
    requires Sorted(ms) && WellPaired(ms)
    ensures var applied := Applied(AfterCalls(ms, calls));
            OnlyUps(ms, applied) && IsPrefix(ms, applied)
  {
    if calls != [] {
      var front, n := calls[..|calls| - 1], calls[|calls| - 1].n;
      CallsKeepPrefix(ms, front);
      UpKeepsPrefix(AfterCalls(ms, front), ms, if n < |ms| then n else |ms|);
      DownKeepsPrefix(AfterCalls(ms, front), ms, if n < |ms| then n else |ms|);
    }
  }

  lemma {:induction false} UpApplies(db: Db, ms: seq<Migration>, n: nat, k: nat)
    requires Sorted(ms) && k < |ms| && n <= |ms|
    ensures ms[k].number in Applied(UpTo(db, ms, n)) <==> (ms[k].number in Applied(db) || (k < n && ms[k].hasUp))
  {
    if n > 0 {
      UpApplies(db, ms, n - 1, k);
      assert k < n - 1 ==> ms[k].number < ms[n - 1].number;
      assert k > n - 1 ==> ms[n - 1].number < ms[k].number;
    }
  }

  lemma {:induction false} DownRemoves(db: Db, ms: seq<Migration>, n: nat, k: nat)
    requires Sorted(ms) && k < |ms| && n <= |ms|
    ensures ms[k].number in Applied(DownTo(db, ms, n)) <==> (ms[k].number in Applied(db) && !(n <= k && ms[k].hasDown))
    decreases |ms| - n
  {
    if n < |ms| {
      DownRemoves(db, ms, n + 1, k);
      assert k < n ==> ms[k].number < ms[n].number;
      assert k > n ==> ms[n].number < ms[k].number;
    }
  }

  function UpOnly(ms: seq<Migration>): seq<Call> {
    [UpCall(|ms|)]
  }

  function UpThenDown(ms: seq<Migration>): seq<Call> {
    UpOnly(ms) + [DownCall(0)]
  }

  /** After a complete Up exactly the migrations with up files are applied. */
  lemma AfterCompleteUp(ms: seq<Migration>, k: nat)
    requires Sorted(ms) && k < |ms|
    ensures ms[k].number in Applied(AfterCalls(ms, UpOnly(ms))) <==> ms[k].hasUp
  {
    assert AfterCalls(ms, UpOnly(ms)[..0]) == Fresh;
    UpApplies(Fresh, ms, |ms|, k);
  }

  /** After a complete Down as well, those without down files remain. */
  lemma AfterUpThenDown(ms: seq<Migration>, k: nat)
    requires Sorted(ms) && k < |ms|
    ensures ms[k].number in Applied(AfterCalls(ms, UpThenDown(ms))) <==> ms[k].hasUp && !ms[k].hasDown
  {
    AfterCompleteUp(ms, k);
    assert UpThenDown(ms)[..1] == UpOnly(ms);
    DownRemoves(AfterCalls(ms, UpOnly(ms)), ms, 0, k);
  }

  /**
   * After every run of calls, each stopped anywhere, the applied versions are a prefix of the sorted
   * numbers - exactly for migration sets that are paired this way.
   */
  lemma PrefixIffWellPaired(ms: seq<Migration>)
    requires Sorted(ms)
    ensures (forall calls :: IsPrefix(ms, Applied(AfterCalls(ms, calls)))) <==> WellPaired(ms)
  {
    if WellPaired(ms) {
      forall calls ensures IsPrefix(ms, Applied(AfterCalls(ms, calls))) {
        CallsKeepPrefix(ms, calls);
      }
    } else {
      var i, j :| 0 <= i < j < |ms| && ms[j].hasUp && !(ms[i].hasUp && (!ms[j].hasDown ==> !ms[i].hasDown));
      if ms[i].hasUp {
        AfterUpThenDown(ms, i);
        AfterUpThenDown(ms, j);
        assert !IsPrefix(ms, Applied(AfterCalls(ms, UpThenDown(ms))));
      } else {
        AfterCompleteUp(ms, i);
        AfterCompleteUp(ms, j);
        assert !IsPrefix(ms, Applied(AfterCalls(ms, UpOnly(ms))));
      }
    }
  }

  /** In particular when every migration has both files. */
  lemma CompleteFilesKeepPrefix(ms: seq<Migration>, calls: seq<Call>)
    requires Sorted(ms) && forall m :: m in ms ==> m.hasUp && m.hasDown
    ensures IsPrefix(ms, Applied(AfterCalls(ms, calls)))
  {
    CallsKeepPrefix(ms, calls);
  }

  // ---------- Up and down scripts alternate ----------

  /** The last script of this number that ran was its up script. */
  function LastUp(history: seq<Action>, number: int): bool {
    if history == [] then false
    else if history[|history| - 1] == RanUp(number) then true
    else if history[|history| - 1] == RanDown(number) then false
    else LastUp(history[..|history| - 1], number)
  }

  /** Up first, then strictly alternating. */
  predicate Alternates(history: seq<Action>, number: int) {
    history == [] ||
    var front, last := history[..|history| - 1], history[|history| - 1];
    && Alternates(front, number)
    && (last == RanUp(number) ==> !LastUp(front, number))
    && (last == RanDown(number) ==> LastUp(front, number))
  }

  predicate Tracked(db: Db, number: int) {
    Alternates(db.history, number) && (number in Applied(db) <==> LastUp(db.history, number))
  }

  lemma ActionTracked(history: seq<Action>, a: Action, number: int)
    requires Alternates(history, number)
    requires a == RanUp(number) ==> !LastUp(history, number)
    requires a == RanDown(number) ==> LastUp(history, number)
    ensures Alternates(history + [a], number)
    ensures LastUp(history + [a], number) <==> a == RanUp(number) || (LastUp(history, number) && a != RanDown(number))
  {
    assert (history + [a])[..|history|] == history;
  }

  lemma {:induction false} UpTracked(db: Db, ms: seq<Migration>, n: nat, number: int)
    requires n <= |ms| && Tracked(db, number)
    ensures Tracked(UpTo(db, ms, n), number)
  {
    if n > 0 {
      UpTracked(db, ms, n - 1, number);
      var before, m := UpTo(db, ms, n - 1), ms[n - 1];
      if m.hasUp && m.number !in Applied(before) {
        ActionTracked(before.history, RanUp(m.number), number);
      }
    }
  }

  lemma {:induction false} DownTracked(db: Db, ms: seq<Migration>, n: nat, number: int)
    requires n <= |ms| && Tracked(db, number)
    ensures Tracked(DownTo(db, ms, n), number)
    decreases |ms| - n
  {
    if n < |ms| {
      DownTracked(db, ms, n + 1, number);
      var before, m := DownTo(db, ms, n + 1), ms[n];
      if m.hasDown && m.number in Applied(before) {
        ActionTracked(before.history, RanDown(m.number), number);
      }
    }
  }

  /** Over every run of calls each migration's up and down scripts strictly alternate, whatever files are missing. */
  lemma {:induction false} ScriptsAlternate(ms: seq<Migration>, calls: seq<Call>, number: int)
    ensures Tracked(AfterCalls(ms, calls), number)
  {
    if calls != [] {
      var front, n := calls[..|calls| - 1], calls[|calls| - 1].n;
      ScriptsAlternate(ms, front, number);
      UpTracked(AfterCalls(ms, front), ms, if n < |ms| then n else |ms|, number);
      DownTracked(AfterCalls(ms, front), ms, if n < |ms| then n else |ms|, number);
    }
  }

  // ---------- Repeating a call ----------

  lemma {:induction false} NothingToDo(db: Db, ms: seq<Migration>, n: nat)
    requires n <= |ms| && db.versions.Some?
    requires forall k :: 0 <= k < n && ms[k].hasUp ==> ms[k].number in Applied(db)
    ensures UpTo(db, ms, n) == db
  {
    if n > 0 {
      NothingToDo(db, ms, n - 1);
    }
  }

  lemma {:induction false} NothingToUndo(db: Db, ms: seq<Migration>, n: nat)
    requires n <= |ms|
    requires forall k :: n <= k < |ms| && ms[k].hasDown ==> ms[k].number !in Applied(db)
    ensures DownTo(db, ms, n) == db
    decreases |ms| - n
  {
    if n < |ms| {
      NothingToUndo(db, ms, n + 1);
    }
  }

  /** After a completed Up another Up runs nothing, and after a completed Down another Down. */
  lemma RepeatedCallsRunNothing(db: Db, ms: seq<Migration>)
    requires Sorted(ms)
    ensures var up, down := UpTo(db, ms, |ms|), DownTo(db, ms, 0);
            UpTo(up, ms, |ms|) == up && DownTo(down, ms, 0) == down
  {
    var up, down := UpTo(db, ms, |ms|), DownTo(db, ms, 0);
    forall k | 0 <= k < |ms|
      ensures ms[k].hasUp ==> ms[k].number in Applied(up)
      ensures ms[k].hasDown ==> ms[k].number !in Applied(down)
    {
      UpApplies(db, ms, |ms|, k);
      DownRemoves(db, ms, 0, k);
    }
    TableStays(db, ms, |ms|);
    NothingToDo(up, ms, |ms|);
    NothingToUndo(down, ms, 0);
  }

  lemma {:induction false} TableStays(db: Db, ms: seq<Migration>, n: nat)
    requires n <= |ms|
    ensures UpTo(db, ms, n).versions.Some?
  {
    if n > 0 {
      TableStays(db, ms, n - 1);
    }
  }
}
