// The database tables, and the SQL statements of the services as functions on them.
// A statement that fails (a key conflict, or an UPDATE that matched no row) has no result.
module Tables {
  import opened Wrappers
  import opened Money
  import opened Ledger

  datatype Snapshot = Snapshot(balance: Sen, version: nat)

  datatype VAStatus = Active | Paid | Expired

  /** A row of va_topup; the table is keyed by the VA number, which has a unique index. */
  datatype VA = VA(number: string, user: User, amount: Sen, status: VAStatus, entry: Option<Id>)

  /** A row of withdraw_records, keyed by its id in the table. */
  datatype Withdrawal = Withdrawal(key: string, user: User, amount: Sen, status: Status, entry: Option<Id>)

  datatype Tables = Tables(
    balances: map<User, Snapshot>,
    log: seq<Entry>,
    vas: map<string, VA>,
    withdrawals: map<Id, Withdrawal>)

  const Empty := Tables(map[], [], map[], map[])

  // ---------- balance_snapshot ----------

  /** A missing row reads as zero. */
  function Balance(t: Tables, u: User): Sen {
    if u in t.balances then t.balances[u].balance else 0
  }

  /** INSERT ... ON CONFLICT DO NOTHING of a zero balance. */
  function SeedBalance(t: Tables, u: User): Tables {
    if u in t.balances then t else t.(balances := t.balances[u := Snapshot(0, 1)])
  }

  function UpdateBalance(t: Tables, u: User, balance: Sen, version: nat): Option<Tables> {
    if u in t.balances && t.balances[u].version == version
    then Some(t.(balances := t.balances[u := Snapshot(balance, version + 1)]))
    else None
  }

  /** The bank service's update: version 0 stands for a missing row, which is inserted. */
  function UpsertBalance(t: Tables, u: User, balance: Sen, version: nat): Option<Tables> {
    if version == 0 then
      if u in t.balances then None else Some(t.(balances := t.balances[u := Snapshot(balance, 1)]))
    else UpdateBalance(t, u, balance, version)
  }

  /** Reads the balance and adds the amount, in unchecked 64-bit arithmetic; inserts a missing row. */
  function ApplyCredit(t: Tables, u: User, amount: Sen): Option<Tables> {
    if u !in t.balances then Some(t.(balances := t.balances[u := Snapshot(amount, 1)]))
    else
      var snap := t.balances[u];
      UpdateBalance(t, u, Wrap64(snap.balance + amount), snap.version)
  }

  // ---------- tx_log ----------

  /** The index of the entry with this id, or the length of the log. */
  function Position(log: seq<Entry>, id: Id): (i: nat)
    ensures i <= |log|
    ensures i < |log| ==> log[i].id == id
    ensures i == |log| ==> forall k :: 0 <= k < |log| ==> log[k].id != id
  {
    if log == [] then 0
    else if log[|log| - 1].id == id then |log| - 1
    else
      var i := Position(log[..|log| - 1], id);
      if i == |log| - 1 then |log| else i
  }

  function Row(log: seq<Entry>, id: Id): (r: Option<Entry>)
    ensures r.Some? ==> r.value.id == id && r.value in log
  {
    var i := Position(log, id);
    if i < |log| then Some(log[i]) else None
  }

  function AppendEntry(t: Tables, e: Entry): Option<Tables> {
    if Row(t.log, e.id) == None then Some(t.(log := t.log + [e])) else None
  }

  function SetStatus(log: seq<Entry>, id: Id, status: Status): seq<Entry> {
    var i := Position(log, id);
    if i < |log| then log[i := log[i].(status := status)] else log
  }

  /** UPDATE tx_log ... WHERE id = $1, without a status guard; a missing row is no error. */
  function UpdateTxLogStatus(t: Tables, id: Id, status: Status): Tables {
    t.(log := SetStatus(t.log, id, status))
  }

  /** UPDATE tx_log ... WHERE id = $1 AND status = 'pending'; no matching row is an error. */
  function CommitTxLog(t: Tables, id: Id): Option<Tables> {
    match Row(t.log, id)
    case Some(e) => if e.status == Pending then Some(UpdateTxLogStatus(t, id, Committed)) else None
    case None => None
  }

  // ---------- va_topup and withdraw_records ----------

  function InsertVA(t: Tables, va: VA): Option<Tables> {
    if va.number in t.vas then None else Some(t.(vas := t.vas[va.number := va]))
  }

  function MarkVAPaid(t: Tables, number: string, entry: Id): Option<Tables> {
    if number in t.vas && t.vas[number].status == Active
    then Some(t.(vas := t.vas[number := t.vas[number].(status := Paid, entry := Some(entry))]))
    else None
  }

  function InsertWithdrawal(t: Tables, id: Id, w: Withdrawal): Option<Tables> {
    if id in t.withdrawals then None else Some(t.(withdrawals := t.withdrawals[id := w]))
  }

  /** Runs outside any transaction; a missing row is no error. */
  function UpdateWithdrawalStatus(t: Tables, id: Id, status: Status): Tables {
    if id in t.withdrawals then t.(withdrawals := t.withdrawals[id := t.withdrawals[id].(status := status)]) else t
  }

  // ---------- Looking rows up after a change ----------

  ghost predicate UniqueIds(log: seq<Entry>) {
    forall i, j :: 0 <= i < j < |log| ==> log[i].id != log[j].id
  }

  lemma RowAt(log: seq<Entry>, i: nat)
    requires UniqueIds(log) && i < |log|
    ensures Position(log, log[i].id) == i && Row(log, log[i].id) == Some(log[i])
  {
  }

  /** Appending a fresh entry adds its row and changes no other. */
  lemma RowAfterAppend(log: seq<Entry>, e: Entry)
    requires UniqueIds(log) && Row(log, e.id) == None
    ensures UniqueIds(log + [e])
    ensures forall id {:trigger Row(log + [e], id)} ::
              Row(log + [e], id) == if id == e.id then Some(e) else Row(log, id)
  {
    var log' := log + [e];
    forall id ensures Row(log', id) == if id == e.id then Some(e) else Row(log, id)
    {
      assert log'[..|log|] == log;
    }
  }

  /** Setting a status changes that row's status and nothing else. */
  lemma RowAfterSetStatus(log: seq<Entry>, id: Id, status: Status)
    requires UniqueIds(log) && Row(log, id).Some?
    ensures UniqueIds(SetStatus(log, id, status))
    ensures forall other {:trigger Row(SetStatus(log, id, status), other)} ::
              Row(SetStatus(log, id, status), other) ==
              if other == id then Some(Row(log, id).value.(status := status)) else Row(log, other)
  {
    var log' := SetStatus(log, id, status);
    forall i | 0 <= i < |log| ensures log'[i].id == log[i].id {
    }
    forall other
      ensures Row(log', other) == if other == id then Some(Row(log, id).value.(status := status)) else Row(log, other)
    {
      var i, j := Position(log, other), Position(log', other);
      if i < |log| {
        assert log'[i].id == other;
        RowAt(log', i);
      }
    }
  }
}
