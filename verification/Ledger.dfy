// The transaction log, and what it says about each user's money.
module Ledger {
  import opened Wrappers
  import opened Money
  import opened Sums

  type User = nat

  /** A UUID, as the 128-bit number its text denotes. */
  type Id = x: int | 0 <= x < 0x1_0000_0000_0000_0000_0000_0000_0000_0000

  datatype Status = Pending | Committed | Failed | Compensated | Timeout

  datatype TxType = Topup | Transfer | Withdraw | Fee

  /** A row of tx_log; createdAt counts nanoseconds since the epoch. */
  datatype Entry = Entry(id: Id, key: string, kind: TxType, sender: Option<User>, receiver: Option<User>,
                         amount: Sen, status: Status, createdAt: int)

  // ---------- Measures of one entry ----------

  function Credit(e: Entry, u: User): int {
    if e.receiver == Some(u) then e.amount else 0
  }

  function Debit(e: Entry, u: User): int {
    if e.sender == Some(u) then e.amount else 0
  }

  /** What a committed entry adds to u's balance. */
  function EffectOf(e: Entry, u: User): int {
    if e.status == Committed then Credit(e, u) - Debit(e, u) else 0
  }

  /** What a pending withdrawal of u holds back. */
  function ReservedOf(e: Entry, u: User): int {
    if e.kind == Withdraw && e.status == Pending then Debit(e, u) else 0
  }

  /** What an entry leaves u to spend. */
  function HoldingOf(e: Entry, u: User): int {
    EffectOf(e, u) - ReservedOf(e, u)
  }

  function Effect(u: User): (f: Entry -> int)
    ensures forall e :: f(e) == EffectOf(e, u)
  {
    (e: Entry) => EffectOf(e, u)
  }

  function Reserved(u: User): (f: Entry -> int)
    ensures forall e :: f(e) == ReservedOf(e, u)
  {
    (e: Entry) => ReservedOf(e, u)
  }

  function Holding(u: User): (f: Entry -> int)
    ensures forall e :: f(e) == HoldingOf(e, u)
  {
    (e: Entry) => HoldingOf(e, u)
  }

  // ---------- Projections of the whole log ----------

  /** The balance of u according to the committed entries. */
  function Projection(log: seq<Entry>, u: User): int {
    Sum(log, Effect(u))
  }

  function PendingWithdrawals(log: seq<Entry>, u: User): int {
    Sum(log, Reserved(u))
  }

  function Spendable(log: seq<Entry>, u: User): int {
    Sum(log, Holding(u))
  }

  lemma SpendableIsProjectionLessPending(log: seq<Entry>, u: User)
    ensures Spendable(log, u) == Projection(log, u) - PendingWithdrawals(log, u)
  {
    SumDifference(log, Effect(u), Reserved(u), Holding(u));
  }

  /** A committed entry counts for its receiver and against its sender; a pending withdrawal is held back. */
  lemma OneMoreEntry(log: seq<Entry>, e: Entry, u: User)
    ensures Projection([], u) == PendingWithdrawals([], u) == 0
    ensures Projection(log + [e], u) == Projection(log, u)
              + (if e.status == Committed && e.receiver == Some(u) then e.amount else 0)
              - (if e.status == Committed && e.sender == Some(u) then e.amount else 0)
    ensures PendingWithdrawals(log + [e], u) == PendingWithdrawals(log, u)
              + (if e.kind == Withdraw && e.status == Pending && e.sender == Some(u) then e.amount else 0)
  {
    SumAppend(log, e, Effect(u));
    SumAppend(log, e, Reserved(u));
  }

  /** The balance endpoint's fold over the log, in wrapping 64-bit arithmetic. */
  method ProjectBalances(txLog: seq<Entry>, userID: User) returns (balance: Sen)
    ensures balance == Wrap64(Projection(txLog, userID))
  {
    balance := 0;
    var i := 0;
    while i < |txLog|
      invariant 0 <= i <= |txLog|
      invariant balance == Wrap64(Projection(txLog[..i], userID))
    {
      var entry := txLog[i];
      ghost var before := Projection(txLog[..i], userID);
      assert txLog[..i + 1] == txLog[..i] + [entry];
      SumAppend(txLog[..i], entry, Effect(userID));
      i := i + 1;
      if entry.status != Committed {
        continue;
      }
      WrapAdd(before, Credit(entry, userID));
      WrapAdd(before + Credit(entry, userID), -Debit(entry, userID));
      if entry.receiver == Some(userID) {
        balance := Wrap64(balance + entry.amount);
      }
      if entry.sender == Some(userID) {
        balance := Wrap64(balance - entry.amount);
      }
    }
    assert txLog[..|txLog|] == txLog;
  }

  // ---------- The wallet's aggregate query ----------

  predicate Concerns(e: Entry, u: User) {
    (e.sender == Some(u) || e.receiver == Some(u)) && e.status == Committed
  }

  function Matching(rows: seq<Entry>, u: User): seq<Entry> {
    if rows == [] then []
    else
      var last := rows[|rows| - 1];
      Matching(rows[..|rows| - 1], u) + if Concerns(last, u) then [last] else []
  }

  /** The two SUMs are exact numerics; reading the difference into 64 bits fails when it does not fit. */
  function WalletBalance(rows: seq<Entry>, u: User): Option<Sen> {
    var hits := Matching(rows, u);
    var credits := Sum(hits, (e: Entry) => Credit(e, u));
    var debits := Sum(hits, (e: Entry) => Debit(e, u));
    if InRange(credits - debits) then Some(credits - debits) else None
  }

  lemma {:induction false} MatchingSums(rows: seq<Entry>, u: User, credit: Entry -> int, debit: Entry -> int)
    requires forall e :: credit(e) == Credit(e, u)
    requires forall e :: debit(e) == Debit(e, u)
    ensures Sum(Matching(rows, u), credit) - Sum(Matching(rows, u), debit) == Projection(rows, u)
  {
    if rows != [] {
      var front, last := rows[..|rows| - 1], rows[|rows| - 1];
      MatchingSums(front, u, credit, debit);
      if Concerns(last, u) {
        SumAppend(Matching(front, u), last, credit);
        SumAppend(Matching(front, u), last, debit);
      } else {
        assert Matching(front, u) + [] == Matching(front, u);
      }
    }
  }

  /** The aggregate over the rows in any order is the projection fold over the log. */
  lemma WalletAgreesWithProjection(log: seq<Entry>, rows: seq<Entry>, u: User)
    requires multiset(rows) == multiset(log)
    ensures WalletBalance(rows, u) == if InRange(Projection(log, u)) then Some(Projection(log, u)) else None
  {
    MatchingSums(rows, u, (e: Entry) => Credit(e, u), (e: Entry) => Debit(e, u));
    SumPermutation(rows, log, Effect(u));
  }
}
