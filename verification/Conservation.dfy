// Where the money is: the spendable amounts of all users against the top-ups, fees and withdrawals of the log.
module Conservation {
  import opened Wrappers
  import opened Sums
  import opened Ledger
  import opened WalletInvariant

  // ---------- Totals of the log ----------

  function TopupOf(e: Entry): int {
    if e.kind == Topup && e.status == Committed then e.amount else 0
  }

  function FeeOf(e: Entry): int {
    if e.kind == Fee && e.status == Committed then e.amount else 0
  }

  function PaidOutOf(e: Entry): int {
    if e.kind == Withdraw && e.status == Committed then e.amount else 0
  }

  function HeldOf(e: Entry): int {
    if e.kind == Withdraw && e.status == Pending then e.amount else 0
  }

  function CommittedTopups(log: seq<Entry>): int {
    Sum(log, TopupOf)
  }

  function CommittedFees(log: seq<Entry>): int {
    Sum(log, FeeOf)
  }

  function CommittedWithdrawals(log: seq<Entry>): int {
    Sum(log, PaidOutOf)
  }

  function HeldWithdrawals(log: seq<Entry>): int {
    Sum(log, HeldOf)
  }

  /** What an entry adds to the money of all users together. */
  function NetOf(e: Entry): int {
    TopupOf(e) - FeeOf(e) - PaidOutOf(e) - HeldOf(e)
  }

  lemma {:induction false} NetTotal(log: seq<Entry>)
    ensures Sum(log, NetOf) ==
            CommittedTopups(log) - CommittedFees(log) - CommittedWithdrawals(log) - HeldWithdrawals(log)
  {
    if log != [] {
      NetTotal(log[..|log| - 1]);
    }
  }

  // ---------- Sums over users ----------

  ghost predicate NoDuplicates(users: seq<User>) {
    forall i, j :: 0 <= i < j < |users| ==> users[i] != users[j]
  }

  /** users lists, without repetition, at least every party of the log. */
  ghost predicate Covers(users: seq<User>, log: seq<Entry>) {
    && NoDuplicates(users)
    && (forall e :: e in log && e.sender.Some? ==> e.sender.value in users)
    && (forall e :: e in log && e.receiver.Some? ==> e.receiver.value in users)
  }

  function SpendableOf(log: seq<Entry>): (f: User -> int)
    ensures forall u :: f(u) == Spendable(log, u)
  {
    (u: User) => Spendable(log, u)
  }

  function ShareOf(e: Entry): (f: User -> int)
    ensures forall u :: f(u) == HoldingOf(e, u)
  {
    (u: User) => HoldingOf(e, u)
  }

  function Only(who: User, amount: int): (f: User -> int)
    ensures forall u :: f(u) == if u == who then amount else 0
  {
    (u: User) => if u == who then amount else 0
  }

  lemma {:induction false} SumOnly(users: seq<User>, who: User, amount: int)
    requires NoDuplicates(users)
    ensures Sum(users, Only(who, amount)) == if who in users then amount else 0
  {
    if users != [] {
      var front, last := users[..|users| - 1], users[|users| - 1];
      assert users == front + [last];
      SumOnly(front, who, amount);
    }
  }

  /** The shares of all users in one entry add up to what the entry brings into or takes out of the wallet. */
  lemma SharesAddUp(e: Entry, users: seq<User>)
    requires EntryOk(e) && Covers(users, [e])
    ensures Sum(users, ShareOf(e)) == NetOf(e)
  {
    assert e in [e];
    var credited := if e.receiver.Some? && e.status == Committed then e.amount else 0;
    var debited := if e.sender.Some? && (e.status == Committed || (e.kind == Withdraw && e.status == Pending))
                   then e.amount else 0;
    var to := if e.receiver.Some? then e.receiver.value else 0;
    var from := if e.sender.Some? then e.sender.value else 0;
    SumOnly(users, to, credited);
    SumOnly(users, from, debited);
    SumDifference(users, Only(to, credited), Only(from, debited), ShareOf(e));
  }

  /** The spendable amounts of all users are the committed top-ups less fees, payouts and reservations. */
  lemma {:induction false} MoneyIsConserved(log: seq<Entry>, users: seq<User>)
    requires (forall e :: e in log ==> EntryOk(e)) && Covers(users, log)
    ensures Sum(users, SpendableOf(log)) ==
            CommittedTopups(log) - CommittedFees(log) - CommittedWithdrawals(log) - HeldWithdrawals(log)
  {
    ConservedAsNet(log, users);
    NetTotal(log);
  }

  lemma {:induction false} ConservedAsNet(log: seq<Entry>, users: seq<User>)
    requires (forall e :: e in log ==> EntryOk(e)) && Covers(users, log)
    ensures Sum(users, SpendableOf(log)) == Sum(log, NetOf)
  {
    if log == [] {
      SumZero(users, SpendableOf(log));
    } else {
      var front, last := log[..|log| - 1], log[|log| - 1];
      ConservedAsNet(front, users);
      SharesAddUp(last, users);
      assert forall u :: SpendableOf(front)(u) == SpendableOf(log)(u) - ShareOf(last)(u);
      SumDifference(users, SpendableOf(log), ShareOf(last), SpendableOf(front));
    }
  }

  lemma {:induction false} SumZero<T>(rows: seq<T>, f: T -> int)
    requires forall row :: row in rows ==> f(row) == 0
    ensures Sum(rows, f) == 0
  {
    if rows != [] {
      SumZero(rows[..|rows| - 1], f);
    }
  }

  // ---------- One user's share of the top-ups ----------

  function AddUser(users: seq<User>, u: User): seq<User> {
    if u in users then users else users + [u]
  }

  function AddParty(users: seq<User>, u: Option<User>): seq<User> {
    if u.Some? then AddUser(users, u.value) else users
  }

  function Parties(log: seq<Entry>): seq<User> {
    if log == [] then []
    else
      var last := log[|log| - 1];
      AddParty(AddParty(Parties(log[..|log| - 1]), last.sender), last.receiver)
  }

  lemma {:induction false} PartiesCover(log: seq<Entry>)
    ensures Covers(Parties(log), log)
  {
    if log != [] {
      PartiesCover(log[..|log| - 1]);
      assert forall e :: e in log ==> e in log[..|log| - 1] || e == log[|log| - 1];
    }
  }

  ghost predicate Solvent(log: seq<Entry>) {
    forall u :: Spendable(log, u) >= 0
  }

  lemma {:induction false} TwoTerms<T>(rows: seq<T>, f: T -> int, i: nat, j: nat)
    requires i < j < |rows| && forall row :: row in rows ==> f(row) >= 0
    ensures f(rows[i]) + f(rows[j]) <= Sum(rows, f)
  {
    var n := |rows| - 1;
    if j < n {
      TwoTerms(rows[..n], f, i, j);
    } else {
      OneTerm(rows[..n], f, i);
    }
  }

  lemma {:induction false} OneTerm<T>(rows: seq<T>, f: T -> int, i: nat)
    requires i < |rows| && forall row :: row in rows ==> f(row) >= 0
    ensures f(rows[i]) <= Sum(rows, f)
  {
    var n := |rows| - 1;
    if i < n {
      OneTerm(rows[..n], f, i);
    } else {
      SumNonNegative(rows[..n], f);
    }
  }

  /** In a solvent log no two users together can spend more than was ever topped up. */
  lemma TwoUsersWithinTopups(log: seq<Entry>, u: User, v: User)
    requires (forall e :: e in log ==> EntryOk(e)) && Solvent(log) && u != v
    ensures Spendable(log, u) + Spendable(log, v) <= CommittedTopups(log)
  {
    PartiesCover(log);
    var users := AddUser(AddUser(Parties(log), u), v);
    MoneyIsConserved(log, users);
    SumNonNegative(log, FeeOf);
    SumNonNegative(log, PaidOutOf);
    SumNonNegative(log, HeldOf);
    TwoOf(users, SpendableOf(log), u, v);
  }

  lemma TwoOf(users: seq<User>, f: User -> int, u: User, v: User)
    requires u in users && v in users && u != v && forall w :: f(w) >= 0
    ensures f(u) + f(v) <= Sum(users, f)
  {
    var i :| 0 <= i < |users| && users[i] == u;
    var j :| 0 <= j < |users| && users[j] == v;
    if i < j {
      TwoTerms(users, f, i, j);
    } else {
      TwoTerms(users, f, j, i);
    }
  }
}
