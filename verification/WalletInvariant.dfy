// What every reachable state of the wallet satisfies.
module WalletInvariant {
  import opened Wrappers
  import opened Money
  import opened Sums
  import opened Ledger
  import opened Tables
  import opened Transactions
  import opened TransactionEffects
  import opened WalletSystem

  // ---------- The invariant ----------

  /** Which parties, amounts and statuses each kind of entry can have. */
  predicate EntryOk(e: Entry) {
    match e.kind
    case Topup => e.sender == None && e.receiver.Some? && e.amount > 0 && e.status in {Pending, Committed}
    case Transfer =>
      e.sender.Some? && e.receiver.Some? && e.sender != e.receiver && e.amount > 0 && e.status == Committed
    case Fee => e.sender.Some? && e.receiver == None && e.amount >= 0 && e.status == Committed
    case Withdraw => e.sender.Some? && e.receiver == None && e.amount > 0 && e.status != Compensated
  }

  /** A VA names a top-up entry of its user and amount: active while it is pending, paid once it is committed. */
  predicate VAOk(log: seq<Entry>, va: VA) {
    && va.entry.Some?
    && var row := Row(log, va.entry.value);
    && row.Some? && row.value.kind == Topup && row.value.receiver == Some(va.user) && row.value.amount == va.amount
    && (va.status == Active <==> row.value.status == Pending)
    && (va.status == Paid <==> row.value.status == Committed)
  }

  /** A withdrawal names a withdrawal entry of its user and amount. */
  predicate WithdrawalOk(log: seq<Entry>, w: Withdrawal) {
    && w.entry.Some?
    && var row := Row(log, w.entry.value);
    && row.Some? && row.value.kind == Withdraw && row.value.sender == Some(w.user) && row.value.amount == w.amount
    && row.value.key == w.key
  }

  ghost predicate LogOk(log: seq<Entry>) {
    UniqueIds(log) && forall e :: e in log ==> EntryOk(e)
  }

  ghost predicate VAsOk(log: seq<Entry>, vas: map<string, VA>) {
    && (forall n :: n in vas ==> vas[n].number == n && VAOk(log, vas[n]))
    && (forall m, n :: m in vas && n in vas && vas[m].entry == vas[n].entry ==> m == n)
  }

  ghost predicate RecordsOk(log: seq<Entry>, withdrawals: map<Id, Withdrawal>) {
    && (forall r :: r in withdrawals ==> WithdrawalOk(log, withdrawals[r]))
    && (forall q, r :: q in withdrawals && r in withdrawals && withdrawals[q].entry == withdrawals[r].entry ==> q == r)
  }

  ghost predicate Shape(t: Tables) {
    LogOk(t.log) && VAsOk(t.log, t.vas) && RecordsOk(t.log, t.withdrawals)
  }

  /** The status of the log entry behind a withdrawal. */
  function LogStatus(t: Tables, record: Id): Status {
    if record in t.withdrawals && t.withdrawals[record].entry.Some? then
      match Row(t.log, t.withdrawals[record].entry.value)
      case Some(e) => e.status
      case None => Pending
    else Pending
  }

  /** A VA row that a webhook handler holds differs from the table's row at most in the status. */
  ghost predicate DeliveredOk(delivered: set<VA>, vas: map<string, VA>) {
    forall va :: va in delivered ==> va.number in vas && vas[va.number] == va.(status := vas[va.number].status)
  }

  /** Everything the system knows about one withdrawal: its record, its log entry, and who is working on it. */
  datatype View = View(
    present: bool, record: Status, log: Status,
    finish: Option<Finish>, awaiting: bool, looked: bool, torn: bool)

  function ViewOf(s: System, r: Id): View {
    View(r in s.tables.withdrawals,
         if r in s.tables.withdrawals then s.tables.withdrawals[r].status else Pending,
         LogStatus(s.tables, r),
         if r in s.open then Some(s.open[r]) else None,
         r in s.awaiting, r in s.looked, r in s.torn)
  }

  /** Which log statuses a request that waits for the bank, or an open finish, can still meet. */
  predicate FlowOk(v: View) {
    && (v.awaiting ==> v.log in {Pending, Committed})
    && (v.finish.Some? ==>
          && v.finish.value.status in {Committed, Failed, Timeout}
          && (v.finish.value.status == Committed ==> v.log == Pending)
          && (v.finish.value.status != Committed ==> !v.awaiting && v.log in {Pending, Committed}))
  }

  predicate RecordedOpen(v: View) {
    v.finish.Some? && v.finish.value.recorded
  }

  /**
   * The record shows the status of an open finish that has recorded it; otherwise it shows the log's
   * status, unless a commit failed after recording. A finished log entry never has a pending record.
   */
  predicate RecordOk(v: View) {
    && (RecordedOpen(v) ==> v.record == v.finish.value.status)
    && (!RecordedOpen(v) && !v.torn ==> v.record == v.log)
    && (v.log != Pending ==> v.record != Pending)
  }

  predicate ViewOk(v: View) {
    if v.present then FlowOk(v) && RecordOk(v)
    else v.finish == None && !v.awaiting && !v.looked && !v.torn
  }

  ghost predicate Views(s: System) {
    forall r :: ViewOk(ViewOf(s, r))
  }

  /** The snapshot of every user is what the log leaves the user to spend, in 64-bit arithmetic. */
  ghost predicate Agrees(t: Tables) {
    forall u :: Balance(t, u) == Wrap64(Spendable(t.log, u))
  }

  ghost predicate Inv(s: System) {
    Shape(s.tables) && DeliveredOk(s.delivered, s.tables.vas) && Views(s) && Agrees(s.tables)
  }

  // ---------- How the log measures change ----------

  lemma SpendableAppend(log: seq<Entry>, e: Entry, u: User)
    ensures Spendable(log + [e], u) == Spendable(log, u) + HoldingOf(e, u)
  {
    SumAppend(log, e, Holding(u));
  }

  lemma SumSetStatus(log: seq<Entry>, id: Id, status: Status, f: Entry -> int)
    requires Row(log, id).Some?
    ensures var e := Row(log, id).value;
            Sum(SetStatus(log, id, status), f) == Sum(log, f) - f(e) + f(e.(status := status))
  {
    var i := Position(log, id);
    SumUpdate(log, i, log[i].(status := status), f);
  }

  /** Snapshots and spendable amounts move together. */
  ghost predicate InStep(t: Tables, t': Tables, change: Change) {
    && Moves(t, t', change)
    && forall u :: Spendable(t'.log, u) == Spendable(t.log, u) + Delta(change, u)
  }

  lemma AgreesAfter(t: Tables, t': Tables, change: Change)
    requires Agrees(t) && InStep(t, t', change)
    ensures Agrees(t')
  {
    forall u ensures Balance(t', u) == Wrap64(Spendable(t'.log, u)) {
      WrapAdd(Spendable(t.log, u), Delta(change, u));
    }
  }

  lemma SpendableAfterTransfer(log: seq<Entry>, c: TransferCall, q: Quote, u: User)
    requires c.receiver.Some? && (q.fee > 0 || q.applied)
    ensures Spendable(log + TransferEntries(c, q), u) == Spendable(log, u) + Delta(TransferChange(c, q.fee), u)
  {
    SpendableAppend(log, TransferEntry(c), u);
    SpendableAppend(log + [TransferEntry(c)], FeeEntry(c, q.fee), u);
    assert log + TransferEntries(c, q) == (log + [TransferEntry(c)]) + [FeeEntry(c, q.fee)];
  }

  // ---------- Every transaction moves snapshots and log together ----------

  lemma TransferInStep(t: Tables, c: TransferCall, cfg: Config)
    requires TransferTx(t, c, cfg).Ok?
    ensures InStep(t, TransferTx(t, c, cfg).value.tables, TransferChange(c, QuoteFee(c, cfg).fee))
  {
    TransferEffect(t, c, cfg);
    var q := QuoteFee(c, cfg);
    forall u
      ensures Spendable(t.log + TransferEntries(c, q), u) == Spendable(t.log, u) + Delta(TransferChange(c, q.fee), u)
    {
      SpendableAfterTransfer(t.log, c, q, u);
    }
  }

  lemma TopupInStep(t: Tables, c: TopupCall)
    requires TopupTx(t, c).Some?
    ensures InStep(t, TopupTx(t, c).value, CreditOnly(c.user, 0))
  {
    TopupEffect(t, c);
    var t' := TopupTx(t, c).value;
    forall u ensures Spendable(t'.log, u) == Spendable(t.log, u) {
      SpendableAppend(t.log, t'.log[|t.log|], u);
    }
    assert forall u :: Balance(t', u) == Balance(t, u);
  }

  lemma WebhookInStep(t: Tables, va: VA)
    requires LogOk(t.log) && VAsOk(t.log, t.vas) && WebhookTx(t, va).Some?
    requires va.number in t.vas && t.vas[va.number] == va.(status := t.vas[va.number].status)
    ensures InStep(t, WebhookTx(t, va).value, CreditOnly(va.user, va.amount))
  {
    WebhookEffect(t, va);
    assert VAOk(t.log, t.vas[va.number]);
    assert EntryOk(Row(t.log, va.entry.value).value);
    forall u ensures Spendable(SetStatus(t.log, va.entry.value, Committed), u) ==
                     Spendable(t.log, u) + Delta(CreditOnly(va.user, va.amount), u) {
      SumSetStatus(t.log, va.entry.value, Committed, Holding(u));
    }
  }

  lemma ReserveInStep(t: Tables, c: WithdrawCall)
    requires ReserveTx(t, c).Ok?
    ensures InStep(t, ReserveTx(t, c).value, Change(None, 0, Some(c.user), c.amount))
  {
    ReserveEffect(t, c);
    var t' := ReserveTx(t, c).value;
    var change := Change(None, 0, Some(c.user), c.amount);
    forall u ensures Spendable(t'.log, u) == Spendable(t.log, u) + Delta(change, u) {
      SpendableAppend(t.log, t'.log[|t.log|], u);
    }
  }

  function FinishChange(w: Withdrawal, status: Status): Change {
    CreditOnly(w.user, if status == Committed then 0 else w.amount)
  }

  /** A reversal keeps in step both when its entry is pending and when a callback has committed it. */
  lemma FinishInStep(t: Tables, record: Id, status: Status)
    requires LogOk(t.log) && record in t.withdrawals && WithdrawalOk(t.log, t.withdrawals[record])
    requires status in {Committed, Failed, Timeout} && LogStatus(t, record) in {Pending, Committed}
    requires TryFinish(t, record, status).Some?
    ensures InStep(t, TryFinish(t, record, status).value, FinishChange(t.withdrawals[record], status))
  {
    var w := t.withdrawals[record];
    var entry := w.entry.value;
    FinishEffect(t, w.user, w.amount, entry, status);
    assert EntryOk(Row(t.log, entry).value);
    forall u
      ensures Spendable(SetStatus(t.log, entry, status), u) == Spendable(t.log, u) + Delta(FinishChange(w, status), u)
    {
      SumSetStatus(t.log, entry, status, Holding(u));
    }
  }
}
