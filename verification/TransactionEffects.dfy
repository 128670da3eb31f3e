// What each transaction changes when it commits, and that nothing else changes.
module TransactionEffects {
  import opened Wrappers
  import opened Money
  import opened Ledger
  import opened Tables
  import opened Transactions

  /** One user is credited and one debited; either part may be absent. */
  datatype Change = Change(to: Option<User>, credit: int, from: Option<User>, debit: int)

  function Delta(change: Change, u: User): int {
    (if change.to == Some(u) then change.credit else 0) - (if change.from == Some(u) then change.debit else 0)
  }

  /** Every user's balance is the old one plus a signed change, in wrapping arithmetic. */
  ghost predicate Moves(t: Tables, t': Tables, change: Change) {
    forall u :: Balance(t', u) == Wrap64(Balance(t, u) + Delta(change, u))
  }

  function TransferChange(c: TransferCall, fee: int): Change {
    Change(c.receiver, c.amount, Some(c.sender), c.amount + fee)
  }

  function CreditOnly(user: User, amount: int): Change {
    Change(Some(user), amount, None, 0)
  }

  function TransferEntries(c: TransferCall, q: Quote): seq<Entry> {
    [TransferEntry(c)] + if q.fee > 0 || q.applied then [FeeEntry(c, q.fee)] else []
  }

  /** The user's row, balance and version alike, is untouched. */
  predicate SameSnapshot(t: Tables, t': Tables, u: User) {
    (u in t'.balances <==> u in t.balances) && (u in t.balances ==> t'.balances[u] == t.balances[u])
  }

  lemma MoveBalancesEffect(t: Tables, from: User, to: User, newFrom: Sen, newTo: Sen)
    requires from != to
    ensures var r := MoveBalances(t, from, to, newFrom, newTo);
            && r.Some?
            && Balance(r.value, from) == newFrom && Balance(r.value, to) == newTo
            && (forall u :: u != from && u != to ==> SameSnapshot(t, r.value, u))
            && r.value == t.(balances := r.value.balances)
  {
  }

  lemma AppendTransferEffect(t: Tables, c: TransferCall, q: Quote)
    requires AppendTransfer(t, c, q).Some? && (q.fee > 0 || q.applied)
    ensures AppendTransfer(t, c, q).value == t.(log := t.log + TransferEntries(c, q))
    ensures Row(t.log, c.entry) == None && Row(t.log + [TransferEntry(c)], c.feeEntry) == None
  {
    assert (t.log + [TransferEntry(c)]) + [FeeEntry(c, q.fee)] == t.log + TransferEntries(c, q);
  }

  /** The parts that a committed transfer is made of. */
  lemma TransferParts(t: Tables, c: TransferCall, cfg: Config) returns (plan: Plan, t1: Tables, t2: Tables)
    requires TransferTx(t, c, cfg).Ok?
    ensures c.receiver.Some? && c.receiver.value != c.sender
    ensures PlanTransfer(c, cfg, Balance(t, c.sender), Balance(t, c.receiver.value)) == Ok(plan)
    ensures MoveBalances(t, c.sender, c.receiver.value, plan.newFrom, plan.newTo) == Some(t1)
    ensures AppendTransfer(t1, c, plan.quote) == Some(t2)
    ensures TransferTx(t, c, cfg).value ==
            Done(t2, Receipt(c.entry, c.amount, plan.quote.fee, plan.newFrom, plan.newTo))
  {
    plan := PlanTransfer(c, cfg, Balance(t, c.sender), Balance(t, c.receiver.value)).value;
    t1 := MoveBalances(t, c.sender, c.receiver.value, plan.newFrom, plan.newTo).value;
    t2 := AppendTransfer(t1, c, plan.quote).value;
  }

  /** What the checks of a transfer that is not refused have settled. */
  lemma PlanMeaning(c: TransferCall, cfg: Config, from: Sen, to: Sen, plan: Plan)
    requires PlanTransfer(c, cfg, from, to) == Ok(plan)
    ensures c.amount > 0 && plan.quote == QuoteFee(c, cfg)
    ensures from >= c.amount && from >= Wrap64(c.amount + plan.quote.fee)
    ensures plan.newFrom == Wrap64(from - Wrap64(c.amount + plan.quote.fee)) && plan.newTo == Wrap64(to + c.amount)
  {
  }

  lemma TransferRows(t: Tables, c: TransferCall, cfg: Config)
    requires TransferTx(t, c, cfg).Ok?
    ensures c.amount > 0 && c.receiver.Some? && c.receiver.value != c.sender
    ensures Balance(t, c.sender) >= c.amount && Balance(t, c.sender) >= Wrap64(c.amount + QuoteFee(c, cfg).fee)
    ensures Row(t.log, c.entry) == None && Row(t.log + [TransferEntry(c)], c.feeEntry) == None
    ensures var t', q := TransferTx(t, c, cfg).value.tables, QuoteFee(c, cfg);
            t' == t.(balances := t'.balances, log := t.log + TransferEntries(c, q))
  {
    var plan, t1, t2 := TransferParts(t, c, cfg);
    PlanMeaning(c, cfg, Balance(t, c.sender), Balance(t, c.receiver.value), plan);
    MoveBalancesEffect(t, c.sender, c.receiver.value, plan.newFrom, plan.newTo);
    AppendTransferEffect(t1, c, plan.quote);
  }

  lemma TransferBalances(t: Tables, c: TransferCall, cfg: Config)
    requires TransferTx(t, c, cfg).Ok?
    ensures c.amount > 0 && c.receiver.Some? && c.receiver.value != c.sender
    ensures var t', fee := TransferTx(t, c, cfg).value.tables, QuoteFee(c, cfg).fee;
            && Balance(t', c.sender) == Wrap64(Balance(t, c.sender) - Wrap64(c.amount + fee))
            && Balance(t', c.receiver.value) == Wrap64(Balance(t, c.receiver.value) + c.amount)
            && TransferTx(t, c, cfg).value.receipt ==
                 Receipt(c.entry, c.amount, fee, Balance(t', c.sender), Balance(t', c.receiver.value))
            && (forall u :: u != c.sender && u != c.receiver.value ==> SameSnapshot(t, t', u))
  {
    var plan, t1, t2 := TransferParts(t, c, cfg);
    PlanMeaning(c, cfg, Balance(t, c.sender), Balance(t, c.receiver.value), plan);
    MoveBalancesEffect(t, c.sender, c.receiver.value, plan.newFrom, plan.newTo);
    AppendTransferEffect(t1, c, plan.quote);
  }

  lemma TransferMoves(t: Tables, t': Tables, c: TransferCall, fee: Sen)
    requires c.receiver.Some? && c.receiver.value != c.sender
    requires Balance(t', c.sender) == Wrap64(Balance(t, c.sender) - Wrap64(c.amount + fee))
    requires Balance(t', c.receiver.value) == Wrap64(Balance(t, c.receiver.value) + c.amount)
    requires forall u :: u != c.sender && u != c.receiver.value ==> SameSnapshot(t, t', u)
    ensures Moves(t, t', TransferChange(c, fee))
  {
    forall u ensures Balance(t', u) == Wrap64(Balance(t, u) + Delta(TransferChange(c, fee), u)) {
      if u == c.sender {
        WrapSub(Balance(t, u), c.amount + fee);
      } else if u != c.receiver.value {
        assert SameSnapshot(t, t', u);
      }
    }
  }

  /**
   * A committed transfer takes amount and fee from the sender, gives the amount to the receiver and
   * appends one transfer entry, with a fee entry exactly when a fee is due or a promo code was applied.
   */
  lemma TransferEffect(t: Tables, c: TransferCall, cfg: Config)
    requires TransferTx(t, c, cfg).Ok?
    ensures c.amount > 0 && c.receiver.Some? && c.receiver.value != c.sender
    ensures var done, q := TransferTx(t, c, cfg).value, QuoteFee(c, cfg);
            && done.tables.log == t.log + TransferEntries(c, q)
            && Moves(t, done.tables, TransferChange(c, q.fee))
            && done.receipt == Receipt(c.entry, c.amount, q.fee,
                                       Balance(done.tables, c.sender), Balance(done.tables, c.receiver.value))
            && (forall u :: u != c.sender && u != c.receiver.value ==> SameSnapshot(t, done.tables, u))
  {
    TransferRows(t, c, cfg);
    TransferBalances(t, c, cfg);
    TransferMoves(t, TransferTx(t, c, cfg).value.tables, c, QuoteFee(c, cfg).fee);
  }

  /** Creating a top-up appends one pending entry and one active VA row and moves no money. */
  lemma TopupEffect(t: Tables, c: TopupCall)
    requires TopupTx(t, c).Some?
    ensures var t' := TopupTx(t, c).value;
            && t'.log == t.log + [Entry(c.entry, c.key, Topup, None, Some(c.user), c.amount, Pending, c.now)]
            && Row(t.log, c.entry) == None && c.number !in t.vas
            && t'.vas == t.vas[c.number := VA(c.number, c.user, c.amount, Active, Some(c.entry))]
            && t'.balances == t.balances && t'.withdrawals == t.withdrawals
  {
  }

  /** A webhook commits only a pending entry and an active VA, and credits the amount that was read. */
  lemma WebhookEffect(t: Tables, va: VA)
    requires WebhookTx(t, va).Some?
    ensures va.entry.Some? && va.number in t.vas && t.vas[va.number].status == Active
    ensures Row(t.log, va.entry.value).Some? && Row(t.log, va.entry.value).value.status == Pending
    ensures var t' := WebhookTx(t, va).value;
            && t'.log == SetStatus(t.log, va.entry.value, Committed)
            && t'.vas == t.vas[va.number := t.vas[va.number].(status := Paid, entry := va.entry)]
            && t'.withdrawals == t.withdrawals
            && Moves(t, t', CreditOnly(va.user, va.amount))
  {
  }

  /** A reservation moves the amount out of the balance into a pending withdrawal. */
  lemma ReserveEffect(t: Tables, c: WithdrawCall)
    requires ReserveTx(t, c).Ok?
    ensures Balance(t, c.user) >= c.amount && Row(t.log, c.entry) == None && c.record !in t.withdrawals
    ensures var t' := ReserveTx(t, c).value;
            && t'.log == t.log + [Entry(c.entry, c.key, Withdraw, Some(c.user), None, c.amount, Pending, c.now)]
            && t'.withdrawals == t.withdrawals[c.record := Withdrawal(c.key, c.user, c.amount, Pending, Some(c.entry))]
            && t'.vas == t.vas && Moves(t, t', Change(None, 0, Some(c.user), c.amount))
  {
  }

  /** Finishing a withdrawal sets its entry's status; only a reversal returns the money. */
  lemma FinishEffect(t: Tables, user: User, amount: Sen, entry: Id, status: Status)
    requires FinishTx(t, user, amount, entry, status).Some?
    ensures status == Committed ==> Row(t.log, entry).Some? && Row(t.log, entry).value.status == Pending
    ensures var t' := FinishTx(t, user, amount, entry, status).value;
            && t'.log == SetStatus(t.log, entry, status)
            && t'.vas == t.vas && t'.withdrawals == t.withdrawals
            && Moves(t, t', CreditOnly(user, if status == Committed then 0 else amount))
  {
  }
}
