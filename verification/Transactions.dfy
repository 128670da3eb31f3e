// The database transactions of the two services. Each is all or nothing:
// its result is the tables after COMMIT, or why it rolled back.
module Transactions {
  import opened Wrappers
  import opened Money
  import opened Fees
  import opened Ledger
  import opened Tables

  /** Only configurations that pass the loader's validation reach the services. */
  type Config = c: FeeConfig | ValidConfig(c) witness FeeConfig(2500, 7000, 1000)

  type Discount = d: Sen | d >= 0

  // ---------- Transfer ----------

  /**
   * One attempt of a transfer request. receiver is what the phone lookup found, kyc the sender's level,
   * warned whether the promo code was refused up front, discount what the floating-point discount came to,
   * entry and feeEntry the generated ids.
   */
  datatype TransferCall = TransferCall(
    key: string, sender: User, receiver: Option<User>, amount: Sen, kyc: KYCLevel,
    promo: Option<PromoConfig>, code: string, warned: bool, discount: Discount,
    entry: Id, feeEntry: Id, now: int)

  datatype Refusal = NotFound | SelfTransfer | BadAmount | Insufficient | RowConflict

  datatype Receipt = Receipt(entry: Id, amount: Sen, fee: Sen, senderBalance: Sen, receiverBalance: Sen)

  datatype Done = Done(tables: Tables, receipt: Receipt)

  datatype Quote = Quote(fee: Sen, applied: bool)

  /** The fee the sender pays after a promo code, and whether the code was applied. */
  function QuoteFee(c: TransferCall, cfg: Config): (q: Quote)
    requires c.amount > 0
    ensures 0 <= q.fee <= CalcFee(c.amount, c.kyc, cfg).value
    ensures q.fee > 0 || q.applied
  {
    var fee := CalcFee(c.amount, c.kyc, cfg).value;
    if c.code != "" && c.promo.Some? && !c.warned then
      var outcome := ApplyPromoCode(c.promo.value, c.code, fee, c.now, c.discount);
      if outcome.applied then Quote(outcome.fee, true) else Quote(fee, false)
    else Quote(fee, false)
  }

  /**
   * A code counts exactly when it was not refused up front and is well formed, listed and inside the window; then
   * the sender pays the discounted fee, and otherwise the whole one.
   */
  lemma QuoteMeaning(c: TransferCall, cfg: Config)
    requires c.amount > 0
    ensures var q := QuoteFee(c, cfg);
            && (q.applied <==> !c.warned && c.promo.Some? && WellFormedCode(c.code)
                               && c.code in c.promo.value.codes && InWindow(c.promo.value.window, c.now))
            && q.fee == if q.applied then ApplyDiscount(c.promo.value, CalcFee(c.amount, c.kyc, cfg).value, c.discount)
                        else CalcFee(c.amount, c.kyc, cfg).value
  {
  }

  function TransferEntry(c: TransferCall): Entry {
    Entry(c.entry, c.key, Transfer, Some(c.sender), c.receiver, c.amount, Committed, c.now)
  }

  function FeeEntry(c: TransferCall, fee: Sen): Entry {
    Entry(c.feeEntry, c.key, Fee, Some(c.sender), None, fee, Committed, c.now)
  }

  /** What the checks before the first UPDATE settle: the fee, and both new balances. */
  datatype Plan = Plan(quote: Quote, newFrom: Sen, newTo: Sen)

  function PlanTransfer(c: TransferCall, cfg: Config, from: Sen, to: Sen): Result<Plan, Refusal> {
    if c.amount <= 0 then Err(BadAmount)
    else if from < c.amount then Err(Insufficient)
    else
      var quote := QuoteFee(c, cfg);
      var totalDebit := Wrap64(c.amount + quote.fee);
      if from < totalDebit then Err(Insufficient)
      else Ok(Plan(quote, Wrap64(from - totalDebit), Wrap64(to + c.amount)))
  }

  /** Both balance rows are inserted when missing and then updated under the versions that were read. */
  function MoveBalances(t: Tables, from: User, to: User, newFrom: Sen, newTo: Sen): Option<Tables> {
    var t0 := SeedBalance(SeedBalance(t, from), to);
    match UpdateBalance(t0, from, newFrom, t0.balances[from].version)
    case None => None
    case Some(t1) => UpdateBalance(t1, to, newTo, t0.balances[to].version)
  }

  function AppendTransfer(t: Tables, c: TransferCall, q: Quote): Option<Tables> {
    match AppendEntry(t, TransferEntry(c))
    case None => None
    case Some(t1) => if q.fee > 0 || q.applied then AppendEntry(t1, FeeEntry(c, q.fee)) else Some(t1)
  }

  function TransferTx(t: Tables, c: TransferCall, cfg: Config): Result<Done, Refusal> {
    if c.receiver == None then Err(NotFound)
    else if c.receiver.value == c.sender then Err(SelfTransfer)
    else
      match PlanTransfer(c, cfg, Balance(t, c.sender), Balance(t, c.receiver.value))
      case Err(e) => Err(e)
      case Ok(plan) =>
        match MoveBalances(t, c.sender, c.receiver.value, plan.newFrom, plan.newTo)
        case None => Err(RowConflict)
        case Some(t1) =>
          match AppendTransfer(t1, c, plan.quote)
          case None => Err(RowConflict)
          case Some(t2) => Ok(Done(t2, Receipt(c.entry, c.amount, plan.quote.fee, plan.newFrom, plan.newTo)))
  }

  // ---------- Top-up ----------

  datatype TopupCall = TopupCall(key: string, user: User, amount: Sen, number: string, entry: Id, now: int)

  function TopupTx(t: Tables, c: TopupCall): Option<Tables> {
    match AppendEntry(t, Entry(c.entry, c.key, Topup, None, Some(c.user), c.amount, Pending, c.now))
    case None => None
    case Some(t1) => InsertVA(t1, VA(c.number, c.user, c.amount, Active, Some(c.entry)))
  }

  /** Credits the VA row that was read before the transaction began. */
  function WebhookTx(t: Tables, va: VA): Option<Tables> {
    match va.entry
    case None => None
    case Some(entry) =>
      match CommitTxLog(t, entry)
      case None => None
      case Some(t1) =>
        match ApplyCredit(t1, va.user, va.amount)
        case None => None
        case Some(t2) => MarkVAPaid(t2, va.number, entry)
  }

  // ---------- Withdrawal ----------

  datatype WithdrawCall = WithdrawCall(key: string, user: User, amount: Sen, record: Id, entry: Id, now: int)

  function ReserveTx(t: Tables, c: WithdrawCall): Result<Tables, Refusal> {
    var balance := Balance(t, c.user);
    var version := if c.user in t.balances then t.balances[c.user].version else 0;
    if balance < c.amount then Err(Insufficient)
    else
      match UpsertBalance(t, c.user, Wrap64(balance - c.amount), version)
      case None => Err(RowConflict)
      case Some(t1) =>
        match AppendEntry(t1, Entry(c.entry, c.key, Withdraw, Some(c.user), None, c.amount, Pending, c.now))
        case None => Err(RowConflict)
        case Some(t2) =>
          match InsertWithdrawal(t2, c.record, Withdrawal(c.key, c.user, c.amount, Pending, Some(c.entry)))
          case None => Err(RowConflict)
          case Some(t3) => Ok(t3)
  }

  /** The statements of commitWithdraw (for Committed) or reverseWithdraw that run inside the transaction. */
  function FinishTx(t: Tables, user: User, amount: Sen, entry: Id, status: Status): Option<Tables> {
    if status == Committed then CommitTxLog(t, entry)
    else
      match ApplyCredit(t, user, amount)
      case None => None
      case Some(t1) => Some(UpdateTxLogStatus(t1, entry, status))
  }
}
