// The version columns of the balance rows: the optimistic lock of every UPDATE.
module BalanceVersions {
  import opened Money
  import opened Ledger
  import opened Tables
  import opened Transactions
  import opened TransactionEffects
  import opened WalletSystem

  /** No row disappears, no version falls, and a row that changes gets a higher version. */
  ghost predicate Versioned(t: Tables, t': Tables) {
    forall u :: u in t.balances ==>
      && u in t'.balances && t'.balances[u].version >= t.balances[u].version
      && (t'.balances[u] != t.balances[u] ==> t'.balances[u].version > t.balances[u].version)
  }

  ghost predicate Positive(t: Tables) {
    forall u :: u in t.balances ==> t.balances[u].version >= 1
  }

  /** What one transaction does to the versions. */
  ghost predicate Moved(t: Tables, t': Tables) {
    Versioned(t, t') && (Positive(t) ==> Positive(t'))
  }

  lemma TransferVersions(t: Tables, c: TransferCall, cfg: Config)
    requires TransferTx(t, c, cfg).Ok?
    ensures Moved(t, TransferTx(t, c, cfg).value.tables)
  {
    var plan, t1, t2 := TransferParts(t, c, cfg);
    MoveVersions(t, c.sender, c.receiver.value, plan.newFrom, plan.newTo);
    AppendTransferEffect(t1, c, plan.quote);
  }

  lemma MoveVersions(t: Tables, from: User, to: User, newFrom: Sen, newTo: Sen)
    requires from != to && MoveBalances(t, from, to, newFrom, newTo).Some?
    ensures Moved(t, MoveBalances(t, from, to, newFrom, newTo).value)
  {
  }

  lemma WebhookVersions(t: Tables, va: VA)
    requires WebhookTx(t, va).Some?
    ensures Moved(t, WebhookTx(t, va).value)
  {
  }

  lemma ReserveVersions(t: Tables, c: WithdrawCall)
    requires ReserveTx(t, c).Ok?
    ensures Moved(t, ReserveTx(t, c).value)
  {
  }

  lemma FinishVersions(t: Tables, record: Id, status: Status)
    requires record in t.withdrawals && TryFinish(t, record, status).Some?
    ensures Moved(t, TryFinish(t, record, status).value)
  {
    CreditVersions(t, t.withdrawals[record].user, t.withdrawals[record].amount);
  }

  lemma CreditVersions(t: Tables, user: User, amount: Sen)
    ensures ApplyCredit(t, user, amount).Some? && Moved(t, ApplyCredit(t, user, amount).value)
  {
  }

  lemma TransferStep(s: System, c: TransferCall)
    ensures Moved(s.tables, Apply(s, AttemptTransfer(c)).tables)
  {
    if TransferTx(s.tables, c, s.cfg).Ok? {
      TransferVersions(s.tables, c, s.cfg);
    }
  }

  lemma WebhookStep(s: System, va: VA)
    ensures Moved(s.tables, Apply(s, CommitWebhook(va)).tables)
  {
    if va in s.delivered && WebhookTx(s.tables, va).Some? {
      WebhookVersions(s.tables, va);
    }
  }

  lemma ReserveStep(s: System, c: WithdrawCall)
    ensures Moved(s.tables, Apply(s, ReserveFunds(c)).tables)
  {
    if c.amount > 0 && ReserveTx(s.tables, c).Ok? {
      ReserveVersions(s.tables, c);
    }
  }

  lemma CommitStep(s: System, record: Id)
    ensures Moved(s.tables, Apply(s, CommitFinish(record)).tables)
  {
    if record in s.open && record in s.tables.withdrawals && TryFinish(s.tables, record, s.open[record].status).Some? {
      FinishVersions(s.tables, record, s.open[record].status);
    }
  }

  lemma StepVersions(s: System, step: Step)
    ensures Moved(s.tables, Apply(s, step).tables)
  {
    match step
    case AttemptTransfer(c) => TransferStep(s, c);
    case CommitWebhook(va) => WebhookStep(s, va);
    case ReserveFunds(c) => ReserveStep(s, c);
    case CommitFinish(record) => CommitStep(s, record);
    case _ =>
  }

  lemma {:induction false} RunVersions(s: System, steps: seq<Step>)
    ensures Moved(s.tables, Run(s, steps).tables)
  {
    if steps != [] {
      var n := |steps| - 1;
      RunVersions(s, steps[..n]);
      StepVersions(Run(s, steps[..n]), steps[n]);
    }
  }

  /** A version that is still the same means that nobody has touched the row, whatever ran in between. */
  lemma SameVersionSameRow(s: System, steps: seq<Step>, u: User)
    requires u in s.tables.balances
    requires u in Run(s, steps).tables.balances ==>
               Run(s, steps).tables.balances[u].version == s.tables.balances[u].version
    ensures u in Run(s, steps).tables.balances && Run(s, steps).tables.balances[u] == s.tables.balances[u]
  {
    RunVersions(s, steps);
  }

  /** Every row that a run writes has a positive version, so version 0 always stands for a missing row. */
  lemma VersionsArePositive(cfg: Config, steps: seq<Step>)
    ensures Positive(Run(Initial(cfg), steps).tables)
  {
    RunVersions(Initial(cfg), steps);
  }
}
