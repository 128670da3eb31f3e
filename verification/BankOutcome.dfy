// When top-ups, withdrawals, webhooks and callbacks go through, and what the caller is told, in terms of the tables
// and the request alone.
module BankOutcome {
  import opened Wrappers
  import opened Money
  import opened Fees
  import opened Ledger
  import opened Tables
  import opened Transactions
  import opened TransactionEffects
  import opened WalletSystem
  import opened WalletInvariant
  import opened WalletSafety
  import opened Errors
  import opened Idempotency
  import opened BankService
  import opened BalanceVersions
  import opened TransferOutcome
  import opened Reversal
  import TB = Tables
  import WalletTheorems
  import WalletHistory

  /** The most that a user may move at once, by level. */
  function Limit(kyc: KYCLevel): Sen {
    if kyc == Verified then 1_000_000_000 else 200_000_000
  }

  lemma LimitChecked(amount: Sen, kyc: KYCLevel)
    ensures ExceedsBILimit(amount, kyc) <==> amount > Limit(kyc)
  {
  }

  // ---------- Top-ups ----------

  /** A top-up commits if and only if its id is free and its VA number is new. */
  lemma TopupDecided(t: Tables, c: TopupCall)
    ensures TopupTx(t, c).Some? <==> Free(t.log, c.entry) && c.number !in t.vas
  {
    FreeRow(t.log, c.entry);
  }

  /** The reply to a top-up request that has the marker. */
  lemma TopupReply(s: System, s': System, m: Store, m': Store, user: User, req: TopupRequest, o: TopupOracle,
                   reply: Reply)
    requires req.amount > 0 && ToppedUp(s, s', m, m', user, req, o, reply)
    ensures reply.Fresh? <==>
              && o.kyc.Some? && req.amount <= Limit(o.kyc.value) && o.number.Some? && o.fault == None
              && Free(s.tables.log, o.entry) && o.number.value !in s.tables.vas
    ensures o.kyc.Some? && req.amount > Limit(o.kyc.value) ==> reply == Refused(ExceedsTransactionLimit)
    ensures !reply.Fresh? && (o.kyc == None || req.amount <= Limit(o.kyc.value)) ==> reply == Refused(Code.Internal)
    ensures !reply.Fresh? ==> s' == s
    ensures reply.Fresh? ==>
              && reply.body == TopupBody(o.entry, o.number.value, req.amount)
              && s'.tables.log == s.tables.log + [
                   Entry(o.entry, req.key, Topup, None, Some(user), req.amount, Pending, o.now)]
              && s'.tables.vas == s.tables.vas[
                   o.number.value := VA(o.number.value, user, req.amount, Active, Some(o.entry))]
              && s'.tables.balances == s.tables.balances && s'.tables.withdrawals == s.tables.withdrawals
  {
    if o.kyc.Some? {
      LimitChecked(req.amount, o.kyc.value);
    }
    if o.number.Some? {
      var call := TopupCall(req.key, user, req.amount, o.number.value, o.entry, o.now);
      TopupDecided(s.tables, call);
      if TopupTx(s.tables, call).Some? {
        TopupEffect(s.tables, call);
      }
    }
  }

  lemma ValidTopups(req: TopupRequest)
    ensures ValidateTopup(req) == None <==> req.key != "" && req.amount > 0
    ensures req.key == "" ==> ValidateTopup(req) == Some(MissingField)
    ensures req.key != "" && req.amount <= 0 ==> ValidateTopup(req) == Some(Code.InvalidAmount)
  {
  }

  // ---------- Withdrawals ----------

  /** A reservation commits if and only if the balance covers it and both ids are free. */
  lemma ReserveDecided(t: Tables, c: WithdrawCall)
    requires c.amount > 0 && Positive(t)
    ensures var r := ReserveTx(t, c);
            && (r.Ok? <==> Balance(t, c.user) >= c.amount && Free(t.log, c.entry) && c.record !in t.withdrawals)
            && (r == Err(Insufficient) <==> Balance(t, c.user) < c.amount)
  {
    FreeRow(t.log, c.entry);
  }

  lemma ValidWithdrawals(req: WithdrawRequest)
    ensures ValidateWithdraw(req) == None <==> req.key != "" && req.amount > 0 && req.bankAccount != ""
    ensures req.key == "" ==> ValidateWithdraw(req) == Some(MissingField)
    ensures req.key != "" && req.amount <= 0 ==> ValidateWithdraw(req) == Some(Code.InvalidAmount)
    ensures req.key != "" && req.amount > 0 && req.bankAccount == "" ==> ValidateWithdraw(req) == Some(MissingField)
  {
  }

  /** The bank is asked if and only if the level allows the amount, nothing fails, and the reservation commits. */
  ghost predicate AsksBank(t: Tables, user: User, req: WithdrawRequest, o: WithdrawOracle) {
    && o.kyc.Some? && req.amount <= Limit(o.kyc.value) && o.reserveFault == None
    && Balance(t, user) >= req.amount && Free(t.log, o.entry) && o.record !in t.withdrawals
  }

  lemma AsksBankIff(t: Tables, user: User, req: WithdrawRequest, o: WithdrawOracle)
    requires req.amount > 0 && Positive(t)
    ensures WithdrawCode(t, user, req, o) == None <==> AsksBank(t, user, req, o)
    ensures o.kyc.Some? && req.amount > Limit(o.kyc.value) ==>
              WithdrawCode(t, user, req, o) == Some(ExceedsTransactionLimit)
    ensures (o.kyc.Some? && req.amount <= Limit(o.kyc.value) && o.reserveFault == None
             && Balance(t, user) < req.amount) ==>
              WithdrawCode(t, user, req, o) == Some(InsufficientBalance)
  {
    ReserveDecided(t, WithdrawCallOf(user, req, o));
    if o.kyc.Some? {
      LimitChecked(req.amount, o.kyc.value);
    }
  }

  /** The reply to a withdrawal request that has the marker and is not sent to the bank. */
  lemma RefusedBeforeBank(s: System, s': System, m: Store, m': Store, user: User, req: WithdrawRequest,
                          o: WithdrawOracle, reply: Reply)
    requires req.amount > 0 && Positive(s.tables) && Withdrew(s, s', m, m', user, req, o, reply)
    requires !AsksBank(s.tables, user, req, o)
    ensures s' == s && reply.Refused?
    ensures o.kyc.Some? && req.amount > Limit(o.kyc.value) ==> reply == Refused(ExceedsTransactionLimit)
    ensures (o.kyc.Some? && req.amount <= Limit(o.kyc.value) && o.reserveFault == None
             && Balance(s.tables, user) < req.amount) ==>
              reply == Refused(InsufficientBalance)
  {
    AsksBankIff(s.tables, user, req, o);
  }

  /** The reply to one that is sent to the bank. */
  lemma ReplyAfterBank(s: System, s': System, m: Store, m': Store, user: User, req: WithdrawRequest,
                       o: WithdrawOracle, reply: Reply)
    requires StateOk(s) && req.amount > 0 && Positive(s.tables) && Withdrew(s, s', m, m', user, req, o, reply)
    requires AsksBank(s.tables, user, req, o) && forall i :: 0 <= i < |o.env| ==> NotForRequest(o.env[i], o.record)
    ensures var w := WhenAnswered(s, WithdrawCallOf(user, req, o), o.env);
            reply.Fresh? <==>
              && o.answer == BankResult(true) && o.finishFault == None
              && o.record !in w.open && LogStatus(w.tables, o.record) == Pending
    ensures reply.Fresh? ==> reply.body == WithdrawBody(o.entry, req.amount)
    ensures o.answer.BankError? ==> reply == Refused(o.answer.code) && m' == m
    ensures !reply.Fresh? && !o.answer.BankError? ==> reply == Refused(Code.Internal)
  {
    AsksBankIff(s.tables, user, req, o);
    var call := WithdrawCallOf(user, req, o);
    var w := WhenAnswered(s, call, o.env);
    Answerable(s, call, o.env);
    PendingCommits(w, call.record);
  }

  lemma PendingCommits(w: System, record: Id)
    requires StateOk(w) && record in w.tables.withdrawals
    ensures w.tables.withdrawals[record].entry.Some?
    ensures CommitTxLog(w.tables, w.tables.withdrawals[record].entry.value).Some? <==>
              LogStatus(w.tables, record) == Pending
  {
    assert WithdrawalOk(w.tables.log, w.tables.withdrawals[record]);
  }

  // ---------- Webhooks ----------

  /** The reply to a webhook delivery. */
  lemma WebhookReply(s: System, number: string, lookupFails: bool, env: seq<Step>, fault: Option<FailPoint>)
    requires StateOk(s)
    ensures var code, w := WebhookCode(s, number, lookupFails, env, fault), Run(Apply(s, ReadWebhook(number)), env);
            && (lookupFails ==> code == Some(Code.Internal))
            && (!lookupFails && number !in s.tables.vas ==> code == Some(InvalidVA))
            && (!lookupFails && number in s.tables.vas && s.tables.vas[number].status != Active ==>
                  code == Some(DuplicateRequest))
            && (code == None <==>
                  && !lookupFails && number in s.tables.vas && s.tables.vas[number].status == Active && fault == None
                  && number in w.tables.vas && w.tables.vas[number].status == Active)
            && (!lookupFails && number in s.tables.vas && s.tables.vas[number].status == Active && code.Some? ==>
                  code == Some(Code.Internal))
  {
    if !lookupFails && number in s.tables.vas && s.tables.vas[number].status == Active {
      DeliveryReady(s, number, env);
    }
  }

  /** A delivery that read an active VA commits exactly while the VA is still active. */
  lemma DeliveryReady(s: System, number: string, env: seq<Step>)
    requires StateOk(s) && number in s.tables.vas && s.tables.vas[number].status == Active
    ensures var va, w := s.tables.vas[number], Run(Apply(s, ReadWebhook(number)), env);
            && va.number == number && va in w.delivered && StateOk(w) && number in w.tables.vas
            && (WebhookTx(w.tables, va).Some? <==> w.tables.vas[number].status == Active)
  {
    var va, w := s.tables.vas[number], Run(Apply(s, ReadWebhook(number)), env);
    assert VAOk(s.tables.log, va);
    StateKept(s, ReadWebhook(number));
    WalletHistory.StateAlways(Apply(s, ReadWebhook(number)), env);
    RunWebhook(s, number, va, env);
    WalletTheorems.PendingWebhookCommits(w, va);
  }

  /** The one entry with this id turns from pending to this status, and no entry changes otherwise. */
  ghost predicate Settles(log: seq<Entry>, log': seq<Entry>, id: Id, status: Status) {
    && |log'| == |log|
    && (exists i :: 0 <= i < |log| && log[i].id == id && log[i].status == Pending)
    && (forall i :: 0 <= i < |log| ==>
          log'[i] == if log[i].id == id then log[i].(status := status) else log[i])
  }

  lemma SettlesRow(log: seq<Entry>, id: Id, status: Status)
    requires UniqueIds(log) && Row(log, id).Some? && Row(log, id).value.status == Pending
    ensures Settles(log, TB.SetStatus(log, id, status), id, status)
  {
    var i := Position(log, id);
    assert log[i].id == id && log[i].status == Pending;
  }

  /** The VA is paid, its entry committed, and its user credited; nobody else's balance moves. */
  ghost predicate Pays(t: Tables, t': Tables, va: VA) {
    && va.entry.Some? && va.number in t'.vas && t'.vas[va.number].status == Paid
    && Settles(t.log, t'.log, va.entry.value, Committed)
    && (forall u :: Balance(t', u) == Wrap64(Balance(t, u) + if u == va.user then va.amount else 0))
  }

  lemma DeliveryPays(w: System, va: VA)
    requires StateOk(w) && va in w.delivered && WebhookTx(w.tables, va).Some?
    ensures Pays(w.tables, Apply(w, CommitWebhook(va)).tables, va)
  {
    TablesPaid(w.tables, va);
  }

  lemma TablesPaid(t: Tables, va: VA)
    requires UniqueIds(t.log) && WebhookTx(t, va).Some?
    ensures Pays(t, WebhookTx(t, va).value, va)
  {
    WebhookEffect(t, va);
    SettlesRow(t.log, va.entry.value, Committed);
    OnlyCredited(t, WebhookTx(t, va).value, va.user, va.amount);
  }

  lemma OnlyCredited(t: Tables, t': Tables, user: User, amount: int)
    requires Moves(t, t', CreditOnly(user, amount))
    ensures forall u :: Balance(t', u) == Wrap64(Balance(t, u) + if u == user then amount else 0)
  {
  }

  /** The run of a delivery that has read an active VA. */
  lemma DeliveryRuns(s: System, number: string, env: seq<Step>, fault: Option<FailPoint>)
    requires number in s.tables.vas && s.tables.vas[number].status == Active
    ensures var w := Run(Apply(s, ReadWebhook(number)), env);
            Run(s, WebhookSteps(s, number, false, env, fault)) ==
            if fault.Some? then w else Apply(w, CommitWebhook(s.tables.vas[number]))
  {
    RunWebhook(s, number, s.tables.vas[number], env);
  }

  /** A delivery that is answered without an error has paid; one that is answered with an error has done nothing. */
  lemma WebhookPaysOrNot(s: System, number: string, env: seq<Step>, fault: Option<FailPoint>)
    requires StateOk(s) && number in s.tables.vas && s.tables.vas[number].status == Active
    ensures var w := Run(Apply(s, ReadWebhook(number)), env);
            var s' := Run(s, WebhookSteps(s, number, false, env, fault));
            if WebhookCode(s, number, false, env, fault) == None then Pays(w.tables, s'.tables, s.tables.vas[number])
            else s' == w
  {
    DeliveryReady(s, number, env);
    DeliveryRuns(s, number, env, fault);
    var va, w := s.tables.vas[number], Run(Apply(s, ReadWebhook(number)), env);
    if fault == None && WebhookTx(w.tables, va).Some? {
      DeliveryPays(w, va);
    } else if fault == None {
      FailedDelivery(w, va);
    }
  }

  lemma FailedDelivery(w: System, va: VA)
    requires WebhookTx(w.tables, va) == None
    ensures Apply(w, CommitWebhook(va)) == w
  {
  }

  // ---------- Callbacks ----------

  /** The reply to a withdrawal callback. */
  lemma CallbackReply(s: System, found: Option<Id>, lookupFails: bool, env: seq<Step>, fault: Option<FailPoint>)
    requires StateOk(s) && (found.Some? ==> found.value in s.tables.withdrawals)
    ensures var code := CallbackCode(s, found, lookupFails, env, fault);
            && (lookupFails ==> code == Some(Code.Internal))
            && (!lookupFails && found == None ==> code == Some(UserNotFound))
            && (!lookupFails && found.Some? && s.tables.withdrawals[found.value].status != Pending ==>
                  code == None && CallbackSteps(s, found, lookupFails, env, fault) == [])
            && (!lookupFails && found.Some? && s.tables.withdrawals[found.value].status == Pending ==>
                  var w := Run(Apply(s, LookUpCallback(found.value)), env);
                  && (code == None <==>
                        fault == None && found.value !in w.open && LogStatus(w.tables, found.value) == Pending)
                  && (code.Some? ==> code == Some(Code.Internal)))
  {
    if !lookupFails && found.Some? && s.tables.withdrawals[found.value].status == Pending {
      CallbackReady(s, found.value, env);
    }
  }

  lemma CallbackReady(s: System, record: Id, env: seq<Step>)
    requires StateOk(s) && record in s.tables.withdrawals
    ensures s.tables.withdrawals[record].entry.Some?
    ensures var w := Run(Apply(s, LookUpCallback(record)), env);
            CommitTxLog(w.tables, s.tables.withdrawals[record].entry.value).Some? <==>
              LogStatus(w.tables, record) == Pending
  {
    var begun := Apply(s, LookUpCallback(record));
    StateKept(s, LookUpCallback(record));
    LookUpReadsOnly(s, record);
    WalletHistory.StateAlways(begun, env);
    RunKeeps(begun, env, record);
    PendingCommits(s, record);
    PendingCommits(Run(begun, env), record);
  }

  lemma LookUpReadsOnly(s: System, record: Id)
    ensures Apply(s, LookUpCallback(record)).tables == s.tables
  {
  }
}
