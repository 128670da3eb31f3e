// Top-ups, bank webhooks and withdrawals.
module BankService {
  import opened Wrappers
  import opened Money
  import opened Fees
  import opened Ledger
  import opened Tables
  import opened Transactions
  import opened WalletSystem
  import opened Errors
  import opened Idempotency

  const BILimitBasicSen: Sen := 200_000_000
  const BILimitVerifiedSen: Sen := 1_000_000_000

  predicate ExceedsBILimit(amount: Sen, kyc: KYCLevel) {
    amount > if kyc == Verified then BILimitVerifiedSen else BILimitBasicSen
  }

  // ---------- What a request meets ----------

  /** The statement of a transaction that fails; AtCommit stands for a COMMIT that did not happen. */
  datatype FailPoint = AtBegin | AtStatement(number: nat) | AtRecord | AtCommit

  /** kyc and number are what the user lookup and the VA generator return, if they succeed. */
  datatype TopupOracle = TopupOracle(net: Net, kyc: Option<KYCLevel>, number: Option<string>,
                                     entry: Id, now: int, fault: Option<FailPoint>)

  datatype BankAnswer = BankError(code: Code) | BankResult(success: bool) | NoResult

  /** env is what everybody else does while the bank is asked. */
  datatype WithdrawOracle = WithdrawOracle(net: Net, kyc: Option<KYCLevel>, record: Id, entry: Id, now: int,
                                           reserveFault: Option<FailPoint>, env: seq<Step>, answer: BankAnswer,
                                           finishFault: Option<FailPoint>)

  function ReverseStatus(code: Code): Status {
    if code == BankTimeout then Timeout else Failed
  }

  /** The steps of reverseWithdraw and commitWithdraw: UpdateStatus runs outside their transaction. */
  function FinishSteps(record: Id, status: Status, caller: Caller, fault: Option<FailPoint>): seq<Step> {
    match fault
    case None => [BeginFinish(record, status, caller), RecordFinish(record), CommitFinish(record)]
    case Some(AtRecord) => [BeginFinish(record, status, caller), AbortFinish(record)]
    case Some(AtCommit) => [BeginFinish(record, status, caller), RecordFinish(record), AbortFinish(record)]
    case Some(_) => if caller == Request then [GiveUp(record)] else []
  }

  // ---------- What other steps leave alone ----------

  /** Other parties neither stop waiting for this withdrawal's request nor finish it in its name. */
  predicate NotForRequest(step: Step, record: Id) {
    step != GiveUp(record) && !(step.BeginFinish? && step.record == record && step.caller == Request)
  }

  /** A withdrawal's row stays, with its key, user, amount and entry. */
  predicate SameWithdrawal(t: Tables, t': Tables, record: Id) {
    record in t.withdrawals ==>
      && record in t'.withdrawals
      && t'.withdrawals[record] == t.withdrawals[record].(status := t'.withdrawals[record].status)
  }

  lemma FinishKeepsRecords(t: Tables, record: Id, status: Status)
    requires record in t.withdrawals && TryFinish(t, record, status).Some?
    ensures TryFinish(t, record, status).value.withdrawals == t.withdrawals
  {
  }

  /** The withdrawal stays as it is but for its status; what others have read stays known; nobody stops waiting. */
  predicate Keeps(s: System, s': System, record: Id) {
    && SameWithdrawal(s.tables, s'.tables, record)
    && s.delivered <= s'.delivered && s.looked <= s'.looked && s.awaiting <= s'.awaiting
  }

  lemma CommitKeeps(s: System, r: Id, record: Id)
    ensures Keeps(s, Apply(s, CommitFinish(r)), record)
  {
    if r in s.open && r in s.tables.withdrawals && TryFinish(s.tables, r, s.open[r].status).Some? {
      FinishKeepsRecords(s.tables, r, s.open[r].status);
    }
  }

  lemma ReserveKeeps(s: System, c: WithdrawCall, record: Id)
    ensures Keeps(s, Apply(s, ReserveFunds(c)), record)
  {
  }

  lemma TransferKeeps(s: System, c: TransferCall, record: Id)
    ensures Keeps(s, Apply(s, AttemptTransfer(c)), record)
  {
  }

  lemma TopupKeeps(s: System, step: Step, record: Id)
    requires step.CreateTopup? || step.CommitWebhook?
    ensures Keeps(s, Apply(s, step), record)
  {
  }

  lemma StepKeeps(s: System, step: Step, record: Id)
    ensures SameWithdrawal(s.tables, Apply(s, step).tables, record)
    ensures s.delivered <= Apply(s, step).delivered && s.looked <= Apply(s, step).looked
    ensures NotForRequest(step, record) && record in s.awaiting ==> record in Apply(s, step).awaiting
  {
    match step
    case AttemptTransfer(c) => TransferKeeps(s, c, record);
    case CreateTopup(_) => TopupKeeps(s, step, record);
    case CommitWebhook(_) => TopupKeeps(s, step, record);
    case ReserveFunds(c) => ReserveKeeps(s, c, record);
    case CommitFinish(r) => CommitKeeps(s, r, record);
    case _ =>
  }

  lemma {:induction false} RunKeeps(s: System, steps: seq<Step>, record: Id)
    ensures SameWithdrawal(s.tables, Run(s, steps).tables, record)
    ensures s.delivered <= Run(s, steps).delivered && s.looked <= Run(s, steps).looked
    ensures (forall i :: 0 <= i < |steps| ==> NotForRequest(steps[i], record)) && record in s.awaiting ==>
              record in Run(s, steps).awaiting
  {
    if steps != [] {
      var n := |steps| - 1;
      RunKeeps(s, steps[..n], record);
      StepKeeps(Run(s, steps[..n]), steps[n], record);
    }
  }

  /** The run of a finish, step by step. */
  lemma RunFinish(s: System, record: Id, status: Status, caller: Caller, fault: Option<FailPoint>)
    ensures var begun := Apply(s, BeginFinish(record, status, caller));
            Run(s, FinishSteps(record, status, caller, fault)) ==
            match fault
            case None => Apply(Apply(begun, RecordFinish(record)), CommitFinish(record))
            case Some(AtRecord) => Apply(begun, AbortFinish(record))
            case Some(AtCommit) => Apply(Apply(begun, RecordFinish(record)), AbortFinish(record))
            case Some(_) => if caller == Request then Apply(s, GiveUp(record)) else s
  {
    var begin, update := BeginFinish(record, status, caller), RecordFinish(record);
    RunOne(s, GiveUp(record));
    RunTwo(s, begin, AbortFinish(record));
    RunThree(s, begin, update, AbortFinish(record));
    RunThree(s, begin, update, CommitFinish(record));
  }

  /** Whether a finish transaction goes through: no fault, and it does not commit an entry that is no longer pending. */
  predicate Finishes(t: Tables, entry: Id, status: Status, fault: Option<FailPoint>) {
    fault == None && (status == Committed ==> CommitTxLog(t, entry).Some?)
  }

  /** A finish whose statements fail does not even begin; what would follow changes nothing. */
  lemma CannotBegin(s: System, record: Id, status: Status, caller: Caller)
    requires record in s.tables.withdrawals && record !in s.open && TryFinish(s.tables, record, status) == None
    requires caller == Request ==> record in s.awaiting && status in {Committed, Failed, Timeout}
    requires caller == Callback ==> record in s.looked && status == Committed
    ensures var s' := Apply(s, BeginFinish(record, status, caller));
            && s' == s.(awaiting := if caller == Request then s.awaiting - {record} else s.awaiting)
            && Apply(s', RecordFinish(record)) == s' && Apply(s', CommitFinish(record)) == s'
            && Apply(s', AbortFinish(record)) == s'
  {
  }

  // ---------- The outcome of a request that has the marker ----------

  datatype TopupRequest = TopupRequest(key: string, amount: Sen)

  datatype WithdrawRequest = WithdrawRequest(key: string, amount: Sen, bankAccount: string)

  function ValidateTopup(req: TopupRequest): Option<Code> {
    if req.key == "" then Some(MissingField) else if req.amount <= 0 then Some(Code.InvalidAmount) else None
  }

  function ValidateWithdraw(req: WithdrawRequest): Option<Code> {
    if req.key == "" then Some(MissingField)
    else if req.amount <= 0 then Some(Code.InvalidAmount)
    else if req.bankAccount == "" then Some(MissingField)
    else None
  }

  function Released(store: Store, key: string, net: Net): Store {
    if Drops(net, ClearMarker) then store else store - {key}
  }

  /** The top-up a request creates, or why it creates none. */
  function TopupPlan(t: Tables, user: User, req: TopupRequest, o: TopupOracle): Result<TopupCall, Code> {
    if o.kyc == None then Err(Code.Internal)
    else if ExceedsBILimit(req.amount, o.kyc.value) then Err(ExceedsTransactionLimit)
    else if o.number == None then Err(Code.Internal)
    else
      var call := TopupCall(req.key, user, req.amount, o.number.value, o.entry, o.now);
      if o.fault.Some? || TopupTx(t, call) == None then Err(Code.Internal) else Ok(call)
  }

  /** A top-up request that has the marker, from wallet s and cache m to wallet s' and cache m'. */
  predicate ToppedUp(s: System, s': System, m: Store, m': Store, user: User, req: TopupRequest, o: TopupOracle,
                     reply: Reply) {
    match TopupPlan(s.tables, user, req, o)
    case Ok(call) =>
      && s' == Apply(s, CreateTopup(call)) && TopupTx(s.tables, call) == Some(s'.tables)
      && reply == Fresh(TopupBody(call.entry, call.number, call.amount))
      && m' == CacheKeys(m, req.key, CachedSuffix, reply.body, Drops(o.net, SetStatus), Drops(o.net, SetData))
    case Err(code) =>
      s' == s && reply == Refused(code) && m' == Released(m, req.key, o.net)
  }

  /** Why a reservation fails, if it does. */
  function ReserveCode(t: Tables, call: WithdrawCall, fault: Option<FailPoint>): Option<Code> {
    if fault == Some(AtBegin) || fault == Some(AtStatement(0)) then Some(Code.Internal)
    else
      match ReserveTx(t, call)
      case Err(Insufficient) => Some(InsufficientBalance)
      case Err(_) => Some(Code.Internal)
      case Ok(_) => if fault.Some? then Some(Code.Internal) else None
  }

  function WithdrawCallOf(user: User, req: WithdrawRequest, o: WithdrawOracle): WithdrawCall {
    WithdrawCall(req.key, user, req.amount, o.record, o.entry, o.now)
  }

  /** The wallet when the bank's answer arrives. */
  function WhenAnswered(s: System, call: WithdrawCall, env: seq<Step>): System {
    Run(Apply(s, ReserveFunds(call)), env)
  }

  /** Why a withdrawal stops before the bank is asked, if it does. */
  function WithdrawCode(t: Tables, user: User, req: WithdrawRequest, o: WithdrawOracle): Option<Code> {
    if o.kyc == None then Some(Code.Internal)
    else if ExceedsBILimit(req.amount, o.kyc.value) then Some(ExceedsTransactionLimit)
    else ReserveCode(t, WithdrawCallOf(user, req, o), o.reserveFault)
  }

  /** A withdrawal request that has the marker, from wallet s and cache m to wallet s' and cache m'. */
  predicate Withdrew(s: System, s': System, m: Store, m': Store, user: User, req: WithdrawRequest, o: WithdrawOracle,
                     reply: Reply) {
    var code := WithdrawCode(s.tables, user, req, o);
    if code.Some? then
      s' == s && m' == Released(m, req.key, o.net) && reply == Refused(code.value)
    else
      AfterBank(WhenAnswered(s, WithdrawCallOf(user, req, o), o.env), s', m, m', req, o, reply)
  }

  /** The same from the moment at which the bank's answer meets wallet w. */
  predicate AfterBank(w: System, s': System, m: Store, m': Store, req: WithdrawRequest, o: WithdrawOracle,
                      reply: Reply) {
    match o.answer
    case BankError(error) =>
      && s' == Run(w, FinishSteps(o.record, ReverseStatus(error), Request, Meets(w, o.record, o.finishFault)))
      && m' == m && reply == Refused(error)
    case BankResult(true) =>
      && s' == Run(w, FinishSteps(o.record, Committed, Request, Meets(w, o.record, o.finishFault)))
      && (if Finishes(w.tables, o.entry, Committed, Meets(w, o.record, o.finishFault)) then
            && reply == Fresh(WithdrawBody(o.entry, req.amount))
            && m' == CacheKeys(m, req.key, WithdrawCachedSuffix, reply.body,
                               Drops(o.net, SetStatus), Drops(o.net, SetData))
          else reply == Refused(Code.Internal) && m' == Released(m, req.key, o.net))
    case _ =>
      s' == Apply(w, GiveUp(o.record)) && reply == Refused(Code.Internal) && m' == Released(m, req.key, o.net)
  }

  /** While the bank is asked the reserved row keeps its user, amount and entry, and the request keeps waiting. */
  lemma {:induction false} ReservedRow(s: System, env: seq<Step>, call: WithdrawCall)
    requires call.record in s.tables.withdrawals && call.record in s.awaiting
    requires forall i :: 0 <= i < |env| ==> NotForRequest(env[i], call.record)
    ensures var w := Run(s, env);
            && call.record in w.tables.withdrawals && call.record in w.awaiting
            && w.tables.withdrawals[call.record].user == s.tables.withdrawals[call.record].user
            && w.tables.withdrawals[call.record].amount == s.tables.withdrawals[call.record].amount
            && w.tables.withdrawals[call.record].entry == s.tables.withdrawals[call.record].entry
  {
    RunKeeps(s, env, call.record);
  }

  // ---------- Webhooks ----------

  /** The steps of a webhook delivery; the VA row is read before everybody else's steps. */
  function WebhookSteps(s: System, number: string, lookupFails: bool, env: seq<Step>,
                        fault: Option<FailPoint>): seq<Step> {
    if lookupFails || number !in s.tables.vas || s.tables.vas[number].status != Active then []
    else [ReadWebhook(number)] + env + if fault.Some? then [] else [CommitWebhook(s.tables.vas[number])]
  }

  function WebhookCode(s: System, number: string, lookupFails: bool, env: seq<Step>,
                       fault: Option<FailPoint>): Option<Code> {
    if lookupFails then Some(Code.Internal)
    else if number !in s.tables.vas then Some(Code.InvalidVA)
    else if s.tables.vas[number].status != Active then Some(DuplicateRequest)
    else
      var w := Run(Apply(s, ReadWebhook(number)), env);
      if fault.Some? || WebhookTx(w.tables, s.tables.vas[number]) == None then Some(Code.Internal) else None
  }

  lemma RunWebhook(s: System, number: string, va: VA, env: seq<Step>)
    requires number in s.tables.vas && s.tables.vas[number] == va && va.status == Active
    ensures var w := Run(Apply(s, ReadWebhook(number)), env);
            && va in w.delivered
            && Run(s, [ReadWebhook(number)] + env + []) == w
            && Run(s, [ReadWebhook(number)] + env + [CommitWebhook(va)]) == Apply(w, CommitWebhook(va))
  {
    var read := [ReadWebhook(number)];
    RunOne(s, ReadWebhook(number));
    RunConcat(s, read, env);
    RunStep(s, read + env, CommitWebhook(va));
    RunKeeps(Apply(s, ReadWebhook(number)), env, 0);
    assert read + env + [] == read + env;
  }

  function CallbackSteps(s: System, found: Option<Id>, lookupFails: bool, env: seq<Step>,
                         fault: Option<FailPoint>): seq<Step> {
    if lookupFails || !CallbackProceeds(s, found) then []
    else
      var w := Run(Apply(s, LookUpCallback(found.value)), env);
      [LookUpCallback(found.value)] + env + FinishSteps(found.value, Committed, Callback, Meets(w, found.value, fault))
  }

  predicate CallbackProceeds(s: System, found: Option<Id>) {
    && found.Some? && found.value in s.tables.withdrawals
    && s.tables.withdrawals[found.value].status == Pending && s.tables.withdrawals[found.value].entry.Some?
  }

  function CallbackCode(s: System, found: Option<Id>, lookupFails: bool, env: seq<Step>,
                        fault: Option<FailPoint>): Option<Code> {
    if lookupFails then Some(Code.Internal)
    else if found == None then Some(Code.UserNotFound)
    else if !CallbackProceeds(s, found) then None
    else
      var w := Run(Apply(s, LookUpCallback(found.value)), env);
      var met := Meets(w, found.value, fault);
      if Finishes(w.tables, s.tables.withdrawals[found.value].entry.value, Committed, met) then None
      else Some(Code.Internal)
  }

  lemma RunCallback(s: System, record: Id, env: seq<Step>, fault: Option<FailPoint>)
    ensures Run(s, [LookUpCallback(record)] + env + FinishSteps(record, Committed, Callback, fault)) ==
            Run(Run(Apply(s, LookUpCallback(record)), env), FinishSteps(record, Committed, Callback, fault))
  {
    var read := [LookUpCallback(record)];
    RunOne(s, LookUpCallback(record));
    RunConcat(s, read, env);
    RunConcat(s, read + env, FinishSteps(record, Committed, Callback, fault));
  }

  /**
   * A finish that meets the lock of another one waits; if the lock is still held when the request is cancelled,
   * its first statement fails.
   */
  function Meets(s: System, record: Id, fault: Option<FailPoint>): Option<FailPoint> {
    if record in s.open then Some(AtStatement(0)) else fault
  }

  // ---------- The service ----------

  class Service {
    var wallet: System
    const cache: RedisCache

    constructor (wallet: System, cache: RedisCache)
      ensures this.wallet == wallet && this.cache == cache
    {
      this.wallet, this.cache := wallet, cache;
    }

    // ---------- Finishing a withdrawal ----------

    /** The statements have run: the transaction holds the lock on its log row. */
    method Hold(record: Id, status: Status, caller: Caller)
      modifies this`wallet
      ensures wallet == old(wallet).(open := old(wallet).open[record := Finish(status, false)],
                                     awaiting := if caller == Request
                                                 then old(wallet).awaiting - {record} else old(wallet).awaiting)
    {
      wallet := wallet.(open := wallet.open[record := Finish(status, false)],
                        awaiting := if caller == Request then wallet.awaiting - {record} else wallet.awaiting);
    }

    /** UpdateStatus outside the transaction, then COMMIT of the transaction's writes; true when either fails. */
    method RecordAndCommit(tx: Tables, record: Id, status: Status, fault: Option<FailPoint>) returns (failed: bool)
      requires record in wallet.tables.withdrawals && record in wallet.open
               && wallet.open[record] == Finish(status, false)
      requires TryFinish(wallet.tables, record, status) == Some(tx)
      modifies this`wallet
      ensures failed <==> fault.Some?
      ensures wallet == (match fault
                         case None => Apply(Apply(old(wallet), RecordFinish(record)), CommitFinish(record))
                         case Some(AtCommit) => Apply(Apply(old(wallet), RecordFinish(record)), AbortFinish(record))
                         case Some(_) => Apply(old(wallet), AbortFinish(record)))
    {
      if fault.Some? && fault.value != AtCommit {
        wallet := wallet.(open := wallet.open - {record});
        return true;
      }
      FinishAfterRecord(wallet.tables, record, status);
      wallet := wallet.(tables := UpdateWithdrawalStatus(wallet.tables, record, status),
                        open := wallet.open[record := Finish(status, true)]);
      if fault == Some(AtCommit) {
        wallet := wallet.(open := wallet.open - {record}, torn := wallet.torn + {record});
        return true;
      }
      wallet := wallet.(tables := tx.(withdrawals := wallet.tables.withdrawals), open := wallet.open - {record});
      return false;
    }

    /** Gives the money back and marks the withdrawal as failed or timed out. */
    method ReverseWithdraw(user: User, amount: Sen, entry: Id, record: Id, bankErr: Code, fault: Option<FailPoint>)
      returns (failed: bool)
      requires record in wallet.tables.withdrawals && record in wallet.awaiting
      requires wallet.tables.withdrawals[record].user == user && wallet.tables.withdrawals[record].amount == amount
      requires wallet.tables.withdrawals[record].entry == Some(entry)
      modifies this`wallet
      ensures failed <==> Meets(old(wallet), record, fault).Some?
      ensures wallet == Run(old(wallet),
                            FinishSteps(record, ReverseStatus(bankErr), Request, Meets(old(wallet), record, fault)))
    {
      var newStatus := if bankErr == BankTimeout then Timeout else Failed;
      RunFinish(wallet, record, newStatus, Request, Meets(wallet, record, fault));
      if record in wallet.open || (fault.Some? && (fault.value == AtBegin || fault.value.AtStatement?)) {
        wallet := wallet.(awaiting := wallet.awaiting - {record});
        return true;
      }
      var tx := ApplyCredit(wallet.tables, user, amount).value;
      tx := UpdateTxLogStatus(tx, entry, newStatus);
      Hold(record, newStatus, Request);
      failed := RecordAndCommit(tx, record, newStatus, fault);
    }

    /** Marks the withdrawal as committed; fails when its entry is no longer pending. */
    method CommitWithdraw(entry: Id, record: Id, caller: Caller, fault: Option<FailPoint>) returns (failed: bool)
      requires record in wallet.tables.withdrawals
      requires wallet.tables.withdrawals[record].entry == Some(entry)
      requires caller == Request ==> record in wallet.awaiting
      requires caller == Callback ==> record in wallet.looked
      modifies this`wallet
      ensures failed <==> !Finishes(old(wallet).tables, entry, Committed, Meets(old(wallet), record, fault))
      ensures wallet == Run(old(wallet), FinishSteps(record, Committed, caller, Meets(old(wallet), record, fault)))
    {
      RunFinish(wallet, record, Committed, caller, Meets(wallet, record, fault));
      if record in wallet.open || (fault.Some? && (fault.value == AtBegin || fault.value.AtStatement?)) {
        if caller == Request {
          wallet := wallet.(awaiting := wallet.awaiting - {record});
        }
        return true;
      }
      var tx := CommitTxLog(wallet.tables, entry);
      if tx == None {
        CannotBegin(wallet, record, Committed, caller);
        wallet := wallet.(awaiting := if caller == Request then wallet.awaiting - {record} else wallet.awaiting);
        return true;
      }
      Hold(record, Committed, caller);
      failed := RecordAndCommit(tx.value, record, Committed, fault);
    }

    // ---------- Requests ----------

    /** Gives the marker back after a failure. */
    method Release(key: string, code: Code, net: Net) returns (reply: Reply)
      modifies cache
      ensures reply == Refused(code)
      ensures cache.store == Released(old(cache.store), key, net)
    {
      cache.Delete(key, net(ClearMarker));
      return Refused(code);
    }

    /** Inserts the pending entry and the VA in one transaction; true when it rolled back. */
    method InsertTopup(call: TopupCall, fault: Option<FailPoint>) returns (failed: bool)
      requires call.amount > 0
      modifies this`wallet
      ensures failed <==> fault.Some? || TopupTx(old(wallet).tables, call) == None
      ensures wallet == if failed then old(wallet) else Apply(old(wallet), CreateTopup(call))
    {
      if fault == Some(AtBegin) { return true; }
      var tx := AppendEntry(wallet.tables,
                            Entry(call.entry, call.key, Topup, None, Some(call.user), call.amount, Pending, call.now));
      if tx == None { return true; }
      tx := InsertVA(tx.value, VA(call.number, call.user, call.amount, Active, Some(call.entry)));
      if tx == None || fault.Some? { return true; }
      wallet := wallet.(tables := tx.value);
      return false;
    }

    method RequestTopup(user: User, req: TopupRequest, o: TopupOracle) returns (reply: Reply)
      modifies this`wallet, cache
      ensures ValidateTopup(req).Some? ==>
                reply == Refused(ValidateTopup(req).value) && wallet == old(wallet) && cache.store == old(cache.store)
      ensures ValidateTopup(req) == None && Admit(old(cache.store), req.key, CachedSuffix, o.net).Some? ==>
                && reply == Admit(old(cache.store), req.key, CachedSuffix, o.net).value
                && wallet == old(wallet) && cache.store == StoreAcquired(old(cache.store), req.key, o.net)
      ensures ValidateTopup(req) == None && Admit(old(cache.store), req.key, CachedSuffix, o.net) == None ==>
                ToppedUp(old(wallet), wallet, old(cache.store)[req.key := InFlightMark], cache.store, user, req, o,
                         reply)
    {
      var invalid := ValidateTopup(req);
      if invalid.Some? {
        return Refused(invalid.value);
      }
      var refusal := cache.Acquire(req.key, CachedSuffix, o.net);
      if refusal.Some? {
        return refusal.value;
      }
      if o.kyc == None {
        reply := Release(req.key, Code.Internal, o.net);
        return;
      }
      if ExceedsBILimit(req.amount, o.kyc.value) {
        reply := Release(req.key, ExceedsTransactionLimit, o.net);
        return;
      }
      if o.number == None {
        reply := Release(req.key, Code.Internal, o.net);
        return;
      }
      var call := TopupCall(req.key, user, req.amount, o.number.value, o.entry, o.now);
      var failed := InsertTopup(call, o.fault);
      if failed {
        reply := Release(req.key, Code.Internal, o.net);
        return;
      }
      var body := TopupBody(call.entry, call.number, call.amount);
      cache.CacheResult(req.key, CachedSuffix, body, o.net);
      return Fresh(body);
    }

    /** Debits the balance and inserts the pending entry and the record in one transaction. */
    method Reserve(call: WithdrawCall, fault: Option<FailPoint>) returns (code: Option<Code>)
      requires call.amount > 0
      modifies this`wallet
      ensures code == ReserveCode(old(wallet).tables, call, fault)
      ensures wallet == if code.Some? then old(wallet) else Apply(old(wallet), ReserveFunds(call))
    {
      if fault == Some(AtBegin) || fault == Some(AtStatement(0)) { return Some(Code.Internal); }
      var balance := Balance(wallet.tables, call.user);
      var version := if call.user in wallet.tables.balances then wallet.tables.balances[call.user].version else 0;
      if balance < call.amount { return Some(InsufficientBalance); }
      var tx := UpsertBalance(wallet.tables, call.user, Wrap64(balance - call.amount), version);
      if tx == None { return Some(Code.Internal); }
      tx := AppendEntry(tx.value,
                        Entry(call.entry, call.key, Withdraw, Some(call.user), None, call.amount, Pending, call.now));
      if tx == None { return Some(Code.Internal); }
      tx := InsertWithdrawal(tx.value, call.record,
                             Withdrawal(call.key, call.user, call.amount, Pending, Some(call.entry)));
      if tx == None || fault.Some? { return Some(Code.Internal); }
      wallet := wallet.(tables := tx.value, awaiting := wallet.awaiting + {call.record});
      return None;
    }

    /**
     * Reserves, asks the bank while everybody else goes on, and commits, reverses or gives up.
     */
    method RequestWithdraw(user: User, req: WithdrawRequest, o: WithdrawOracle) returns (reply: Reply)
      requires forall i :: 0 <= i < |o.env| ==> NotForRequest(o.env[i], o.record)
      modifies this`wallet, cache
      ensures ValidateWithdraw(req).Some? ==>
                && reply == Refused(ValidateWithdraw(req).value)
                && wallet == old(wallet) && cache.store == old(cache.store)
      ensures ValidateWithdraw(req) == None && Admit(old(cache.store), req.key, WithdrawCachedSuffix, o.net).Some? ==>
                && reply == Admit(old(cache.store), req.key, WithdrawCachedSuffix, o.net).value
                && wallet == old(wallet) && cache.store == StoreAcquired(old(cache.store), req.key, o.net)
      ensures ValidateWithdraw(req) == None && Admit(old(cache.store), req.key, WithdrawCachedSuffix, o.net) == None ==>
                Withdrew(old(wallet), wallet, old(cache.store)[req.key := InFlightMark], cache.store, user, req, o,
                         reply)
    {
      var invalid := ValidateWithdraw(req);
      if invalid.Some? {
        return Refused(invalid.value);
      }
      var refusal := cache.Acquire(req.key, WithdrawCachedSuffix, o.net);
      if refusal.Some? {
        return refusal.value;
      }
      if o.kyc == None {
        reply := Release(req.key, Code.Internal, o.net);
        return;
      }
      if ExceedsBILimit(req.amount, o.kyc.value) {
        reply := Release(req.key, ExceedsTransactionLimit, o.net);
        return;
      }
      var call := WithdrawCallOf(user, req, o);
      var failed := Reserve(call, o.reserveFault);
      if failed.Some? {
        reply := Release(req.key, failed.value, o.net);
        return;
      }
      ReservedRow(wallet, o.env, call);
      wallet := Run(wallet, o.env);
      reply := Settle(user, req, o);
    }

    /** Commits, reverses or gives up, as the bank's answer calls for. */
    method Settle(user: User, req: WithdrawRequest, o: WithdrawOracle) returns (reply: Reply)
      requires o.record in wallet.tables.withdrawals && o.record in wallet.awaiting
      requires wallet.tables.withdrawals[o.record].user == user
      requires wallet.tables.withdrawals[o.record].amount == req.amount
      requires wallet.tables.withdrawals[o.record].entry == Some(o.entry)
      modifies this`wallet, cache
      ensures AfterBank(old(wallet), wallet, old(cache.store), cache.store, req, o, reply)
    {
      match o.answer {
        case BankError(code) =>
          var _ := ReverseWithdraw(user, req.amount, o.entry, o.record, code, o.finishFault);
          return Refused(code);
        case BankResult(true) =>
          var uncommitted := CommitWithdraw(o.entry, o.record, Request, o.finishFault);
          if uncommitted {
            reply := Release(req.key, Code.Internal, o.net);
            return;
          }
          var body := WithdrawBody(o.entry, req.amount);
          cache.CacheResult(req.key, WithdrawCachedSuffix, body, o.net);
          return Fresh(body);
        case _ =>
          wallet := wallet.(awaiting := wallet.awaiting - {o.record});
          reply := Release(req.key, Code.Internal, o.net);
      }
    }

    // ---------- Webhooks ----------

    /**
     * Commits the entry, credits the user and marks the VA paid, in one transaction; true when it rolled back. A VA
     * without a log id, on which the code would fail later, cannot be met: WalletHistory.VAFollowsEntry.
     */
    method CommitVA(va: VA, fault: Option<FailPoint>) returns (failed: bool)
      requires va in wallet.delivered
      modifies this`wallet
      ensures failed <==> fault.Some? || WebhookTx(old(wallet).tables, va) == None
      ensures wallet == if failed then old(wallet) else Apply(old(wallet), CommitWebhook(va))
    {
      if fault == Some(AtBegin) || va.entry == None { return true; }
      var tx := CommitTxLog(wallet.tables, va.entry.value);
      if tx == None { return true; }
      tx := ApplyCredit(tx.value, va.user, va.amount);
      if tx == None { return true; }
      tx := MarkVAPaid(tx.value, va.number, va.entry.value);
      if tx == None || fault.Some? { return true; }
      wallet := wallet.(tables := tx.value);
      return false;
    }

    /** Reads the VA outside the transaction, and then commits its entry and credits the row that was read. */
    method ProcessWebhook(number: string, lookupFails: bool, env: seq<Step>, fault: Option<FailPoint>)
      returns (refusal: Option<Code>)
      modifies this`wallet
      ensures refusal == WebhookCode(old(wallet), number, lookupFails, env, fault)
      ensures wallet == Run(old(wallet), WebhookSteps(old(wallet), number, lookupFails, env, fault))
    {
      if lookupFails { return Some(Code.Internal); }
      if number !in wallet.tables.vas { return Some(Code.InvalidVA); }
      var va := wallet.tables.vas[number];
      if va.status != Active { return Some(DuplicateRequest); }
      RunWebhook(wallet, number, va, env);
      wallet := wallet.(delivered := wallet.delivered + {va});
      wallet := Run(wallet, env);
      var failed := CommitVA(va, fault);
      return if failed then Some(Code.Internal) else None;
    }

    /** found is the record the lookup by key returns; several records may share a key. */
    method ProcessWithdrawCallback(found: Option<Id>, lookupFails: bool, env: seq<Step>, fault: Option<FailPoint>)
      returns (refusal: Option<Code>)
      requires found.Some? ==> found.value in wallet.tables.withdrawals
      modifies this`wallet
      ensures refusal == CallbackCode(old(wallet), found, lookupFails, env, fault)
      ensures wallet == Run(old(wallet), CallbackSteps(old(wallet), found, lookupFails, env, fault))
    {
      if lookupFails { return Some(Code.Internal); }
      if found == None { return Some(Code.UserNotFound); }
      var record := found.value;
      var w := wallet.tables.withdrawals[record];
      if w.status == Committed || w.status != Pending { return None; }
      if w.entry == None { return None; }
      RunCallback(wallet, record, env, Meets(Run(Apply(wallet, LookUpCallback(record)), env), record, fault));
      RunKeeps(Apply(wallet, LookUpCallback(record)), env, record);
      wallet := Run(wallet.(looked := wallet.looked + {record}), env);
      var failed := CommitWithdraw(w.entry.value, record, Callback, fault);
      return if failed then Some(Code.Internal) else None;
    }
  }

  /** Updating the record does not change what the finish transaction writes. */
  lemma FinishAfterRecord(t: Tables, record: Id, status: Status)
    requires record in t.withdrawals && TryFinish(t, record, status).Some?
    ensures var t' := UpdateWithdrawalStatus(t, record, status);
            && record in t'.withdrawals
            && TryFinish(t', record, status) == Some(TryFinish(t, record, status).value.(withdrawals := t'.withdrawals))
  {
  }
}
