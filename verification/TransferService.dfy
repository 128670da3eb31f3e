// The transfer endpoint: idempotency marker, retried database transaction, cached result.
module TransferService {
  import opened Wrappers
  import opened Money
  import opened Fees
  import opened Ledger
  import opened Tables
  import opened Transactions
  import opened WalletSystem
  import opened Errors
  import opened Saga
  import opened Idempotency

  datatype TransferRequest = TransferRequest(key: string, toPhone: string, amount: Sen, promoCode: string)

  const MinTransferSen: Sen := 1000

  // ---------- One attempt ----------

  function RefusalError(r: Refusal): Error {
    match r
    case NotFound => Error(Some(UserNotFound), None, "USER_NOT_FOUND: Pengguna tidak ditemukan")
    case SelfTransfer => Error(Some(Code.SelfTransfer), None, "SELF_TRANSFER: Tidak bisa transfer ke diri sendiri")
    case BadAmount => Error(Some(Code.InvalidAmount), None, "INVALID_AMOUNT: Jumlah tidak valid")
    case Insufficient => Error(Some(InsufficientBalance), None, "INSUFFICIENT_BALANCE: Saldo tidak cukup")
    case RowConflict => Error(None, None, "optimistic lock failure or duplicate key")
  }

  /** The outcome of one database transaction; fault is the error of the statement that failed, if one did. */
  function Outcome(t: Tables, call: TransferCall, cfg: Config, fault: Option<Error>): Result<Done, Error> {
    match fault
    case Some(e) => Err(e)
    case None =>
      match TransferTx(t, call, cfg)
      case Ok(done) => Ok(done)
      case Err(r) => Err(RefusalError(r))
  }

  // ---------- The retried operation ----------

  /**
   * What the world contributes to attempt i: the steps of everybody else before it, the error of the
   * statement that fails, if any, and what the lookups, the clock, the id generator and the discount
   * computation return.
   */
  datatype Draw = Draw(env: seq<Step>, fault: Option<Error>, receiver: Option<User>, kyc: KYCLevel,
                       discount: Discount, entry: Id, feeEntry: Id, now: int)

  function CallOf(sender: User, req: TransferRequest, promo: Option<PromoConfig>, warned: bool, d: Draw): TransferCall {
    TransferCall(req.key, sender, d.receiver, req.amount, d.kyc, promo, req.promoCode, warned, d.discount,
                 d.entry, d.feeEntry, d.now)
  }

  /** What the retried operation works on: the wallet, the result it assigns, and the cache. */
  datatype Progress = Progress(wallet: System, receipt: Option<Receipt>, store: Store)

  function Try(p: Progress, call: TransferCall, d: Draw): Tried<Progress> {
    var w := Run(p.wallet, d.env);
    match Outcome(w.tables, call, w.cfg, d.fault)
    case Ok(done) => Tried(p.(wallet := w.(tables := done.tables), receipt := Some(done.receipt)), None)
    case Err(e) => Tried(p.(wallet := w), Some(e))
  }

  function Operation(sender: User, req: TransferRequest, promo: Option<PromoConfig>, warned: bool, draws: nat -> Draw)
    : (op: (Progress, nat) -> Tried<Progress>)
    ensures forall p, i :: op(p, i) == Try(p, CallOf(sender, req, promo, warned, draws(i)), draws(i))
  {
    (p: Progress, i: nat) => Try(p, CallOf(sender, req, promo, warned, draws(i)), draws(i))
  }

  /** Everybody else's steps before and between the first n attempts. */
  function Interference(draws: nat -> Draw, n: nat): seq<Step> {
    if n == 0 then [] else Interference(draws, n - 1) + draws(n - 1).env
  }

  ghost predicate AllFail<S>(op: (S, nat) -> Tried<S>, p: S, n: nat) {
    forall i: nat :: i < n ==> ErrorOf(op, p, i).Some?
  }

  /** A failing call leaves nothing but everybody else's steps before it. */
  ghost predicate FailsQuietly(op: (Progress, nat) -> Tried<Progress>, draws: nat -> Draw) {
    forall p: Progress, i: nat :: op(p, i).error.Some? ==> op(p, i).state == p.(wallet := Run(p.wallet, draws(i).env))
  }

  lemma {:induction false} FailedAttempts(op: (Progress, nat) -> Tried<Progress>, draws: nat -> Draw, p: Progress,
                                          n: nat)
    requires FailsQuietly(op, draws) && AllFail(op, p, n)
    ensures After(op, p, n) == p.(wallet := Run(p.wallet, Interference(draws, n)))
  {
    if n > 0 {
      FailedAttempts(op, draws, p, n - 1);
      assert ErrorOf(op, p, n - 1).Some?;
      RunConcat(p.wallet, Interference(draws, n - 1), draws(n - 1).env);
    }
  }

  // ---------- The service ----------

  /** The code in the error of a refusal, or the one that stands for every error without a code. */
  function CodeOf(e: Error): Code {
    if e.domain.Some? then e.domain.value else SerializationConflict
  }

  function Validate(req: TransferRequest): Option<Code> {
    if req.key == "" || req.toPhone == "" then Some(MissingField)
    else if req.amount <= 0 then Some(Code.InvalidAmount)
    else if req.amount < MinTransferSen then Some(AmountBelowMinimum)
    else None
  }

  /** The promo code was refused before the first attempt. */
  function Warned(req: TransferRequest, promo: Option<PromoConfig>, now: int): bool {
    req.promoCode != "" && promo.Some? && ApplyPromoCode(promo.value, req.promoCode, 0, now, 0).warned
  }

  function Compensate(key: string, net: Net): (f: Progress -> Progress)
    ensures forall p ::
              f(p) == p.(store := ClearKeys(p.store, key, Drops(net, CompensateMarker), Drops(net, CompensateData)))
  {
    (p: Progress) => p.(store := ClearKeys(p.store, key, Drops(net, CompensateMarker), Drops(net, CompensateData)))
  }

  /** The first statement of a transaction that fails, and its error. */
  datatype Fault = Fault(at: nat, error: Error)

  predicate FailsAt(fault: Option<Fault>, i: nat) {
    fault.Some? && fault.value.at == i
  }

  /** What the checks before the first UPDATE come to. */
  function PlanFor(t: Tables, call: TransferCall, cfg: Config): (r: Result<Plan, Error>)
    ensures r.Ok? ==> call.receiver.Some? && call.receiver.value != call.sender
  {
    if call.receiver == None then Err(RefusalError(NotFound))
    else if call.receiver.value == call.sender then Err(RefusalError(Refusal.SelfTransfer))
    else OrRefused(PlanTransfer(call, cfg, Balance(t, call.sender), Balance(t, call.receiver.value)))
  }

  function OrRefused(r: Result<Plan, Refusal>): Result<Plan, Error> {
    match r
    case Ok(plan) => Ok(plan)
    case Err(e) => Err(RefusalError(e))
  }

  function OrConflict(t: Option<Tables>): Result<Tables, Error> {
    if t.Some? then Ok(t.value) else Err(RefusalError(RowConflict))
  }

  /**
   * What one request meets: unanswered Redis commands, the clock at the promo check, every attempt's draw,
   * cancellations.
   */
  datatype Oracle = Oracle(net: Net, now: int, draws: nat -> Draw, cancel: nat -> Option<nat>)

  /** The retried attempts of a request that has the marker. */
  function Execution(maxRetries: int, backoff: nat, promo: Option<PromoConfig>, wallet: System, store: Store,
                     sender: User, req: TransferRequest, o: Oracle): Report<Progress> {
    Retry(Operation(sender, req, promo, Warned(req, promo, o.now), o.draws), o.cancel, Compensate(req.key, o.net),
          maxRetries, backoff, Progress(wallet, None, store[req.key := InFlightMark]), 0, 0)
  }

  const NoReceipt := Receipt(0, 0, 0, 0, 0)

  function ReceiptOf(r: Report<Progress>): Receipt {
    if r.state.receipt.Some? then r.state.receipt.value else NoReceipt
  }

  function ReplyTo(r: Report<Progress>): Reply {
    if r.error.Some? then Refused(CodeOf(r.error.value)) else Fresh(TransferBody(ReceiptOf(r)))
  }

  function StoreAfter(r: Report<Progress>, key: string, net: Net): Store {
    match r.error
    case None =>
      CacheKeys(r.state.store, key, CachedSuffix, TransferBody(ReceiptOf(r)),
                Drops(net, SetStatus), Drops(net, SetData))
    case Some(e) =>
      if e.domain.Some? then ClearKeys(r.state.store, key, Drops(net, ClearMarker), Drops(net, ClearData))
      else r.state.store
  }

  class Service {
    var wallet: System
    const cache: RedisCache
    const saga: SagaCoordinator
    const promo: Option<PromoConfig>

    constructor (wallet: System, cache: RedisCache, saga: SagaCoordinator, promo: Option<PromoConfig>)
      ensures this.wallet == wallet && this.cache == cache && this.saga == saga && this.promo == promo
    {
      this.wallet, this.cache, this.saga, this.promo := wallet, cache, saga, promo;
    }

    /** SELECT ... FOR UPDATE, inserting a missing row. */
    method GetBalanceForUpdate(tx: Tables, user: User) returns (tx': Tables, snap: Snapshot)
      ensures tx' == SeedBalance(tx, user) && user in tx'.balances && snap == tx'.balances[user]
    {
      tx' := tx;
      if user !in tx.balances {
        tx' := SeedBalance(tx, user);
      }
      snap := tx'.balances[user];
    }

    /** The core check, the fee and the new balances. */
    method PlanInTx(call: TransferCall, from: Sen, to: Sen, fault: Option<Fault>)
      returns (r: Result<Plan, Error>, ghost hit: bool)
      ensures hit ==> fault.Some? && r == Err(fault.value.error)
      ensures !hit ==> r == OrRefused(PlanTransfer(call, wallet.cfg, from, to))
      ensures r.Ok? ==> !FailsAt(fault, 5)
    {
      hit := false;
      if call.amount <= 0 {
        return Err(RefusalError(BadAmount)), false;
      }
      if from < call.amount {
        return Err(RefusalError(Insufficient)), false;
      }
      if FailsAt(fault, 5) { return Err(fault.value.error), true; }
      var quote := QuoteFee(call, wallet.cfg);
      var totalDebit := Wrap64(call.amount + quote.fee);
      if from < totalDebit {
        return Err(RefusalError(Insufficient)), false;
      }
      r := Ok(Plan(quote, Wrap64(from - totalDebit), Wrap64(to + call.amount)));
    }

    /** Lookups, row locks and checks. The statements are numbered in the order they run. */
    method Prepare(call: TransferCall, fault: Option<Fault>)
      returns (r: Result<Plan, Error>, tx: Tables, fromVersion: nat, toVersion: nat, ghost hit: bool)
      ensures hit ==> fault.Some? && r == Err(fault.value.error)
      ensures !hit ==> r == PlanFor(wallet.tables, call, wallet.cfg)
      ensures r.Ok? ==> fault == None || fault.value.at > 5
      ensures r.Ok? ==>
                && tx == SeedBalance(SeedBalance(wallet.tables, call.sender), call.receiver.value)
                && fromVersion == tx.balances[call.sender].version
                && toVersion == tx.balances[call.receiver.value].version
    {
      hit, tx, fromVersion, toVersion := false, wallet.tables, 0, 0;
      if FailsAt(fault, 0) { r, hit := Err(fault.value.error), true; return; }
      if FailsAt(fault, 1) { r, hit := Err(fault.value.error), true; return; }
      if FailsAt(fault, 2) { r, hit := Err(fault.value.error), true; return; }
      if call.receiver == None {
        r := Err(RefusalError(NotFound));
        return;
      }
      var receiver := call.receiver.value;
      if receiver == call.sender {
        r := Err(RefusalError(Refusal.SelfTransfer));
        return;
      }
      if FailsAt(fault, 3) { r, hit := Err(fault.value.error), true; return; }
      var senderBalance, receiverBalance;
      tx, senderBalance := GetBalanceForUpdate(tx, call.sender);
      if FailsAt(fault, 4) { r, hit := Err(fault.value.error), true; return; }
      tx, receiverBalance := GetBalanceForUpdate(tx, receiver);
      fromVersion, toVersion := senderBalance.version, receiverBalance.version;
      r, hit := PlanInTx(call, senderBalance.balance, receiverBalance.balance, fault);
    }

    /** The two UPDATEs under the versions that were read; no matching row is an error. */
    method UpdateBalances(tx: Tables, call: TransferCall, plan: Plan, fromVersion: nat, toVersion: nat,
                          fault: Option<Fault>)
      returns (r: Result<Tables, Error>, ghost hit: bool)
      requires call.receiver.Some?
      ensures hit ==> fault.Some? && r == Err(fault.value.error)
      ensures !hit ==>
                var debited := UpdateBalance(tx, call.sender, plan.newFrom, fromVersion);
                r == if debited == None then Err(RefusalError(RowConflict))
                     else OrConflict(UpdateBalance(debited.value, call.receiver.value, plan.newTo, toVersion))
      ensures r.Ok? ==> !FailsAt(fault, 6) && !FailsAt(fault, 7)
    {
      hit := false;
      if FailsAt(fault, 6) { return Err(fault.value.error), true; }
      var debited := UpdateBalance(tx, call.sender, plan.newFrom, fromVersion);
      if debited == None {
        return Err(RefusalError(RowConflict)), false;
      }
      if FailsAt(fault, 7) { return Err(fault.value.error), true; }
      r := OrConflict(UpdateBalance(debited.value, call.receiver.value, plan.newTo, toVersion));
    }

    /** The transfer entry, and the fee entry when a fee is due or a promo code was applied. */
    method AppendTx(tx: Tables, call: TransferCall, quote: Quote, fault: Option<Fault>)
      returns (r: Result<Tables, Error>, ghost hit: bool)
      ensures hit ==> fault.Some? && r == Err(fault.value.error)
      ensures !hit ==> r == OrConflict(AppendTransfer(tx, call, quote))
      ensures r.Ok? ==> !FailsAt(fault, 8) && (quote.fee > 0 || quote.applied ==> !FailsAt(fault, 9))
    {
      hit := false;
      if FailsAt(fault, 8) { return Err(fault.value.error), true; }
      var appended := AppendEntry(tx, TransferEntry(call));
      if appended == None {
        return Err(RefusalError(RowConflict)), false;
      }
      if quote.fee > 0 || quote.applied {
        if FailsAt(fault, 9) { return Err(fault.value.error), true; }
        appended := AppendEntry(appended.value, FeeEntry(call, quote.fee));
      }
      r := OrConflict(appended);
    }

    /** One database transaction: it commits the whole transfer or leaves the database as it was. */
    method ExecuteTransfer(call: TransferCall, fault: Option<Fault>)
      returns (r: Result<Receipt, Error>, ghost hit: bool)
      modifies this`wallet
      ensures hit ==> fault.Some?
      ensures fault.Some? && fault.value.at <= 10 ==> r.Err?
      ensures match Outcome(old(wallet).tables, call, old(wallet).cfg, if hit then Some(fault.value.error) else None)
              case Ok(done) => wallet == old(wallet).(tables := done.tables) && r == Ok(done.receipt)
              case Err(e) => wallet == old(wallet) && r == Err(e)
    {
      var plan, tx, fromVersion, toVersion;
      plan, tx, fromVersion, toVersion, hit := Prepare(call, fault);
      if plan.Err? {
        return Err(plan.error), hit;
      }
      var updated;
      updated, hit := UpdateBalances(tx, call, plan.value, fromVersion, toVersion, fault);
      if updated.Err? {
        return Err(updated.error), hit;
      }
      var appended;
      appended, hit := AppendTx(updated.value, call, plan.value.quote, fault);
      if appended.Err? {
        return Err(appended.error), hit;
      }
      if FailsAt(fault, 10) {
        return Err(fault.value.error), true;
      }
      wallet := wallet.(tables := appended.value);
      r := Ok(Receipt(call.entry, call.amount, plan.value.quote.fee, plan.value.newFrom, plan.value.newTo));
    }

    /**
     * Validates, consults and acquires the idempotency marker, runs the retried attempts, and then caches the
     * result or clears the marker. An error without a code leaves the marker in place.
     */
    method Transfer(sender: User, req: TransferRequest, o: Oracle) returns (reply: Reply)
      modifies this`wallet, cache
      ensures Validate(req).Some? ==>
                reply == Refused(Validate(req).value) && wallet == old(wallet) && cache.store == old(cache.store)
      ensures Validate(req) == None && Admit(old(cache.store), req.key, CachedSuffix, o.net).Some? ==>
                && reply == Admit(old(cache.store), req.key, CachedSuffix, o.net).value
                && wallet == old(wallet) && cache.store == StoreAcquired(old(cache.store), req.key, o.net)
      ensures Validate(req) == None && Admit(old(cache.store), req.key, CachedSuffix, o.net) == None ==>
                var r := Execution(saga.maxRetries, saga.backoff, promo, old(wallet), old(cache.store), sender, req, o);
                && wallet == r.state.wallet
                && reply == ReplyTo(r)
                && cache.store == StoreAfter(r, req.key, o.net)
    {
      var invalid := Validate(req);
      if invalid.Some? {
        return Refused(invalid.value);
      }
      var refusal := cache.Acquire(req.key, CachedSuffix, o.net);
      if refusal.Some? {
        return refusal.value;
      }
      var warned := Warned(req, promo, o.now);
      var r := saga.Execute(Progress(wallet, None, cache.store), Operation(sender, req, promo, warned, o.draws),
                            o.cancel, Compensate(req.key, o.net));
      wallet, cache.store := r.state.wallet, r.state.store;
      if r.error.Some? {
        if r.error.value.domain.Some? {
          cache.Delete(req.key, o.net(ClearMarker));
          cache.Delete(req.key + CachedSuffix, o.net(ClearData));
        }
        return Refused(CodeOf(r.error.value));
      }
      cache.CacheResult(req.key, CachedSuffix, TransferBody(ReceiptOf(r)), o.net);
      return Fresh(TransferBody(ReceiptOf(r)));
    }
  }

  // ---------- A retried transfer is one transfer or none ----------

  /** The one attempt that took effect, on the wallet as everybody else had left it by then. */
  ghost predicate TookEffect(w: System, call: TransferCall, p: Progress) {
    && p.receipt.Some?
    && TransferTx(w.tables, call, w.cfg) == Ok(Done(p.wallet.tables, p.receipt.value))
    && p.wallet == w.(tables := p.wallet.tables)
  }

  /** Success means that the last attempt alone took effect, and an error that none did. */
  ghost predicate OneOrNone(r: Report<Progress>, wallet: System, sender: User, req: TransferRequest,
                            promo: Option<PromoConfig>, warned: bool, draws: nat -> Draw) {
    match r.error
    case None =>
      && r.calls > 0
      && TookEffect(Run(wallet, Interference(draws, r.calls)),
                    CallOf(sender, req, promo, warned, draws(r.calls - 1)), r.state)
    case Some(_) => r.state.receipt == None && r.state.wallet == Run(wallet, Interference(draws, r.calls))
  }

  /** Through any pattern of transient, permanent and successful attempts, with everybody else's steps in between. */
  lemma OneAttemptTakesEffect(maxRetries: int, backoff: nat, promo: Option<PromoConfig>, wallet: System, store: Store,
                              sender: User, req: TransferRequest, o: Oracle)
    ensures var r := Execution(maxRetries, backoff, promo, wallet, store, sender, req, o);
            && r.calls <= AsNat(maxRetries)
            && OneOrNone(r, wallet, sender, req, promo, Warned(req, promo, o.now), o.draws)
  {
    var warned := Warned(req, promo, o.now);
    OperationFailsQuietly(sender, req, promo, warned, o.draws);
    OperationTakesEffect(sender, req, promo, warned, o.draws);
    RetryOneOrNone(Operation(sender, req, promo, warned, o.draws), o.cancel, Compensate(req.key, o.net),
                   maxRetries, backoff, Progress(wallet, None, store[req.key := InFlightMark]),
                   sender, req, promo, warned, o.draws);
  }

  /** A call that succeeds is a transfer on what everybody else has left by then. */
  ghost predicate TakesEffect(op: (Progress, nat) -> Tried<Progress>, sender: User, req: TransferRequest,
                              promo: Option<PromoConfig>, warned: bool, draws: nat -> Draw) {
    forall p: Progress, i: nat :: op(p, i).error == None ==>
      TookEffect(Run(p.wallet, draws(i).env), CallOf(sender, req, promo, warned, draws(i)), op(p, i).state)
  }

  lemma OperationTakesEffect(sender: User, req: TransferRequest, promo: Option<PromoConfig>, warned: bool,
                             draws: nat -> Draw)
    ensures TakesEffect(Operation(sender, req, promo, warned, draws), sender, req, promo, warned, draws)
  {
    var op := Operation(sender, req, promo, warned, draws);
    forall p: Progress, i: nat | op(p, i).error == None
      ensures TookEffect(Run(p.wallet, draws(i).env), CallOf(sender, req, promo, warned, draws(i)), op(p, i).state)
    {
      TrySucceeds(p, CallOf(sender, req, promo, warned, draws(i)), draws(i));
    }
  }

  lemma RetryOneOrNone(op: (Progress, nat) -> Tried<Progress>, cancel: nat -> Option<nat>,
                       compensate: Progress -> Progress, maxRetries: int, backoff: nat, start: Progress,
                       sender: User, req: TransferRequest, promo: Option<PromoConfig>, warned: bool, draws: nat -> Draw)
    requires FailsQuietly(op, draws) && TakesEffect(op, sender, req, promo, warned, draws) && start.receipt == None
    requires forall p :: compensate(p) == p.(store := compensate(p).store)
    ensures var r := Retry(op, cancel, compensate, maxRetries, backoff, start, 0, 0);
            r.calls <= AsNat(maxRetries) && OneOrNone(r, start.wallet, sender, req, promo, warned, draws)
  {
    var r := Retry(op, cancel, compensate, maxRetries, backoff, start, 0, 0);
    RetryOutcome(op, cancel, compensate, maxRetries, backoff, start);
    ReportEnded(op, cancel, compensate, maxRetries, start, r);
    EndedOneOrNone(op, compensate, start, r, sender, req, promo, warned, draws);
  }

  lemma EndedOneOrNone(op: (Progress, nat) -> Tried<Progress>, compensate: Progress -> Progress, start: Progress,
                       r: Report<Progress>, sender: User, req: TransferRequest, promo: Option<PromoConfig>,
                       warned: bool, draws: nat -> Draw)
    requires FailsQuietly(op, draws) && TakesEffect(op, sender, req, promo, warned, draws) && start.receipt == None
    requires Ended(op, compensate, start, r) && forall p :: compensate(p) == p.(store := compensate(p).store)
    ensures OneOrNone(r, start.wallet, sender, req, promo, warned, draws)
  {
    if r.error == None {
      LastAttempt(op, compensate, draws, start, r);
      RunConcat(start.wallet, Interference(draws, r.calls - 1), draws(r.calls - 1).env);
    } else {
      ErrorLeaves(op, compensate, draws, start, r);
    }
  }

  lemma OperationFailsQuietly(sender: User, req: TransferRequest, promo: Option<PromoConfig>, warned: bool,
                              draws: nat -> Draw)
    ensures FailsQuietly(Operation(sender, req, promo, warned, draws), draws)
  {
  }

  lemma ErrorLeaves(op: (Progress, nat) -> Tried<Progress>, compensate: Progress -> Progress, draws: nat -> Draw,
                    p: Progress, r: Report<Progress>)
    requires FailsQuietly(op, draws) && forall p :: compensate(p) == p.(store := compensate(p).store)
    requires Ended(op, compensate, p, r) && r.error.Some?
    ensures r.state.receipt == p.receipt && r.state.wallet == Run(p.wallet, Interference(draws, r.calls))
  {
    FailedAttempts(op, draws, p, r.calls);
  }

  lemma LastAttempt(op: (Progress, nat) -> Tried<Progress>, compensate: Progress -> Progress, draws: nat -> Draw,
                    p: Progress, r: Report<Progress>)
    requires FailsQuietly(op, draws) && Ended(op, compensate, p, r) && r.error == None
    ensures r.calls > 0
    ensures var tried := op(p.(wallet := Run(p.wallet, Interference(draws, r.calls - 1))), r.calls - 1);
            tried.error == None && tried.state == r.state
  {
    FailedAttempts(op, draws, p, r.calls - 1);
  }

  lemma TrySucceeds(p: Progress, call: TransferCall, d: Draw)
    requires Try(p, call, d).error == None
    ensures TookEffect(Run(p.wallet, d.env), call, Try(p, call, d).state)
  {
  }

  /** The calls before a success failed, and with an error all of them; compensation may follow an error only. */
  ghost predicate Ended<S>(op: (S, nat) -> Tried<S>, compensate: S -> S, start: S, r: Report<S>) {
    match r.error
    case None =>
      && r.calls > 0 && AllFail(op, start, r.calls - 1) && ErrorOf(op, start, r.calls - 1) == None
      && r.state == After(op, start, r.calls)
    case Some(_) =>
      && AllFail(op, start, r.calls)
      && (r.state == After(op, start, r.calls) || r.state == compensate(After(op, start, r.calls)))
  }

  lemma ReportEnded<S>(op: (S, nat) -> Tried<S>, cancel: nat -> Option<nat>, compensate: S -> S,
                       maxRetries: int, start: S, r: Report<S>)
    requires Accounted(op, cancel, compensate, maxRetries, start, r)
    ensures Ended(op, compensate, start, r)
  {
    assert forall i: nat :: Retryable(op, start, i) ==> ErrorOf(op, start, i).Some?;
  }
}
