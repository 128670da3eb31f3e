// When a transfer goes through, what it leaves behind, and what the caller is told, in terms of the tables and the
// request alone.
module TransferOutcome {
  import opened Wrappers
  import opened Money
  import opened Fees
  import opened Ledger
  import opened Tables
  import opened Transactions
  import opened TransactionEffects
  import opened WalletSystem
  import opened Errors
  import opened Idempotency
  import opened Saga
  import T = TransferService

  // ---------- One transaction ----------

  /** No entry has this id. */
  ghost predicate Free(log: seq<Entry>, id: Id) {
    forall e :: e in log ==> e.id != id
  }

  lemma FreeRow(log: seq<Entry>, id: Id)
    ensures Row(log, id) == None <==> Free(log, id)
  {
    if Row(log, id) == None {
      forall e | e in log ensures e.id != id {
        var i :| 0 <= i < |log| && log[i] == e;
      }
    }
  }

  /** The checks of the plan, one by one. */
  lemma PlanDecides(c: TransferCall, cfg: Config, from: Sen, to: Sen)
    ensures var r := PlanTransfer(c, cfg, from, to);
            && (r == Err(BadAmount) <==> c.amount <= 0)
            && (r == Err(Insufficient) <==>
                  c.amount > 0 && (from < c.amount || from < Wrap64(c.amount + QuoteFee(c, cfg).fee)))
            && (r.Ok? <==> c.amount > 0 && from >= c.amount && from >= Wrap64(c.amount + QuoteFee(c, cfg).fee))
            && (r.Ok? ==> r.value.quote == QuoteFee(c, cfg))
  {
  }

  /** The entries go in exactly when both ids are free; a transfer always has both entries. */
  lemma AppendDecides(t: Tables, c: TransferCall, q: Quote)
    requires q.fee > 0 || q.applied
    ensures AppendTransfer(t, c, q).Some? <==> Free(t.log, c.entry) && Free(t.log, c.feeEntry) && c.entry != c.feeEntry
  {
    FreeRow(t.log, c.entry);
    FreeRow(t.log + [TransferEntry(c)], c.feeEntry);
    assert TransferEntry(c) in t.log + [TransferEntry(c)];
    assert Free(t.log + [TransferEntry(c)], c.feeEntry) <==> Free(t.log, c.feeEntry) && c.entry != c.feeEntry;
  }

  /** Which outcome a transfer has, when it gets as far as the plan. */
  lemma PlannedOutcome(t: Tables, c: TransferCall, cfg: Config)
    requires c.receiver.Some? && c.receiver.value != c.sender
    ensures var r := TransferTx(t, c, cfg);
            var plan := PlanTransfer(c, cfg, Balance(t, c.sender), Balance(t, c.receiver.value));
            && (plan.Err? ==> r == Err(plan.error))
            && (plan.Ok? ==> MoveBalances(t, c.sender, c.receiver.value, plan.value.newFrom, plan.value.newTo).Some?)
            && (plan.Ok? ==>
                  var t1 := MoveBalances(t, c.sender, c.receiver.value, plan.value.newFrom, plan.value.newTo).value;
                  && t1.log == t.log
                  && (r.Ok? <==> AppendTransfer(t1, c, plan.value.quote).Some?)
                  && (r.Err? ==> r == Err(RowConflict)))
  {
    var plan := PlanTransfer(c, cfg, Balance(t, c.sender), Balance(t, c.receiver.value));
    if plan.Ok? {
      MoveBalancesEffect(t, c.sender, c.receiver.value, plan.value.newFrom, plan.value.newTo);
    }
  }

  /**
   * A transfer commits if and only if the receiver is found and is somebody else, the amount is positive, the sender's
   * balance covers the amount and covers amount and fee together, and both new ids are free. Every other transfer is
   * refused, for the first of these reasons that applies.
   */
  lemma TransferDecided(t: Tables, c: TransferCall, cfg: Config)
    ensures var r := TransferTx(t, c, cfg);
            var other := c.receiver.Some? && c.receiver.value != c.sender;
            var covered := c.amount > 0 && Balance(t, c.sender) >= c.amount
                           && Balance(t, c.sender) >= Wrap64(c.amount + QuoteFee(c, cfg).fee);
            var free := Free(t.log, c.entry) && Free(t.log, c.feeEntry) && c.entry != c.feeEntry;
            && (r.Ok? <==> other && covered && free)
            && (r == Err(NotFound) <==> c.receiver == None)
            && (r == Err(Refusal.SelfTransfer) <==> c.receiver == Some(c.sender))
            && (r == Err(BadAmount) <==> other && c.amount <= 0)
            && (r == Err(Insufficient) <==> other && c.amount > 0 && !covered)
            && (r == Err(RowConflict) <==> other && covered && !free)
  {
    if c.receiver.Some? && c.receiver.value != c.sender {
      PlannedOutcome(t, c, cfg);
      PlanDecides(c, cfg, Balance(t, c.sender), Balance(t, c.receiver.value));
      var plan := PlanTransfer(c, cfg, Balance(t, c.sender), Balance(t, c.receiver.value));
      if plan.Ok? {
        var t1 := MoveBalances(t, c.sender, c.receiver.value, plan.value.newFrom, plan.value.newTo).value;
        AppendDecides(t1, c, plan.value.quote);
      }
    }
  }

  /** Who pays and who receives. */
  lemma TransferPays(t: Tables, c: TransferCall, cfg: Config)
    requires TransferTx(t, c, cfg).Ok?
    ensures c.receiver.Some? && c.receiver.value != c.sender && c.amount > 0
    ensures var t', fee := TransferTx(t, c, cfg).value.tables, QuoteFee(c, cfg).fee;
            && Balance(t', c.sender) == Wrap64(Balance(t, c.sender) - (c.amount + fee))
            && Balance(t', c.receiver.value) == Wrap64(Balance(t, c.receiver.value) + c.amount)
            && (forall u :: u != c.sender && u != c.receiver.value ==> Balance(t', u) == Balance(t, u))
  {
    TransferBalances(t, c, cfg);
    PaysOf(t, TransferTx(t, c, cfg).value.tables, c.sender, c.receiver.value, c.amount + QuoteFee(c, cfg).fee);
  }

  lemma PaysOf(t: Tables, t': Tables, from: User, to: User, debit: int)
    requires Balance(t', from) == Wrap64(Balance(t, from) - Wrap64(debit))
    requires forall u :: u != from && u != to ==> SameSnapshot(t, t', u)
    ensures Balance(t', from) == Wrap64(Balance(t, from) - debit)
    ensures forall u :: u != from && u != to ==> Balance(t', u) == Balance(t, u)
  {
    WrapSub(Balance(t, from), debit);
    forall u | u != from && u != to ensures Balance(t', u) == Balance(t, u) {
      assert SameSnapshot(t, t', u);
    }
  }

  /** The two entries, field by field, the receipt, and everything else as it was. */
  lemma TransferRecords(t: Tables, c: TransferCall, cfg: Config)
    requires TransferTx(t, c, cfg).Ok?
    ensures var done, fee := TransferTx(t, c, cfg).value, QuoteFee(c, cfg).fee;
            && done.tables.log == t.log + [
                 Entry(c.entry, c.key, Transfer, Some(c.sender), c.receiver, c.amount, Committed, c.now),
                 Entry(c.feeEntry, c.key, Fee, Some(c.sender), None, fee, Committed, c.now)]
            && done.tables.vas == t.vas && done.tables.withdrawals == t.withdrawals
            && c.receiver.Some?
            && done.receipt == Receipt(c.entry, c.amount, fee, Balance(done.tables, c.sender),
                                       Balance(done.tables, c.receiver.value))
  {
    TransferRows(t, c, cfg);
    TransferBalances(t, c, cfg);
  }

  // ---------- The whole request ----------

  /** Attempts that end in transient faults, and are followed by a wait that is not cut short. */
  ghost predicate Stumbles(o: T.Oracle, n: nat) {
    forall i: nat :: i < n ==>
      && o.draws(i).fault.Some? && o.draws(i).fault.value.domain == None && IsTransient(o.draws(i).fault.value)
      && o.cancel(i) == None
  }

  /** What attempt n of a request works with. */
  function CallAt(sender: User, req: T.TransferRequest, promo: Option<PromoConfig>, o: T.Oracle, n: nat): TransferCall {
    T.CallOf(sender, req, promo, T.Warned(req, promo, o.now), o.draws(n))
  }

  function WalletAt(wallet: System, o: T.Oracle, n: nat): System {
    Run(wallet, T.Interference(o.draws, n + 1))
  }

  lemma {:induction false} StumblesRetried(op: (T.Progress, nat) -> Tried<T.Progress>, o: T.Oracle, start: T.Progress,
                                           sender: User, req: T.TransferRequest, promo: Option<PromoConfig>, n: nat)
    requires op == T.Operation(sender, req, promo, T.Warned(req, promo, o.now), o.draws) && Stumbles(o, n)
    ensures AllRetried(op, o.cancel, start, n) && T.AllFail(op, start, n)
  {
    forall i: nat | i < n ensures Retryable(op, start, i) && ErrorOf(op, start, i).Some? {
      FaultFails(After(op, start, i), CallAt(sender, req, promo, o, i), o.draws(i));
    }
  }

  lemma FaultFails(p: T.Progress, call: TransferCall, d: T.Draw)
    requires d.fault.Some?
    ensures T.Try(p, call, d).error == d.fault
  {
  }

  /** An attempt without a fault is the transaction on the wallet as it is by then. */
  lemma AttemptIs(p: T.Progress, call: TransferCall, d: T.Draw)
    requires d.fault == None
    ensures var w, tried := Run(p.wallet, d.env), T.Try(p, call, d);
            match TransferTx(w.tables, call, w.cfg)
            case Ok(done) =>
              && tried.error == None
              && tried.state == p.(wallet := w.(tables := done.tables), receipt := Some(done.receipt))
            case Err(refusal) => tried.error == Some(T.RefusalError(refusal)) && tried.state == p.(wallet := w)
  {
  }

  /** The report says what this result of the deciding transaction calls for. */
  predicate DecidedBy(r: Report<T.Progress>, result: Result<Done, Refusal>, w: System, marked: Store) {
    && r.state.store == marked
    && match result
       case Ok(done) =>
         r.error == None && r.state.receipt == Some(done.receipt) && r.state.wallet == w.(tables := done.tables)
       case Err(refusal) => r.error == Some(Error(T.RefusalError(refusal).domain, None, T.RefusalError(refusal).text))
                            && r.state.wallet == w
  }

  /** After attempts that only stumbled, the first one without a fault decides, whatever comes of it. */
  lemma DecidingAttempt(maxRetries: int, backoff: nat, promo: Option<PromoConfig>, wallet: System, store: Store,
                        sender: User, req: T.TransferRequest, o: T.Oracle, n: nat)
    requires n < maxRetries && Stumbles(o, n) && o.draws(n).fault == None
    ensures var w := WalletAt(wallet, o, n);
            DecidedBy(T.Execution(maxRetries, backoff, promo, wallet, store, sender, req, o),
                      TransferTx(w.tables, CallAt(sender, req, promo, o, n), w.cfg), w, store[req.key := InFlightMark])
  {
    var op := T.Operation(sender, req, promo, T.Warned(req, promo, o.now), o.draws);
    var start := T.Progress(wallet, None, store[req.key := InFlightMark]);
    StumblesRetried(op, o, start, sender, req, promo, n);
    T.OperationFailsQuietly(sender, req, promo, T.Warned(req, promo, o.now), o.draws);
    T.FailedAttempts(op, o.draws, start, n);
    RunConcat(wallet, T.Interference(o.draws, n), o.draws(n).env);
    assert op(After(op, start, n), n) == T.Try(After(op, start, n), CallAt(sender, req, promo, o, n), o.draws(n));
    AttemptDecides(op, o.cancel, T.Compensate(req.key, o.net), maxRetries, backoff, start, n,
                   CallAt(sender, req, promo, o, n), o.draws(n), WalletAt(wallet, o, n));
  }

  lemma AttemptDecides(op: (T.Progress, nat) -> Tried<T.Progress>, cancel: nat -> Option<nat>,
                       compensate: T.Progress -> T.Progress, maxRetries: int, backoff: nat, start: T.Progress, n: nat,
                       call: TransferCall, d: T.Draw, w: System)
    requires n < maxRetries && AllRetried(op, cancel, start, n) && (n > 0 ==> cancel(n - 1) == None)
    requires op(After(op, start, n), n) == T.Try(After(op, start, n), call, d) && d.fault == None
    requires Run(After(op, start, n).wallet, d.env) == w && After(op, start, n).store == start.store
    ensures DecidedBy(Retry(op, cancel, compensate, maxRetries, backoff, start, 0, 0),
                      TransferTx(w.tables, call, w.cfg), w, start.store)
  {
    AttemptIs(After(op, start, n), call, d);
    RefusalsArePlain();
    FirstConclusive(op, cancel, compensate, maxRetries, backoff, start, n);
  }

  /** No refusal is worth retrying, nor does it carry a database code. */
  lemma RefusalsArePlain()
    ensures forall r :: !IsTransient(T.RefusalError(r)) || T.RefusalError(r).domain.Some?
    ensures forall r :: T.RefusalError(r).sqlState == None
  {
    ConflictTextIsPlain();
  }

  lemma ConflictTextIsPlain()
    ensures !Contains(T.RefusalError(RowConflict).text, "connect")
    ensures !Contains(T.RefusalError(RowConflict).text, "connection")
  {
    var text := T.RefusalError(RowConflict).text;
    if Contains(text, "connection") {
      LongerMatches(text);
    }
    forall i | 0 <= i <= |text| ensures !MatchesAt(text, "connect", i) {
      if i + 7 <= |text| {
        assert text[i..i + 7][0] == text[i] && text[i..i + 7][1] == text[i + 1];
        assert text[i] == 'c' ==> text[i + 1] != 'o';
      }
    }
  }

  /**
   * Fresh, with the receipt, if and only if the transfer is covered and its ids are free; otherwise the refusal's
   * code.
   */
  ghost predicate RightReply(r: Report<T.Progress>, c: TransferCall, w: System) {
    var reply := T.ReplyTo(r);
    var other := c.receiver.Some? && c.receiver.value != c.sender;
    var covered := c.amount > 0 && Balance(w.tables, c.sender) >= c.amount
                   && Balance(w.tables, c.sender) >= Wrap64(c.amount + QuoteFee(c, w.cfg).fee);
    var free := Free(w.tables.log, c.entry) && Free(w.tables.log, c.feeEntry) && c.entry != c.feeEntry;
    && (reply.Fresh? <==> other && covered && free)
    && (reply.Fresh? ==>
          && reply.body.TransferBody?
          && TransferTx(w.tables, c, w.cfg) == Ok(Done(r.state.wallet.tables, reply.body.receipt)))
    && (reply.Refused? ==> r.state.wallet == w)
    && (c.receiver == None ==> reply == Refused(UserNotFound))
    && (c.receiver == Some(c.sender) ==> reply == Refused(Code.SelfTransfer))
    && (other && c.amount <= 0 ==> reply == Refused(Code.InvalidAmount))
    && (other && c.amount > 0 && !covered ==> reply == Refused(InsufficientBalance))
    && (other && covered && !free ==> reply == Refused(SerializationConflict))
  }

  lemma ReplyFollows(r: Report<T.Progress>, c: TransferCall, w: System, marked: Store)
    requires DecidedBy(r, TransferTx(w.tables, c, w.cfg), w, marked)
    ensures RightReply(r, c, w)
  {
    TransferDecided(w.tables, c, w.cfg);
  }

  /**
   * The reply to an admitted request whose earlier attempts only stumbled over transient faults: the wallet that
   * counts is the one that everybody else has left by the first attempt without a fault.
   */
  lemma TransferReply(maxRetries: int, backoff: nat, promo: Option<PromoConfig>, wallet: System, store: Store,
                      sender: User, req: T.TransferRequest, o: T.Oracle, n: nat)
    requires n < maxRetries && Stumbles(o, n) && o.draws(n).fault == None
    ensures RightReply(T.Execution(maxRetries, backoff, promo, wallet, store, sender, req, o),
                       CallAt(sender, req, promo, o, n), WalletAt(wallet, o, n))
  {
    var w := WalletAt(wallet, o, n);
    DecidingAttempt(maxRetries, backoff, promo, wallet, store, sender, req, o, n);
    ReplyFollows(T.Execution(maxRetries, backoff, promo, wallet, store, sender, req, o),
                 CallAt(sender, req, promo, o, n), w, store[req.key := InFlightMark]);
  }

  /** Which requests are turned away before anything happens, and why. */
  lemma ValidRequests(req: T.TransferRequest)
    ensures T.Validate(req) == None <==> req.key != "" && req.toPhone != "" && req.amount >= 1000
    ensures req.key == "" || req.toPhone == "" ==> T.Validate(req) == Some(MissingField)
    ensures req.key != "" && req.toPhone != "" && req.amount <= 0 ==> T.Validate(req) == Some(Code.InvalidAmount)
    ensures req.key != "" && req.toPhone != "" && 0 < req.amount < 1000 ==> T.Validate(req) == Some(AmountBelowMinimum)
  {
  }

  /** A promo code is refused up front exactly when there are codes and this one would not be applied. */
  lemma WarnedUpFront(req: T.TransferRequest, promo: Option<PromoConfig>, now: int)
    ensures T.Warned(req, promo, now) <==>
              && req.promoCode != "" && promo.Some?
              && !(req.promoCode in promo.value.codes && promo.value.window.start <= now <= promo.value.window.end
                   && forall c :: c in req.promoCode ==>
                        c == '-' || 'a' <= c <= 'z' || 'A' <= c <= 'Z' || '0' <= c <= '9')
  {
    if promo.Some? {
      PromoMeaning(promo.value, req.promoCode, 0, now, 0);
    }
  }
}
