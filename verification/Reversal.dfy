// What a withdrawal request comes to: refused, the money is back; confirmed, it stays debited.
module Reversal {
  import opened Wrappers
  import opened Money
  import opened Ledger
  import opened Tables
  import opened Transactions
  import opened TransactionEffects
  import opened WalletSystem
  import opened WalletInvariant
  import opened WalletSafety
  import opened Errors
  import opened Idempotency
  import opened BankService
  import WalletHistory

  /** A finish that begins, records and commits writes what its transaction writes, and the record. */
  lemma FinishWrites(s: System, record: Id, status: Status)
    requires record in s.tables.withdrawals && record in s.open && s.open[record] == Finish(status, false)
    requires TryFinish(s.tables, record, status).Some?
    ensures var t' := Apply(Apply(s, RecordFinish(record)), CommitFinish(record)).tables;
            t' == TryFinish(s.tables, record, status).value.(withdrawals := t'.withdrawals)
  {
    FinishAfterRecord(s.tables, record, status);
  }

  lemma BeginHolds(s: System, record: Id, status: Status)
    requires MayBegin(s, record, status, Request) && TryFinish(s.tables, record, status).Some?
    ensures var begun := Apply(s, BeginFinish(record, status, Request));
            begun.tables == s.tables && record in begun.open && begun.open[record] == Finish(status, false)
  {
  }

  lemma FinishedTables(s: System, record: Id, status: Status)
    requires MayBegin(s, record, status, Request) && TryFinish(s.tables, record, status).Some?
    ensures var t' := Run(s, FinishSteps(record, status, Request, None)).tables;
            t' == TryFinish(s.tables, record, status).value.(withdrawals := t'.withdrawals)
  {
    RunFinish(s, record, status, Request, None);
    BeginHolds(s, record, status);
    FinishWrites(Apply(s, BeginFinish(record, status, Request)), record, status);
  }

  lemma ReservedMayBegin(s: System, call: WithdrawCall, status: Status)
    requires call.amount > 0 && ReserveTx(s.tables, call).Ok? && call.record !in s.open && status in {Failed, Timeout}
    ensures var s1 := Apply(s, ReserveFunds(call));
            && MayBegin(s1, call.record, status, Request) && s1.tables == ReserveTx(s.tables, call).value
            && TryFinish(s1.tables, call.record, status) ==
               FinishTx(s1.tables, call.user, call.amount, call.entry, status)
            && TryFinish(s1.tables, call.record, status).Some?
  {
    ReserveEffect(s.tables, call);
  }

  // ---------- While everybody else goes on ----------

  /** When the bank answers, the reserved row is there, its request still waits, and the state is well formed. */
  lemma Answerable(s: System, call: WithdrawCall, env: seq<Step>)
    requires StateOk(s) && Reserves(s, ReserveFunds(call))
    requires forall i :: 0 <= i < |env| ==> NotForRequest(env[i], call.record)
    ensures var w := WhenAnswered(s, call, env);
            && StateOk(w) && call.record in w.awaiting && call.record in w.tables.withdrawals
            && w.tables.withdrawals[call.record] ==
               Withdrawal(call.key, call.user, call.amount, w.tables.withdrawals[call.record].status, Some(call.entry))
  {
    var s1 := Apply(s, ReserveFunds(call));
    ReserveEffect(s.tables, call);
    StateKept(s, ReserveFunds(call));
    WalletHistory.StateAlways(s1, env);
    RunKeeps(s1, env, call.record);
  }

  /** The withdrawal has this status in the log and in its record, which is otherwise the one that was reserved. */
  predicate EndsAs(t: Tables, call: WithdrawCall, status: Status) {
    && LogStatus(t, call.record) == status
    && call.record in t.withdrawals
    && t.withdrawals[call.record] == Withdrawal(call.key, call.user, call.amount, status, Some(call.entry))
  }

  /** The request waits, nobody else is finishing, and the row is the one that was reserved. */
  predicate Finishable(w: System, call: WithdrawCall, status: Status) {
    && call.record in w.awaiting && call.record !in w.open && call.record in w.tables.withdrawals
    && w.tables.withdrawals[call.record] ==
       Withdrawal(call.key, call.user, call.amount, w.tables.withdrawals[call.record].status, Some(call.entry))
    && status in {Committed, Failed, Timeout} && (status == Committed ==> LogStatus(w.tables, call.record) == Pending)
  }

  lemma FinishMoves(w: System, call: WithdrawCall, status: Status)
    requires StateOk(w) && Finishable(w, call, status)
    ensures Moves(w.tables, Run(w, FinishSteps(call.record, status, Request, None)).tables,
                  CreditOnly(call.user, if status == Committed then 0 else call.amount))
  {
    assert WithdrawalOk(w.tables.log, w.tables.withdrawals[call.record]);
    FinishStarts(w.tables, call.record, status);
    FinishedTables(w, call.record, status);
    FinishEffect(w.tables, call.user, call.amount, call.entry, status);
  }

  lemma FinishEnds(w: System, call: WithdrawCall, status: Status)
    requires StateOk(w) && Finishable(w, call, status)
    ensures EndsAs(Run(w, FinishSteps(call.record, status, Request, None)).tables, call, status)
  {
    assert WalletHistory.CommitSteps(call.record, status, Request) == FinishSteps(call.record, status, Request, None);
    WalletHistory.FinishRun(w, call.record, status, Request);
    RunKeeps(w, FinishSteps(call.record, status, Request, None), call.record);
  }

  /** A finish without faults. */
  lemma FinishOutcome(w: System, call: WithdrawCall, status: Status)
    requires StateOk(w) && Finishable(w, call, status)
    ensures var s' := Run(w, FinishSteps(call.record, status, Request, None));
            && EndsAs(s'.tables, call, status)
            && Moves(w.tables, s'.tables, CreditOnly(call.user, if status == Committed then 0 else call.amount))
  {
    FinishMoves(w, call, status);
    FinishEnds(w, call, status);
  }

  /**
   * When the bank refuses, the user gets back exactly the reserved amount on top of whatever everybody else has made of
   * the balances meanwhile, nobody else's balance moves, and log and record show the refusal.
   */
  lemma RefusalReturnsTheMoney(s: System, call: WithdrawCall, env: seq<Step>, code: Code)
    requires StateOk(s) && Reserves(s, ReserveFunds(call))
    requires forall i :: 0 <= i < |env| ==> NotForRequest(env[i], call.record)
    requires call.record !in WhenAnswered(s, call, env).open
    ensures var w := WhenAnswered(s, call, env);
            var s' := Run(w, FinishSteps(call.record, ReverseStatus(code), Request, None));
            && EndsAs(s'.tables, call, if code == BankTimeout then Timeout else Failed)
            && Moves(w.tables, s'.tables, CreditOnly(call.user, call.amount))
  {
    Answerable(s, call, env);
    FinishOutcome(WhenAnswered(s, call, env), call, ReverseStatus(code));
  }

  /** A fresh reply comes from a commit that met no fault. */
  lemma FreshReplyRun(s: System, s': System, m: Store, m': Store, user: User, req: WithdrawRequest,
                      o: WithdrawOracle, reply: Reply)
    requires Withdrew(s, s', m, m', user, req, o, reply) && reply.Fresh?
    ensures var call := WithdrawCallOf(user, req, o);
            var w := WhenAnswered(s, call, o.env);
            && ReserveTx(s.tables, call).Ok? && o.record !in w.open && CommitTxLog(w.tables, o.entry).Some?
            && s' == Run(w, FinishSteps(o.record, Committed, Request, None))
            && reply.body == WithdrawBody(o.entry, req.amount)
  {
  }

  lemma CommitOutcome(s: System, call: WithdrawCall, env: seq<Step>)
    requires StateOk(s) && Reserves(s, ReserveFunds(call))
    requires forall i :: 0 <= i < |env| ==> NotForRequest(env[i], call.record)
    requires var w := WhenAnswered(s, call, env);
             call.record !in w.open && CommitTxLog(w.tables, call.entry).Some?
    ensures var w := WhenAnswered(s, call, env);
            var s' := Run(w, FinishSteps(call.record, Committed, Request, None));
            && EndsAs(s'.tables, call, Committed)
            && (forall u :: Balance(s'.tables, u) == Balance(w.tables, u))
  {
    var w := WhenAnswered(s, call, env);
    Answerable(s, call, env);
    assert WithdrawalOk(w.tables.log, w.tables.withdrawals[call.record]);
    FinishOutcome(w, call, Committed);
  }

  /**
   * A fresh reply means that the withdrawal is committed in log and record, that the reserved amount stays debited, and
   * that the cached body is that of this withdrawal.
   */
  lemma FreshReplyMeansPaidOut(s: System, s': System, m: Store, m': Store, user: User, req: WithdrawRequest,
                               o: WithdrawOracle, reply: Reply)
    requires StateOk(s) && req.amount > 0 && Withdrew(s, s', m, m', user, req, o, reply) && reply.Fresh?
    requires forall i :: 0 <= i < |o.env| ==> NotForRequest(o.env[i], o.record)
    ensures var call := WithdrawCallOf(user, req, o);
            var w := WhenAnswered(s, call, o.env);
            && Reserves(s, ReserveFunds(call)) && EndsAs(s'.tables, call, Committed)
            && (forall u :: Balance(s'.tables, u) == Balance(w.tables, u))
            && reply.body == WithdrawBody(o.entry, req.amount)
  {
    var call := WithdrawCallOf(user, req, o);
    var w := WhenAnswered(s, call, o.env);
    FreshReplyRun(s, s', m, m', user, req, o, reply);
    CommitOutcome(s, call, o.env);
  }

  /**
   * When the request reports the bank's refusal and no fault struck, the reversal has taken place: a bank timeout ends
   * as timeout, every other refusal as failed.
   */
  lemma BankRefusalMeansReversed(s: System, s': System, m: Store, m': Store, user: User, req: WithdrawRequest,
                                 o: WithdrawOracle, reply: Reply, code: Code)
    requires StateOk(s) && req.amount > 0 && Withdrew(s, s', m, m', user, req, o, reply)
    requires WithdrawCode(s.tables, user, req, o) == None && o.answer == BankError(code)
    requires forall i :: 0 <= i < |o.env| ==> NotForRequest(o.env[i], o.record)
    requires Meets(WhenAnswered(s, WithdrawCallOf(user, req, o), o.env), o.record, o.finishFault) == None
    ensures var call := WithdrawCallOf(user, req, o);
            && reply == Refused(code) && EndsAs(s'.tables, call, if code == BankTimeout then Timeout else Failed)
            && Moves(WhenAnswered(s, call, o.env).tables, s'.tables, CreditOnly(user, req.amount))
  {
    RefusalReturnsTheMoney(s, WithdrawCallOf(user, req, o), o.env, code);
  }

  // ---------- When a fault strikes ----------

  /** A finish that meets a fault moves no money and settles no entry; at most the record shows its status too early. */
  lemma FaultMovesNothing(w: System, record: Id, status: Status, caller: Caller, fault: FailPoint)
    requires record !in w.open
    ensures var t' := Run(w, FinishSteps(record, status, caller, Some(fault))).tables;
            && t'.balances == w.tables.balances && t'.log == w.tables.log && t'.vas == w.tables.vas
            && (forall r :: r in t'.withdrawals <==> r in w.tables.withdrawals)
            && (forall r :: r in w.tables.withdrawals && (r != record || fault != AtCommit) ==>
                  t'.withdrawals[r] == w.tables.withdrawals[r])
  {
    RunFinish(w, record, status, caller, Some(fault));
    BeginMovesNothing(w, record, status, caller);
    var begun := Apply(w, BeginFinish(record, status, caller));
    RecordMovesNothing(begun, record);
    AbortMovesNothing(begun, record);
    AbortMovesNothing(Apply(begun, RecordFinish(record)), record);
  }

  lemma BeginMovesNothing(w: System, record: Id, status: Status, caller: Caller)
    ensures Apply(w, BeginFinish(record, status, caller)).tables == w.tables
  {
  }

  lemma AbortMovesNothing(w: System, record: Id)
    ensures Apply(w, AbortFinish(record)).tables == w.tables
  {
  }

  lemma RecordMovesNothing(w: System, record: Id)
    ensures var t' := Apply(w, RecordFinish(record)).tables;
            && t' == w.tables.(withdrawals := t'.withdrawals)
            && (forall r :: r in t'.withdrawals <==> r in w.tables.withdrawals)
            && (forall r :: r in w.tables.withdrawals && r != record ==> t'.withdrawals[r] == w.tables.withdrawals[r])
  {
  }

  // ---------- When nobody else acts ----------

  /** Then a refusal leaves every user's balance exactly as it was before the reservation. */
  lemma ReversalUndoesReserve(s: System, call: WithdrawCall, code: Code, u: User)
    requires call.amount > 0 && ReserveTx(s.tables, call).Ok? && call.record !in s.open
    ensures var s' := Run(Apply(s, ReserveFunds(call)), FinishSteps(call.record, ReverseStatus(code), Request, None));
            Balance(s'.tables, u) == Balance(s.tables, u)
  {
    var status := ReverseStatus(code);
    var s1 := Apply(s, ReserveFunds(call));
    ReserveEffect(s.tables, call);
    ReservedMayBegin(s, call, status);
    FinishedTables(s1, call.record, status);
    FinishEffect(s1.tables, call.user, call.amount, call.entry, status);
    WrapAdd(Balance(s.tables, u) + Delta(Change(None, 0, Some(call.user), call.amount), u),
            Delta(CreditOnly(call.user, call.amount), u));
  }
}
