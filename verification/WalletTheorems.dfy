// The main results about whole runs of the wallet.
module WalletTheorems {
  import opened Wrappers
  import opened Money
  import opened Fees
  import opened Sums
  import opened Ledger
  import opened Tables
  import opened Transactions
  import opened TransactionEffects
  import opened WalletSystem
  import opened WalletInvariant
  import opened TableShape
  import opened WalletSafety
  import opened Conservation

  // ---------- The snapshot agrees with the log ----------

  lemma AgreesFor(s: System, u: User)
    requires Inv(s)
    ensures Balance(s.tables, u) == Wrap64(Projection(s.tables.log, u) - PendingWithdrawals(s.tables.log, u))
  {
    SpendableIsProjectionLessPending(s.tables.log, u);
  }

  /** In every reachable state each snapshot is the projection less the pending withdrawals, in 64-bit arithmetic. */
  lemma {:induction false} SnapshotAgrees(cfg: Config, steps: seq<Step>, u: User)
    ensures var t := Run(Initial(cfg), steps).tables;
            Balance(t, u) == Wrap64(Projection(t.log, u) - PendingWithdrawals(t.log, u))
  {
    ReachableInv(cfg, steps);
    AgreesFor(Run(Initial(cfg), steps), u);
  }

  // ---------- Solvency ----------

  /** The top-ups leave room for every addition and multiplication that the services make. */
  ghost predicate Bounded(log: seq<Entry>, cfg: Config) {
    Roomy(CommittedTopups(log), cfg)
  }

  lemma RoomBelowMax(total: int, cfg: Config)
    requires Roomy(total, cfg)
    ensures total < MaxInt64
  {
    MaxNeverFits(cfg);
  }

  ghost predicate Sound(s: System) {
    Inv(s) && Solvent(s.tables.log) && Bounded(s.tables.log, s.cfg)
  }

  lemma TopupsNonNegative(log: seq<Entry>)
    requires LogOk(log)
    ensures CommittedTopups(log) >= 0
  {
    SumNonNegative(log, TopupOf);
  }

  lemma WithinTopups(log: seq<Entry>, u: User)
    requires LogOk(log) && Solvent(log)
    ensures 0 <= Spendable(log, u) <= CommittedTopups(log)
  {
    TwoUsersWithinTopups(log, u, u + 1);
  }

  /** Under the bound no snapshot has wrapped: it is exactly what the user can spend, and not negative. */
  lemma SnapshotIsExact(s: System, u: User)
    requires Inv(s) && Solvent(s.tables.log) && Bounded(s.tables.log, s.cfg)
    ensures Balance(s.tables, u) == Spendable(s.tables.log, u) >= 0
  {
    WithinTopups(s.tables.log, u);
    RoomBelowMax(CommittedTopups(s.tables.log), s.cfg);
    assert Balance(s.tables, u) == Wrap64(Spendable(s.tables.log, u));
  }

  /** Every 64-bit addition and subtraction that the step executes on balances and amounts stays in range. */
  predicate ExactArithmetic(s: System, step: Step) {
    var t := s.tables;
    match step
    case AttemptTransfer(c) =>
      c.receiver.Some? && c.receiver.value != c.sender && c.amount > 0 && Balance(t, c.sender) >= c.amount ==>
        var total := c.amount + QuoteFee(c, s.cfg).fee;
        && (c.kyc == Verified ==> FeeFits(c.amount, s.cfg))
        && InRange(total)
        && (Balance(t, c.sender) >= total ==>
              InRange(Balance(t, c.sender) - total) && InRange(Balance(t, c.receiver.value) + c.amount))
    case CommitWebhook(va) =>
      va in s.delivered && va.entry.Some? && CommitTxLog(t, va.entry.value).Some? ==>
        InRange(Balance(t, va.user) + va.amount)
    case ReserveFunds(c) =>
      c.amount > 0 && Balance(t, c.user) >= c.amount ==> InRange(Balance(t, c.user) - c.amount)
    case BeginFinish(record, status, caller) =>
      MayBegin(s, record, status, caller) && status != Committed ==>
        InRange(Balance(t, t.withdrawals[record].user) + t.withdrawals[record].amount)
    case CommitFinish(record) =>
      record in s.open && s.open[record].recorded && record in t.withdrawals && s.open[record].status != Committed ==>
        InRange(Balance(t, t.withdrawals[record].user) + t.withdrawals[record].amount)
    case _ => true
  }

  // ---------- Top-ups only grow, and solvency is kept ----------

  lemma AppendTopups(log: seq<Entry>, e: Entry)
    ensures CommittedTopups(log + [e]) == CommittedTopups(log) + TopupOf(e)
  {
    SumAppend(log, e, TopupOf);
  }

  lemma TransferTopups(log: seq<Entry>, c: TransferCall, q: Quote)
    requires q.fee > 0 || q.applied
    ensures CommittedTopups(log + TransferEntries(c, q)) == CommittedTopups(log)
  {
    AppendTopups(log, TransferEntry(c));
    AppendTopups(log + [TransferEntry(c)], FeeEntry(c, q.fee));
    assert log + TransferEntries(c, q) == (log + [TransferEntry(c)]) + [FeeEntry(c, q.fee)];
  }

  lemma TransferKeepsTopups(s: System, c: TransferCall)
    ensures CommittedTopups(Apply(s, AttemptTransfer(c)).tables.log) == CommittedTopups(s.tables.log)
  {
    if TransferTx(s.tables, c, s.cfg).Ok? {
      TransferRows(s.tables, c, s.cfg);
      TransferTopups(s.tables.log, c, QuoteFee(c, s.cfg));
    }
  }

  lemma CreateKeepsTopups(s: System, c: TopupCall)
    ensures CommittedTopups(Apply(s, CreateTopup(c)).tables.log) == CommittedTopups(s.tables.log)
  {
    if c.amount > 0 && TopupTx(s.tables, c).Some? {
      TopupEffect(s.tables, c);
      AppendTopups(s.tables.log, TopupTx(s.tables, c).value.log[|s.tables.log|]);
    }
  }

  lemma WebhookAddsTopup(s: System, va: VA)
    requires Inv(s)
    ensures CommittedTopups(Apply(s, CommitWebhook(va)).tables.log) >= CommittedTopups(s.tables.log)
  {
    var t := s.tables;
    if va in s.delivered && WebhookTx(t, va).Some? {
      WebhookEffect(t, va);
      assert VAOk(t.log, t.vas[va.number]);
      assert EntryOk(Row(t.log, va.entry.value).value);
      SumSetStatus(t.log, va.entry.value, Committed, TopupOf);
    }
  }

  lemma ReserveKeepsTopups(s: System, c: WithdrawCall)
    ensures CommittedTopups(Apply(s, ReserveFunds(c)).tables.log) == CommittedTopups(s.tables.log)
  {
    if c.amount > 0 && ReserveTx(s.tables, c).Ok? {
      ReserveEffect(s.tables, c);
      AppendTopups(s.tables.log, ReserveTx(s.tables, c).value.log[|s.tables.log|]);
    }
  }

  /** No step takes a committed top-up back. */
  lemma StepTopups(s: System, step: Step)
    requires Inv(s)
    ensures CommittedTopups(Apply(s, step).tables.log) >= CommittedTopups(s.tables.log)
  {
    match step
    case AttemptTransfer(c) => TransferKeepsTopups(s, c);
    case CreateTopup(c) => CreateKeepsTopups(s, c);
    case CommitWebhook(va) => WebhookAddsTopup(s, va);
    case ReserveFunds(c) => ReserveKeepsTopups(s, c);
    case CommitFinish(record) => if record in s.open && s.open[record].recorded { FinishTopups(s, record); }
    case _ =>
  }

  lemma FinishTopups(s: System, record: Id)
    requires Inv(s) && record in s.open
    ensures record in s.tables.withdrawals && TryFinish(s.tables, record, s.open[record].status).Some?
    ensures CommittedTopups(TryFinish(s.tables, record, s.open[record].status).value.log) ==
            CommittedTopups(s.tables.log)
  {
    var t, status := s.tables, s.open[record].status;
    OpenFinishSucceeds(s, record);
    var w := t.withdrawals[record];
    assert WithdrawalOk(t.log, w);
    FinishEffect(t, w.user, w.amount, w.entry.value, status);
    SumSetStatus(t.log, w.entry.value, status, TopupOf);
  }

  lemma SolventAfter(t: Tables, t': Tables, change: Change)
    requires Solvent(t.log) && InStep(t, t', change)
    requires change.to.Some? ==> change.credit >= 0
    requires change.from.Some? ==> Spendable(t.log, change.from.value) >= change.debit
    ensures Solvent(t'.log)
  {
  }

  lemma TransferExact(s: System, c: TransferCall)
    requires Sound(s)
    ensures ExactArithmetic(s, AttemptTransfer(c))
  {
    if c.receiver.Some? && c.receiver.value != c.sender && c.amount > 0 && Balance(s.tables, c.sender) >= c.amount {
      SnapshotIsExact(s, c.sender);
      SnapshotIsExact(s, c.receiver.value);
      TwoUsersWithinTopups(s.tables.log, c.sender, c.receiver.value);
      RoomBelowMax(CommittedTopups(s.tables.log), s.cfg);
      assert ChargeFits(c.amount, s.cfg);
    }
  }

  lemma TransferSolvent(s: System, c: TransferCall)
    requires Sound(s) && TransferTx(s.tables, c, s.cfg).Ok?
    ensures Solvent(TransferTx(s.tables, c, s.cfg).value.tables.log)
  {
    var t, q := s.tables, QuoteFee(c, s.cfg);
    TransferRows(t, c, s.cfg);
    TransferInStep(t, c, s.cfg);
    TransferExact(s, c);
    SnapshotIsExact(s, c.sender);
    SolventAfter(t, TransferTx(t, c, s.cfg).value.tables, TransferChange(c, q.fee));
  }

  lemma TopupSolvent(s: System, c: TopupCall)
    requires Solvent(s.tables.log) && TopupTx(s.tables, c).Some?
    ensures Solvent(TopupTx(s.tables, c).value.log)
  {
    TopupInStep(s.tables, c);
    SolventAfter(s.tables, TopupTx(s.tables, c).value, CreditOnly(c.user, 0));
  }

  lemma WebhookSolvent(s: System, va: VA)
    requires Inv(s) && Solvent(s.tables.log) && va in s.delivered && WebhookTx(s.tables, va).Some?
    ensures va.amount > 0
    ensures var log' := WebhookTx(s.tables, va).value.log;
            && Solvent(log') && Spendable(log', va.user) == Spendable(s.tables.log, va.user) + va.amount
  {
    var t := s.tables;
    WebhookEffect(t, va);
    WebhookInStep(t, va);
    assert VAOk(t.log, t.vas[va.number]);
    assert EntryOk(Row(t.log, va.entry.value).value);
    SolventAfter(t, WebhookTx(t, va).value, CreditOnly(va.user, va.amount));
  }

  lemma ReserveSolvent(s: System, c: WithdrawCall)
    requires Sound(s) && c.amount > 0 && ReserveTx(s.tables, c).Ok?
    ensures Solvent(ReserveTx(s.tables, c).value.log)
  {
    var t := s.tables;
    ReserveEffect(t, c);
    ReserveInStep(t, c);
    SnapshotIsExact(s, c.user);
    SolventAfter(t, ReserveTx(t, c).value, Change(None, 0, Some(c.user), c.amount));
  }

  lemma FinishSolvent(s: System, record: Id)
    requires Inv(s) && Solvent(s.tables.log) && record in s.open
    ensures record in s.tables.withdrawals && TryFinish(s.tables, record, s.open[record].status).Some?
    ensures var w, log' := s.tables.withdrawals[record], TryFinish(s.tables, record, s.open[record].status).value.log;
            && Solvent(log')
            && (s.open[record].status != Committed ==>
                  Spendable(log', w.user) == Spendable(s.tables.log, w.user) + w.amount)
  {
    var t, status := s.tables, s.open[record].status;
    OpenFinishSucceeds(s, record);
    var w := t.withdrawals[record];
    assert WithdrawalOk(t.log, w);
    FinishInStep(t, record, status);
    assert EntryOk(Row(t.log, w.entry.value).value);
    SolventAfter(t, TryFinish(t, record, status).value, FinishChange(w, status));
  }

  /** A webhook whose entry is still pending goes through. */
  lemma PendingWebhookCommits(s: System, va: VA)
    requires Shape(s.tables) && DeliveredOk(s.delivered, s.tables.vas) && va in s.delivered
    ensures va.entry.Some?
    ensures CommitTxLog(s.tables, va.entry.value).Some? <==> s.tables.vas[va.number].status == Active
    ensures WebhookTx(s.tables, va).Some? <==> s.tables.vas[va.number].status == Active
  {
    assert VAOk(s.tables.log, s.tables.vas[va.number]);
  }

  lemma AttemptKeepsSolvent(s: System, c: TransferCall)
    requires Sound(s)
    ensures Solvent(Apply(s, AttemptTransfer(c)).tables.log)
  {
    if TransferTx(s.tables, c, s.cfg).Ok? {
      TransferSolvent(s, c);
    }
  }

  lemma CreateKeepsSolvent(s: System, c: TopupCall)
    requires Sound(s)
    ensures Solvent(Apply(s, CreateTopup(c)).tables.log)
  {
    if c.amount > 0 && TopupTx(s.tables, c).Some? {
      TopupSolvent(s, c);
    }
  }

  lemma DeliveryKeepsSolvent(s: System, va: VA)
    requires Sound(s)
    ensures Solvent(Apply(s, CommitWebhook(va)).tables.log)
  {
    if va in s.delivered && WebhookTx(s.tables, va).Some? {
      WebhookSolvent(s, va);
    }
  }

  lemma ReserveKeepsSolvent(s: System, c: WithdrawCall)
    requires Sound(s)
    ensures Solvent(Apply(s, ReserveFunds(c)).tables.log)
  {
    if c.amount > 0 && ReserveTx(s.tables, c).Ok? {
      ReserveSolvent(s, c);
    }
  }

  lemma StepSolvent(s: System, step: Step)
    requires Sound(s)
    ensures Solvent(Apply(s, step).tables.log)
  {
    match step
    case AttemptTransfer(c) => AttemptKeepsSolvent(s, c);
    case CreateTopup(c) => CreateKeepsSolvent(s, c);
    case CommitWebhook(va) => DeliveryKeepsSolvent(s, va);
    case ReserveFunds(c) => ReserveKeepsSolvent(s, c);
    case CommitFinish(record) => if record in s.open && s.open[record].recorded { FinishSolvent(s, record); }
    case _ =>
  }

  lemma WebhookExact(s: System, va: VA)
    requires Sound(s) && va in s.delivered && WebhookTx(s.tables, va).Some?
    requires Bounded(WebhookTx(s.tables, va).value.log, s.cfg)
    ensures InRange(Balance(s.tables, va.user) + va.amount)
  {
    WebhookSolvent(s, va);
    SnapshotIsExact(s, va.user);
    StateKept(s, CommitWebhook(va));
    WithinTopups(WebhookTx(s.tables, va).value.log, va.user);
    RoomBelowMax(CommittedTopups(WebhookTx(s.tables, va).value.log), s.cfg);
  }

  lemma FinishExact(s: System, record: Id)
    requires Sound(s) && record in s.open && s.open[record].recorded
    ensures ExactArithmetic(s, CommitFinish(record))
  {
    FinishSolvent(s, record);
    FinishTopups(s, record);
    StateKept(s, CommitFinish(record));
    SnapshotIsExact(s, s.tables.withdrawals[record].user);
    WithinTopups(TryFinish(s.tables, record, s.open[record].status).value.log, s.tables.withdrawals[record].user);
    RoomBelowMax(CommittedTopups(s.tables.log), s.cfg);
  }

  /** The tables a reversal would leave, were it to commit at once: no top-up is lost and all stays solvent. */
  lemma ReversalTables(s: System, record: Id, status: Status, caller: Caller)
    requires Inv(s) && Solvent(s.tables.log) && MayBegin(s, record, status, caller) && status != Committed
    ensures TryFinish(s.tables, record, status).Some?
    ensures var w, log' := s.tables.withdrawals[record], TryFinish(s.tables, record, status).value.log;
            && Solvent(log') && LogOk(log') && CommittedTopups(log') == CommittedTopups(s.tables.log)
            && Spendable(log', w.user) == Spendable(s.tables.log, w.user) + w.amount
  {
    var t := s.tables;
    var w := t.withdrawals[record];
    assert WithdrawalOk(t.log, w) && ViewOk(ViewOf(s, record));
    FinishStarts(t, record, status);
    FinishInStep(t, record, status);
    FinishShape(t, record, status);
    assert EntryOk(Row(t.log, w.entry.value).value);
    SolventAfter(t, TryFinish(t, record, status).value, FinishChange(w, status));
    FinishEffect(t, w.user, w.amount, w.entry.value, status);
    SumSetStatus(t.log, w.entry.value, status, TopupOf);
  }

  /** The credit of a reversal that begins is in range, whether or not the reversal commits later. */
  lemma BeginExact(s: System, record: Id, status: Status, caller: Caller)
    requires Sound(s)
    ensures ExactArithmetic(s, BeginFinish(record, status, caller))
  {
    if MayBegin(s, record, status, caller) && status != Committed {
      ReversalTables(s, record, status, caller);
      SnapshotIsExact(s, s.tables.withdrawals[record].user);
      WithinTopups(TryFinish(s.tables, record, status).value.log, s.tables.withdrawals[record].user);
      RoomBelowMax(CommittedTopups(s.tables.log), s.cfg);
    }
  }

  lemma StepExact(s: System, step: Step)
    requires Sound(s) && Bounded(Apply(s, step).tables.log, s.cfg)
    ensures ExactArithmetic(s, step)
  {
    match step
    case AttemptTransfer(c) => TransferExact(s, c);
    case CommitWebhook(va) =>
      if va in s.delivered {
        PendingWebhookCommits(s, va);
        if WebhookTx(s.tables, va).Some? {
          WebhookExact(s, va);
        }
      }
    case ReserveFunds(c) => SnapshotIsExact(s, c.user);
    case BeginFinish(record, status, caller) => BeginExact(s, record, status, caller);
    case CommitFinish(record) => if record in s.open && s.open[record].recorded { FinishExact(s, record); }
    case _ =>
  }

  lemma ConfigNeverChanges(s: System, steps: seq<Step>)
    ensures Run(s, steps).cfg == s.cfg
  {
  }

  lemma {:induction false} RunTopups(s: System, steps: seq<Step>, k: nat)
    requires Inv(s) && k <= |steps|
    ensures CommittedTopups(Run(s, steps[..k]).tables.log) <= CommittedTopups(Run(s, steps).tables.log)
    decreases |steps|
  {
    if k == |steps| {
      assert steps[..k] == steps;
    } else {
      var n := |steps| - 1;
      RunTopups(s, steps[..n], k);
      assert steps[..n][..k] == steps[..k];
      InvAlways(s, steps[..n]);
      StepTopups(Run(s, steps[..n]), steps[n]);
    }
  }

  /** If the top-ups committed by the end of a run stay within the bound, every state of the run is sound. */
  lemma {:induction false} RunSound(s: System, steps: seq<Step>)
    requires Sound(s) && Bounded(Run(s, steps).tables.log, s.cfg)
    ensures Sound(Run(s, steps))
  {
    if steps != [] {
      var n := |steps| - 1;
      RunTopups(s, steps, n);
      RunSound(s, steps[..n]);
      ConfigNeverChanges(s, steps);
      ConfigNeverChanges(s, steps[..n]);
      InvKept(Run(s, steps[..n]), steps[n]);
      StepSolvent(Run(s, steps[..n]), steps[n]);
    }
  }

  /**
   * At every point of a run whose top-ups stay within the bound: no balance is negative, each is exactly what
   * the log leaves its user, and the next step's 64-bit arithmetic does not overflow.
   */
  lemma {:induction false} NoOverflowEver(cfg: Config, steps: seq<Step>, k: nat, u: User)
    requires k <= |steps| && Bounded(Run(Initial(cfg), steps).tables.log, cfg)
    ensures var s := Run(Initial(cfg), steps[..k]);
            && Balance(s.tables, u) == Projection(s.tables.log, u) - PendingWithdrawals(s.tables.log, u) >= 0
            && (k < |steps| ==> ExactArithmetic(s, steps[k]))
  {
    var s := Run(Initial(cfg), steps[..k]);
    SoundAt(cfg, steps, k);
    SnapshotIsExact(s, u);
    SpendableIsProjectionLessPending(s.tables.log, u);
    if k < |steps| {
      SoundAt(cfg, steps, k + 1);
      assert steps[..k + 1][..k] == steps[..k];
      ConfigNeverChanges(Initial(cfg), steps[..k]);
      StepExact(s, steps[k]);
    }
  }

  lemma SoundAt(cfg: Config, steps: seq<Step>, k: nat)
    requires k <= |steps| && Bounded(Run(Initial(cfg), steps).tables.log, cfg)
    ensures Sound(Run(Initial(cfg), steps[..k])) && Bounded(Run(Initial(cfg), steps[..k]).tables.log, cfg)
  {
    InitialInv(cfg);
    RunTopups(Initial(cfg), steps, k);
    TopupsOfRun(cfg, steps);
    SoundStart(cfg, Run(Initial(cfg), steps).tables.log);
    RunSound(Initial(cfg), steps[..k]);
  }

  lemma TopupsOfRun(cfg: Config, steps: seq<Step>)
    ensures CommittedTopups(Run(Initial(cfg), steps).tables.log) >= 0
  {
    ReachableInv(cfg, steps);
    TopupsNonNegative(Run(Initial(cfg), steps).tables.log);
  }

  lemma SoundStart(cfg: Config, log: seq<Entry>)
    requires Bounded(log, cfg) && CommittedTopups(log) >= 0
    ensures Sound(Initial(cfg))
  {
    InitialInv(cfg);
  }

  // ---------- The bound is needed ----------

  /** After the run, which includes the step, no more than this has been topped up. */
  predicate StaysWithin(cfg: Config, steps: seq<Step>, step: Step, total: int) {
    CommittedTopups(Apply(Run(Initial(cfg), steps), step).tables.log) <= total
  }

  /** A user tops up this amount, and the bank delivers the webhook. */
  function TopsUp(c: TopupCall): seq<Step> {
    [CreateTopup(c), ReadWebhook(c.number), CommitWebhook(VA(c.number, c.user, c.amount, Active, Some(c.entry)))]
  }

  lemma ToppedUp(cfg: Config, c: TopupCall)
    requires c.amount > 0
    ensures var s := Run(Initial(cfg), TopsUp(c));
            && s.cfg == cfg && Balance(s.tables, c.user) == c.amount
            && CommittedTopups(s.tables.log) == c.amount
  {
    var va := VA(c.number, c.user, c.amount, Active, Some(c.entry));
    var entry := Entry(c.entry, c.key, Topup, None, Some(c.user), c.amount, Pending, c.now);
    RunThree(Initial(cfg), CreateTopup(c), ReadWebhook(c.number), CommitWebhook(va));
    var s1 := Apply(Initial(cfg), CreateTopup(c));
    assert s1.tables == Tables(map[], [entry], map[c.number := va], map[]);
    var s2 := Apply(s1, ReadWebhook(c.number));
    assert s2 == s1.(delivered := {va});
    PaidOnce(s2, entry, va);
  }

  lemma PaidOnce(s: System, e: Entry, va: VA)
    requires s.tables == Tables(map[], [e], map[va.number := va], map[]) && va in s.delivered
    requires va.status == Active && va.entry == Some(e.id) && va.amount == e.amount
    requires e.kind == Topup && e.status == Pending
    ensures var s' := Apply(s, CommitWebhook(va));
            && s'.cfg == s.cfg && Balance(s'.tables, va.user) == va.amount
            && s'.tables.log == [e.(status := Committed)] && CommittedTopups(s'.tables.log) == va.amount
  {
    RowAt([e], 0);
    WebhookEffect(s.tables, va);
    assert [e][0 := e.(status := Committed)] == [e.(status := Committed)];
    AppendTopups([], e.(status := Committed));
  }

  function SpendAll(amount: Sen, kyc: KYCLevel): TransferCall {
    TransferCall("b", 0, Some(1), amount, kyc, None, "", false, 0, 1, 2, 0)
  }

  /** Whoever has topped up an amount that does not fit with its fee can try to transfer all of it. */
  lemma OverflowRun(cfg: Config, a: Sen, total: int) returns (steps: seq<Step>, step: Step)
    requires 0 < a <= total && !ChargeFits(a, cfg)
    ensures StaysWithin(cfg, steps, step, total) && !ExactArithmetic(Run(Initial(cfg), steps), step)
  {
    var c := TopupCall("a", 0, a, "8800", 0, 0);
    ToppedUp(cfg, c);
    steps := TopsUp(c);
    step := AttemptTransfer(SpendAll(a, if a + cfg.flatBasic > MaxInt64 then Basic else Verified));
    TransferKeepsTopups(Run(Initial(cfg), steps), step.call);
  }

  /**
   * The 64-bit arithmetic of every step is exact in all runs that top up no more than total, if and only if there is
   * room for every charge up to total.
   */
  lemma {:induction false} NoOverflowIff(cfg: Config, total: int)
    ensures (forall steps, step :: StaysWithin(cfg, steps, step, total) ==>
               ExactArithmetic(Run(Initial(cfg), steps), step)) <==> Roomy(total, cfg)
  {
    if Roomy(total, cfg) {
      forall steps: seq<Step>, step | StaysWithin(cfg, steps, step, total)
        ensures ExactArithmetic(Run(Initial(cfg), steps), step)
      {
        RunStep(Initial(cfg), steps, step);
        NoOverflowEver(cfg, steps + [step], |steps|, 0);
        assert (steps + [step])[..|steps|] == steps;
      }
    } else {
      var a: Sen :| 0 < a <= total && !ChargeFits(a, cfg);
      var steps, step := OverflowRun(cfg, a, total);
    }
  }

  /** Snapshots that agree with their users' spendable amounts modulo 2^64 agree in total as well. */
  lemma {:induction false} WrappedTotals(users: seq<User>, f: User -> int, g: User -> int)
    requires forall u :: Wrap64(f(u)) == Wrap64(g(u))
    ensures Wrap64(Sum(users, f)) == Wrap64(Sum(users, g))
  {
    if users != [] {
      var front, last := users[..|users| - 1], users[|users| - 1];
      WrappedTotals(front, f, g);
      WrapBoth(Sum(front, f), Sum(front, g), f(last), g(last));
    }
  }

  lemma WrapBoth(a: int, b: int, x: int, y: int)
    requires Wrap64(a) == Wrap64(b) && Wrap64(x) == Wrap64(y)
    ensures Wrap64(a + x) == Wrap64(b + y)
  {
    WrapAdd(a, x);
    WrapAdd(b, x);
    WrapAdd(x, b);
    WrapAdd(y, b);
  }

  lemma SnapshotTotal(t: Tables, users: seq<User>)
    requires Agrees(t)
    ensures Wrap64(Sum(users, BalanceOf(t))) == Wrap64(Sum(users, SpendableOf(t.log)))
  {
    forall u ensures Wrap64(BalanceOf(t)(u)) == Wrap64(SpendableOf(t.log)(u)) {
      assert Balance(t, u) == Wrap64(Spendable(t.log, u));
    }
    WrappedTotals(users, BalanceOf(t), SpendableOf(t.log));
  }

  lemma ConservedWrapped(log: seq<Entry>, users: seq<User>, balances: int)
    requires LogOk(log) && Covers(users, log) && Wrap64(balances) == Wrap64(Sum(users, SpendableOf(log)))
    ensures Wrap64(balances + (HeldWithdrawals(log) + CommittedWithdrawals(log) + CommittedFees(log))) ==
            Wrap64(CommittedTopups(log))
  {
    var rest := HeldWithdrawals(log) + CommittedWithdrawals(log) + CommittedFees(log);
    MoneyIsConserved(log, users);
    WrapBoth(balances, Sum(users, SpendableOf(log)), rest, rest);
  }

  /** All snapshots, held and paid-out withdrawals and fees together are the committed top-ups, in 64-bit arithmetic. */
  ghost predicate ConservesWrapped(t: Tables, users: seq<User>) {
    Wrap64(Sum(users, BalanceOf(t)) + (HeldWithdrawals(t.log) + CommittedWithdrawals(t.log) + CommittedFees(t.log)))
      == Wrap64(CommittedTopups(t.log))
  }

  lemma StateConserves(s: System, users: seq<User>)
    requires Inv(s) && Covers(users, s.tables.log)
    ensures ConservesWrapped(s.tables, users)
  {
    SnapshotTotal(s.tables, users);
    ConservedWrapped(s.tables.log, users, Sum(users, BalanceOf(s.tables)));
  }

  /** Conservation in every run without any bound, in the 64-bit arithmetic that the snapshots are kept in. */
  lemma {:induction false} WalletConservesWrapped(cfg: Config, steps: seq<Step>, users: seq<User>)
    requires Covers(users, Run(Initial(cfg), steps).tables.log)
    ensures ConservesWrapped(Run(Initial(cfg), steps).tables, users)
  {
    ReachableInv(cfg, steps);
    StateConserves(Run(Initial(cfg), steps), users);
  }

  /** Conservation: all snapshots, held and paid-out withdrawals and fees together are the committed top-ups. */
  lemma WalletConserves(cfg: Config, steps: seq<Step>, users: seq<User>)
    requires Bounded(Run(Initial(cfg), steps).tables.log, cfg) && Covers(users, Run(Initial(cfg), steps).tables.log)
    ensures var t := Run(Initial(cfg), steps).tables;
            Sum(users, BalanceOf(t)) + HeldWithdrawals(t.log) + CommittedWithdrawals(t.log) + CommittedFees(t.log)
              == CommittedTopups(t.log)
  {
    var s := Run(Initial(cfg), steps);
    assert steps[..|steps|] == steps;
    SoundAt(cfg, steps, |steps|);
    MoneyIsConserved(s.tables.log, users);
    forall u ensures BalanceOf(s.tables)(u) == SpendableOf(s.tables.log)(u) {
      SnapshotIsExact(s, u);
    }
    SumLe(users, BalanceOf(s.tables), SpendableOf(s.tables.log));
    SumLe(users, SpendableOf(s.tables.log), BalanceOf(s.tables));
  }

  function BalanceOf(t: Tables): (f: User -> int)
    ensures forall u :: f(u) == Balance(t, u)
  {
    (u: User) => Balance(t, u)
  }
}
