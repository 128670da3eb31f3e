// How VAs, withdrawal records and log entries develop over whole runs.
module WalletHistory {
  import opened Wrappers
  import opened Ledger
  import opened Tables
  import opened Transactions
  import opened TransactionEffects
  import opened WalletSystem
  import opened WalletInvariant
  import opened TableShape
  import opened WalletSafety

  // ---------- Webhooks ----------

  predicate PaidVA(t: Tables, number: string) {
    number in t.vas && t.vas[number].status == Paid
  }

  /** The step is a webhook delivery for this VA whose transaction commits. */
  predicate CreditsVA(s: System, step: Step, number: string) {
    step.CommitWebhook? && step.va.number == number && step.va in s.delivered && WebhookTx(s.tables, step.va).Some?
  }

  /** How many deliveries for this VA credited money during the run. */
  function Credits(s: System, steps: seq<Step>, number: string): nat {
    if steps == [] then 0
    else
      var n := |steps| - 1;
      Credits(s, steps[..n], number) + if CreditsVA(Run(s, steps[..n]), steps[n], number) then 1 else 0
  }

  lemma WebhookPays(s: System, va: VA, number: string)
    requires StateOk(s) && va in s.delivered && WebhookTx(s.tables, va).Some?
    ensures var t' := WebhookTx(s.tables, va).value;
            && !PaidVA(s.tables, va.number) && PaidVA(t', va.number)
            && (number != va.number ==> (PaidVA(t', number) <==> PaidVA(s.tables, number)))
  {
    WebhookEffect(s.tables, va);
  }

  lemma TransferKeepsVAs(s: System, c: TransferCall)
    ensures Apply(s, AttemptTransfer(c)).tables.vas == s.tables.vas
  {
    if TransferTx(s.tables, c, s.cfg).Ok? {
      TransferRows(s.tables, c, s.cfg);
    }
  }

  lemma TopupPaysNone(s: System, c: TopupCall, number: string)
    ensures PaidVA(Apply(s, CreateTopup(c)).tables, number) <==> PaidVA(s.tables, number)
  {
    if TopupTx(s.tables, c).Some? {
      TopupEffect(s.tables, c);
    }
  }

  lemma ReserveKeepsVAs(s: System, c: WithdrawCall)
    ensures Apply(s, ReserveFunds(c)).tables.vas == s.tables.vas
  {
    if ReserveTx(s.tables, c).Ok? {
      ReserveEffect(s.tables, c);
    }
  }

  lemma FinishKeepsVAs(s: System, record: Id)
    requires StateOk(s)
    ensures Apply(s, CommitFinish(record)).tables.vas == s.tables.vas
  {
    if record in s.open && s.open[record].recorded {
      OpenFinishSucceeds(s, record);
      FinishShape(s.tables, record, s.open[record].status);
    }
  }

  lemma WebhookVA(s: System, va: VA, number: string)
    requires StateOk(s)
    ensures var step := CommitWebhook(va);
            && (CreditsVA(s, step, number) ==> !PaidVA(s.tables, number) && PaidVA(Apply(s, step).tables, number))
            && (!CreditsVA(s, step, number) ==> (PaidVA(Apply(s, step).tables, number) <==> PaidVA(s.tables, number)))
  {
    if va in s.delivered && WebhookTx(s.tables, va).Some? {
      WebhookPays(s, va, number);
    }
  }

  lemma VAStep(s: System, step: Step, number: string)
    requires StateOk(s)
    ensures CreditsVA(s, step, number) ==> !PaidVA(s.tables, number) && PaidVA(Apply(s, step).tables, number)
    ensures !CreditsVA(s, step, number) ==> (PaidVA(Apply(s, step).tables, number) <==> PaidVA(s.tables, number))
  {
    match step
    case AttemptTransfer(c) => TransferKeepsVAs(s, c);
    case CreateTopup(c) => TopupPaysNone(s, c, number);
    case CommitWebhook(va) => WebhookVA(s, va, number);
    case ReserveFunds(c) => ReserveKeepsVAs(s, c);
    case CommitFinish(record) => FinishKeepsVAs(s, record);
    case _ =>
  }

  /**
   * Over any run, with any number of deliveries that all read the VA while it was active, the deliveries that
   * credit are exactly as many as the changes from unpaid to paid: none or one.
   */
  lemma {:induction false} CreditedAtMostOnce(s: System, steps: seq<Step>, number: string)
    requires StateOk(s)
    ensures Credits(s, steps, number) + (if PaidVA(s.tables, number) then 1 else 0) ==
            if PaidVA(Run(s, steps).tables, number) then 1 else 0
  {
    if steps != [] {
      var n := |steps| - 1;
      CreditedAtMostOnce(s, steps[..n], number);
      StateAlways(s, steps[..n]);
      VAStep(Run(s, steps[..n]), steps[n], number);
    }
  }

  lemma {:induction false} StateAlways(s: System, steps: seq<Step>)
    requires StateOk(s)
    ensures StateOk(Run(s, steps))
  {
    if steps != [] {
      var n := |steps| - 1;
      StateAlways(s, steps[..n]);
      StateKept(Run(s, steps[..n]), steps[n]);
    }
  }

  /**
   * A delivery credits if and only if its VA is still active when it commits; then the stored user gets
   * the stored amount, nobody else's balance moves, and the entry is committed with the VA.
   */
  lemma DeliveryCreditsStoredAmount(s: System, va: VA)
    requires StateOk(s) && va in s.delivered
    ensures va.number in s.tables.vas
    ensures CreditsVA(s, CommitWebhook(va), va.number) <==> s.tables.vas[va.number].status == Active
    ensures CreditsVA(s, CommitWebhook(va), va.number) ==>
              var t, t' := s.tables, Apply(s, CommitWebhook(va)).tables;
              var stored := t.vas[va.number];
              && Moves(t, t', CreditOnly(stored.user, stored.amount))
              && t'.log == SetStatus(t.log, stored.entry.value, Committed)
              && t'.vas == t.vas[va.number := stored.(status := Paid)]
  {
    assert VAOk(s.tables.log, s.tables.vas[va.number]);
    if WebhookTx(s.tables, va).Some? {
      WebhookEffect(s.tables, va);
    }
  }

  /** In every reachable state a VA is active while its entry is pending and paid once it is committed. */
  lemma {:induction false} VAFollowsEntry(cfg: Config, steps: seq<Step>, number: string)
    ensures var t := Run(Initial(cfg), steps).tables;
            number in t.vas ==> VAOk(t.log, t.vas[number])
  {
    ReachableInv(cfg, steps);
  }

  // ---------- Withdrawal records ----------

  /**
   * In every reachable state: a record and its log entry show the same status unless a finish transaction that
   * has updated the record is open, or one failed to commit after updating it; and a finished log entry
   * never has a pending record.
   */
  lemma {:induction false} RecordFollowsLog(cfg: Config, steps: seq<Step>, record: Id)
    ensures var s := Run(Initial(cfg), steps);
            var t := s.tables;
            record in t.withdrawals ==>
              && (record !in s.torn && (record in s.open ==> !s.open[record].recorded) ==>
                    t.withdrawals[record].status == LogStatus(t, record))
              && (LogStatus(t, record) != Pending ==> t.withdrawals[record].status != Pending)
  {
    ReachableInv(cfg, steps);
    var s := Run(Initial(cfg), steps);
    assert ViewOk(ViewOf(s, record));
  }

  // ---------- Runs of the routed endpoints ----------

  /** No route calls the withdrawal callback. */
  predicate Routed(steps: seq<Step>) {
    forall i :: 0 <= i < |steps| ==> !steps[i].LookUpCallback?
  }

  /** Without callbacks a finished entry is left alone, and its record shows its status. */
  predicate SettledOk(v: View) {
    && !v.looked
    && (v.finish.Some? ==> !v.awaiting)
    && (v.log != Pending ==> !v.awaiting && v.finish == None && (v.present ==> v.record == v.log))
  }

  ghost predicate Settled(s: System) {
    forall r :: SettledOk(ViewOf(s, r))
  }

  lemma NextSettled(v: View, step: Step, reserved: bool)
    requires ViewOk(v) && SettledOk(v) && !step.LookUpCallback? && (reserved ==> !v.present)
    ensures SettledOk(NextView(v, step, reserved))
  {
  }

  lemma SettledKept(s: System, step: Step)
    requires StateOk(s) && Settled(s) && !step.LookUpCallback?
    ensures Settled(Apply(s, step))
  {
    if Reserves(s, step) {
      ReserveShape(s.tables, step.withdraw);
    }
    forall r ensures SettledOk(ViewOf(Apply(s, step), r)) {
      ViewStep(s, step, r);
      assert ViewOk(ViewOf(s, r)) && SettledOk(ViewOf(s, r));
      if Touches(step, r) {
        NextSettled(ViewOf(s, r), step, Reserves(s, step));
      }
    }
  }

  lemma {:induction false} SettledAlways(cfg: Config, steps: seq<Step>)
    requires Routed(steps)
    ensures Settled(Run(Initial(cfg), steps)) && StateOk(Run(Initial(cfg), steps))
  {
    if steps == [] {
      InitialInv(cfg);
    } else {
      var n := |steps| - 1;
      SettledAlways(cfg, steps[..n]);
      SettledKept(Run(Initial(cfg), steps[..n]), steps[n]);
      StateKept(Run(Initial(cfg), steps[..n]), steps[n]);
    }
  }

  /** Over the routed endpoints a finished log entry and its record always show the same status. */
  lemma FinishedRecordsMatch(cfg: Config, steps: seq<Step>, record: Id)
    requires Routed(steps)
    ensures var t := Run(Initial(cfg), steps).tables;
            record in t.withdrawals && LogStatus(t, record) != Pending ==>
              t.withdrawals[record].status == LogStatus(t, record)
  {
    SettledAlways(cfg, steps);
    assert SettledOk(ViewOf(Run(Initial(cfg), steps), record));
  }

  // ---------- The log is append-only up to status ----------

  /** The old log is a prefix of the new one; only statuses may differ. */
  ghost predicate Grows(log: seq<Entry>, log': seq<Entry>) {
    && |log| <= |log'|
    && forall i :: 0 <= i < |log| ==> log'[i] == log[i].(status := log'[i].status)
  }

  /** Statuses moved at most once, away from pending. */
  ghost predicate StatusesSettle(log: seq<Entry>, log': seq<Entry>) {
    forall i :: 0 <= i < |log| && i < |log'| && log[i].status != Pending ==> log'[i].status == log[i].status
  }

  /** The step commits a reversal whose entry a callback has committed in the meantime. */
  predicate Overturns(s: System, step: Step) {
    && step.CommitFinish? && step.record in s.open && s.open[step.record].recorded
    && s.open[step.record].status != Committed && LogStatus(s.tables, step.record) == Committed
  }

  lemma SetStatusGrows(log: seq<Entry>, id: Id, status: Status)
    requires Row(log, id).Some?
    ensures Grows(log, SetStatus(log, id, status))
    ensures StatusesSettle(log, SetStatus(log, id, status)) <==>
              (Row(log, id).value.status == Pending || Row(log, id).value.status == status)
  {
    var i := Position(log, id);
    assert SetStatus(log, id, status)[i].status == status;
  }

  lemma TransferGrows(log: seq<Entry>, c: TransferCall, q: Quote)
    ensures Grows(log, log + TransferEntries(c, q)) && StatusesSettle(log, log + TransferEntries(c, q))
  {
  }

  lemma TransferLog(s: System, c: TransferCall)
    ensures var log' := Apply(s, AttemptTransfer(c)).tables.log;
            Grows(s.tables.log, log') && StatusesSettle(s.tables.log, log')
  {
    if TransferTx(s.tables, c, s.cfg).Ok? {
      TransferRows(s.tables, c, s.cfg);
      TransferGrows(s.tables.log, c, QuoteFee(c, s.cfg));
    }
  }

  lemma TopupLog(s: System, c: TopupCall)
    ensures var log' := Apply(s, CreateTopup(c)).tables.log;
            Grows(s.tables.log, log') && StatusesSettle(s.tables.log, log')
  {
    if TopupTx(s.tables, c).Some? {
      TopupEffect(s.tables, c);
    }
  }

  lemma WebhookLog(s: System, va: VA)
    ensures var log' := Apply(s, CommitWebhook(va)).tables.log;
            Grows(s.tables.log, log') && StatusesSettle(s.tables.log, log')
  {
    if va in s.delivered && WebhookTx(s.tables, va).Some? {
      WebhookEffect(s.tables, va);
      SetStatusGrows(s.tables.log, va.entry.value, Committed);
    }
  }

  lemma ReserveLog(s: System, c: WithdrawCall)
    ensures var log' := Apply(s, ReserveFunds(c)).tables.log;
            Grows(s.tables.log, log') && StatusesSettle(s.tables.log, log')
  {
    if ReserveTx(s.tables, c).Ok? {
      ReserveEffect(s.tables, c);
    }
  }

  lemma FinishGrows(s: System, record: Id)
    requires StateOk(s) && record in s.open && s.open[record].recorded
    ensures var log' := Apply(s, CommitFinish(record)).tables.log;
            && Grows(s.tables.log, log')
            && (StatusesSettle(s.tables.log, log') <==> !Overturns(s, CommitFinish(record)))
  {
    var t, status := s.tables, s.open[record].status;
    OpenFinishSucceeds(s, record);
    var w := t.withdrawals[record];
    assert WithdrawalOk(t.log, w);
    FinishEffect(t, w.user, w.amount, w.entry.value, status);
    SetStatusGrows(t.log, w.entry.value, status);
    assert ViewOk(ViewOf(s, record));
  }

  /**
   * Every step only appends and changes statuses; a settled status changes exactly when a reversal overturns a
   * callback.
   */
  lemma LogStep(s: System, step: Step)
    requires StateOk(s)
    ensures Grows(s.tables.log, Apply(s, step).tables.log)
    ensures StatusesSettle(s.tables.log, Apply(s, step).tables.log) <==> !Overturns(s, step)
  {
    match step
    case AttemptTransfer(c) => TransferLog(s, c);
    case CreateTopup(c) => TopupLog(s, c);
    case CommitWebhook(va) => WebhookLog(s, va);
    case ReserveFunds(c) => ReserveLog(s, c);
    case CommitFinish(record) => FinishLog(s, record);
    case _ =>
  }

  lemma FinishLog(s: System, record: Id)
    requires StateOk(s)
    ensures var log' := Apply(s, CommitFinish(record)).tables.log;
            && Grows(s.tables.log, log')
            && (StatusesSettle(s.tables.log, log') <==> !Overturns(s, CommitFinish(record)))
  {
    if record in s.open && s.open[record].recorded {
      FinishGrows(s, record);
    }
  }

  lemma GrowsTransitive(a: seq<Entry>, b: seq<Entry>, c: seq<Entry>)
    requires Grows(a, b) && Grows(b, c)
    ensures Grows(a, c)
    ensures StatusesSettle(a, b) && StatusesSettle(b, c) ==> StatusesSettle(a, c)
  {
    forall i | 0 <= i < |a| ensures c[i] == a[i].(status := c[i].status) {
      assert b[i] == a[i].(status := b[i].status) && c[i] == b[i].(status := c[i].status);
    }
    if StatusesSettle(a, b) && StatusesSettle(b, c) {
      forall i | 0 <= i < |a| && a[i].status != Pending ensures c[i].status == a[i].status {
        assert b[i].status == a[i].status;
      }
    }
  }

  /** Over any run the earlier log stays a prefix of the later one, with ids, parties and amounts unchanged. */
  lemma {:induction false} LogOnlyGrows(s: System, steps: seq<Step>)
    requires StateOk(s)
    ensures Grows(s.tables.log, Run(s, steps).tables.log)
  {
    if steps != [] {
      var n := |steps| - 1;
      LogOnlyGrows(s, steps[..n]);
      StateAlways(s, steps[..n]);
      LogStep(Run(s, steps[..n]), steps[n]);
      GrowsTransitive(s.tables.log, Run(s, steps[..n]).tables.log, Run(s, steps).tables.log);
    }
  }

  /** Over the routed endpoints each entry moves at most once, from pending to its final status. */
  lemma {:induction false} EntriesSettleOnce(cfg: Config, before: seq<Step>, steps: seq<Step>)
    requires Routed(before + steps)
    ensures var log, log' := Run(Initial(cfg), before).tables.log, Run(Initial(cfg), before + steps).tables.log;
            Grows(log, log') && StatusesSettle(log, log')
    decreases |steps|
  {
    if steps == [] {
      assert before + steps == before;
    } else {
      var n := |steps| - 1;
      var mid := before + steps[..n];
      assert forall i :: 0 <= i < |mid| ==> mid[i] == (before + steps)[i];
      EntriesSettleOnce(cfg, before, steps[..n]);
      assert mid + [steps[n]] == before + steps;
      RunStep(Initial(cfg), mid, steps[n]);
      SettledAlways(cfg, mid);
      NoOverturn(Run(Initial(cfg), mid), steps[n]);
      LogStep(Run(Initial(cfg), mid), steps[n]);
      GrowsTransitive(Run(Initial(cfg), before).tables.log, Run(Initial(cfg), mid).tables.log,
                      Run(Initial(cfg), before + steps).tables.log);
    }
  }

  lemma NoOverturn(s: System, step: Step)
    requires Settled(s)
    ensures !Overturns(s, step)
  {
    if step.CommitFinish? {
      assert SettledOk(ViewOf(s, step.record));
    }
  }

  // ---------- With callbacks, a committed withdrawal can be overturned ----------

  function NextViews(v: View, steps: seq<Step>): View {
    if steps == [] then v else NextView(NextViews(v, steps[..|steps| - 1]), steps[|steps| - 1], false)
  }

  lemma {:induction false} ViewRun(s: System, steps: seq<Step>, r: Id)
    requires StateOk(s) && forall i :: 0 <= i < |steps| ==> Touches(steps[i], r) && !steps[i].ReserveFunds?
    ensures ViewOf(Run(s, steps), r) == NextViews(ViewOf(s, r), steps)
  {
    if steps != [] {
      var n := |steps| - 1;
      ViewRun(s, steps[..n], r);
      StateAlways(s, steps[..n]);
      ViewStep(Run(s, steps[..n]), steps[n], r);
    }
  }

  lemma NextViewsStep(v: View, steps: seq<Step>, step: Step)
    ensures NextViews(v, steps + [step]) == NextView(NextViews(v, steps), step, false)
  {
    assert (steps + [step])[..|steps|] == steps;
  }

  function CommitSteps(r: Id, status: Status, caller: Caller): seq<Step> {
    [BeginFinish(r, status, caller)] + [RecordFinish(r)] + [CommitFinish(r)]
  }

  lemma FinishedView(v: View, r: Id, status: Status, caller: Caller)
    requires v.present && v.finish == None && status in {Committed, Failed, Timeout}
    requires caller == Request ==> v.awaiting && (status == Committed ==> v.log == Pending)
    requires caller == Callback ==> v.looked && status == Committed && v.log == Pending
    ensures NextViews(v, CommitSteps(r, status, caller)) ==
            v.(record := status, log := status, awaiting := v.awaiting && caller == Callback)
  {
    NextViewsStep(v, [], BeginFinish(r, status, caller));
    NextViewsStep(v, [BeginFinish(r, status, caller)], RecordFinish(r));
    NextViewsStep(v, [BeginFinish(r, status, caller)] + [RecordFinish(r)], CommitFinish(r));
    assert [] + [BeginFinish(r, status, caller)] == [BeginFinish(r, status, caller)];
  }

  /**
   * Why the callback had to be excluded: after any successful reservation, a callback can commit the withdrawal
   * and the bank's error answer, arriving later, still turns the committed entry to failed.
   */
  lemma CallbackCanBeOverturned(s: System, c: WithdrawCall)
    requires StateOk(s) && Reserves(s, ReserveFunds(c))
    ensures var s1 := Run(Apply(s, ReserveFunds(c)), [LookUpCallback(c.record)]);
            var s2 := Run(s1, CommitSteps(c.record, Committed, Callback));
            var s3 := Run(s2, CommitSteps(c.record, Failed, Request));
            LogStatus(s2.tables, c.record) == Committed && LogStatus(s3.tables, c.record) == Failed
  {
    var r := c.record;
    ReserveShape(s.tables, c);
    ViewStep(s, ReserveFunds(c), r);
    assert ViewOk(ViewOf(s, r));
    StateKept(s, ReserveFunds(c));
    var s0 := Apply(s, ReserveFunds(c));
    ReservedThenOverturned(s0, r);
  }

  /** The callback reads the record while it is pending. */
  lemma CallbackReads(s: System, r: Id)
    requires StateOk(s) && ViewOf(s, r) == View(true, Pending, Pending, None, true, ViewOf(s, r).looked, false)
    ensures var s1 := Run(s, [LookUpCallback(r)]);
            StateOk(s1) && ViewOf(s1, r) == View(true, Pending, Pending, None, true, true, false)
  {
    ViewRun(s, [LookUpCallback(r)], r);
    NextViewsStep(ViewOf(s, r), [], LookUpCallback(r));
    assert [] + [LookUpCallback(r)] == [LookUpCallback(r)];
    StateAlways(s, [LookUpCallback(r)]);
  }

  lemma FinishRun(s: System, r: Id, status: Status, caller: Caller)
    requires StateOk(s) && status in {Committed, Failed, Timeout}
    requires ViewOf(s, r).present && ViewOf(s, r).finish == None
    requires caller == Request ==> ViewOf(s, r).awaiting && (status == Committed ==> ViewOf(s, r).log == Pending)
    requires caller == Callback ==> ViewOf(s, r).looked && status == Committed && ViewOf(s, r).log == Pending
    ensures StateOk(Run(s, CommitSteps(r, status, caller)))
    ensures ViewOf(Run(s, CommitSteps(r, status, caller)), r) ==
            ViewOf(s, r).(record := status, log := status, awaiting := ViewOf(s, r).awaiting && caller == Callback)
  {
    StateAlways(s, CommitSteps(r, status, caller));
    ViewRun(s, CommitSteps(r, status, caller), r);
    FinishedView(ViewOf(s, r), r, status, caller);
  }

  lemma ReservedThenOverturned(s: System, r: Id)
    requires StateOk(s) && ViewOf(s, r) == View(true, Pending, Pending, None, true, ViewOf(s, r).looked, false)
    ensures var s1 := Run(s, [LookUpCallback(r)]);
            var s2 := Run(s1, CommitSteps(r, Committed, Callback));
            var s3 := Run(s2, CommitSteps(r, Failed, Request));
            LogStatus(s2.tables, r) == Committed && LogStatus(s3.tables, r) == Failed
  {
    CallbackReads(s, r);
    var s1 := Run(s, [LookUpCallback(r)]);
    FinishRun(s1, r, Committed, Callback);
    var s2 := Run(s1, CommitSteps(r, Committed, Callback));
    FinishRun(s2, r, Failed, Request);
  }
}
