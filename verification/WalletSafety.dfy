// Every step keeps the invariant, so it holds after every run.
module WalletSafety {
  import opened Wrappers
  import opened Ledger
  import opened Tables
  import opened Transactions
  import opened TransactionEffects
  import opened WalletSystem
  import opened WalletInvariant
  import opened TableShape

  ghost predicate StateOk(s: System) {
    Shape(s.tables) && DeliveredOk(s.delivered, s.tables.vas) && Views(s)
  }

  // ---------- The life of one withdrawal ----------

  /** The step works on this withdrawal. */
  predicate Touches(step: Step, r: Id) {
    match step
    case ReserveFunds(c) => c.record == r
    case GiveUp(record) => record == r
    case LookUpCallback(record) => record == r
    case BeginFinish(record, _, _) => record == r
    case RecordFinish(record) => record == r
    case CommitFinish(record) => record == r
    case AbortFinish(record) => record == r
    case _ => false
  }

  predicate Reserves(s: System, step: Step) {
    step.ReserveFunds? && step.withdraw.amount > 0 && ReserveTx(s.tables, step.withdraw).Ok?
  }

  /** What the step does to the view of the withdrawal it works on; reserved says that it created it. */
  function NextView(v: View, step: Step, reserved: bool): View {
    match step
    case ReserveFunds(_) =>
      if reserved then v.(present := true, record := Pending, log := Pending, awaiting := true) else v
    case GiveUp(_) => v.(awaiting := false)
    case LookUpCallback(_) => v.(looked := v.looked || (v.present && v.record == Pending))
    case BeginFinish(_, status, caller) =>
      if !v.present || v.finish.Some? then v
      else if caller == Request then
        if !v.awaiting || status !in {Committed, Failed, Timeout} then v
        else if status == Committed && v.log != Pending then v.(awaiting := false)
        else v.(awaiting := false, finish := Some(Finish(status, false)))
      else
        if v.looked && status == Committed && v.log == Pending then v.(finish := Some(Finish(status, false))) else v
    case RecordFinish(_) =>
      if v.finish.Some? && !v.finish.value.recorded then
        v.(record := v.finish.value.status, finish := Some(v.finish.value.(recorded := true)))
      else v
    case CommitFinish(_) =>
      if v.finish.Some? && v.finish.value.recorded then v.(log := v.finish.value.status, finish := None) else v
    case AbortFinish(_) =>
      if v.finish.Some? then v.(finish := None, torn := v.torn || v.finish.value.recorded) else v
    case _ => v
  }

  /** The row lock lets an open finish commit: its statements succeeded when it began and still do. */
  lemma OpenFinishSucceeds(s: System, record: Id)
    requires Shape(s.tables) && Views(s) && record in s.open
    ensures record in s.tables.withdrawals && TryFinish(s.tables, record, s.open[record].status).Some?
    ensures s.open[record].status in {Committed, Failed, Timeout}
    ensures LogStatus(s.tables, record) in {Pending, Committed}
  {
    assert ViewOk(ViewOf(s, record));
    assert WithdrawalOk(s.tables.log, s.tables.withdrawals[record]);
  }

  /** A finish transaction's statements succeed unless it wants to commit an entry that is not pending. */
  lemma FinishStarts(t: Tables, record: Id, status: Status)
    requires record in t.withdrawals && WithdrawalOk(t.log, t.withdrawals[record])
    ensures TryFinish(t, record, status).Some? <==> (status == Committed ==> LogStatus(t, record) == Pending)
  {
  }

  lemma BegunView(s: System, record: Id, status: Status, caller: Caller, r: Id)
    requires MayBegin(s, record, status, caller)
    requires TryFinish(s.tables, record, status).Some? <==>
             (status == Committed ==> LogStatus(s.tables, record) == Pending)
    ensures ViewOf(Apply(s, BeginFinish(record, status, caller)), r) ==
            if record == r then NextView(ViewOf(s, r), BeginFinish(record, status, caller), false) else ViewOf(s, r)
  {
  }

  lemma NotBegunView(s: System, record: Id, status: Status, caller: Caller, r: Id)
    requires !MayBegin(s, record, status, caller)
    ensures Apply(s, BeginFinish(record, status, caller)) == s
    ensures NextView(ViewOf(s, record), BeginFinish(record, status, caller), false) == ViewOf(s, record)
  {
  }

  lemma BeginView(s: System, record: Id, status: Status, caller: Caller, r: Id)
    requires RecordsOk(s.tables.log, s.tables.withdrawals)
    ensures var step := BeginFinish(record, status, caller);
            ViewOf(Apply(s, step), r) == if record == r then NextView(ViewOf(s, r), step, false) else ViewOf(s, r)
  {
    if MayBegin(s, record, status, caller) {
      assert WithdrawalOk(s.tables.log, s.tables.withdrawals[record]);
      FinishStarts(s.tables, record, status);
      BegunView(s, record, status, caller, r);
    } else {
      NotBegunView(s, record, status, caller, r);
    }
  }

  lemma RecordView(s: System, record: Id, r: Id)
    requires StateOk(s)
    ensures var step := RecordFinish(record);
            ViewOf(Apply(s, step), r) == if record == r then NextView(ViewOf(s, r), step, false) else ViewOf(s, r)
  {
    assert ViewOk(ViewOf(s, record));
    if record in s.open {
      RelabelShape(s.tables, record, s.open[record].status);
    }
  }

  lemma ClosedView(s: System, t': Tables, record: Id, r: Id)
    requires record in s.open && s.open[record].recorded && t'.withdrawals == s.tables.withdrawals
    requires LogStatus(t', r) == if r == record then s.open[record].status else LogStatus(s.tables, r)
    ensures ViewOf(s.(tables := t', open := s.open - {record}), r) ==
            if record == r then NextView(ViewOf(s, r), CommitFinish(record), false) else ViewOf(s, r)
  {
  }

  /** A recorded finish that is open commits. */
  lemma CommitApplies(s: System, record: Id)
    requires StateOk(s) && record in s.open && s.open[record].recorded
    ensures record in s.tables.withdrawals && TryFinish(s.tables, record, s.open[record].status).Some?
    ensures Apply(s, CommitFinish(record)) ==
            s.(tables := TryFinish(s.tables, record, s.open[record].status).value, open := s.open - {record})
  {
    OpenFinishSucceeds(s, record);
  }

  /** Without one, nothing happens. */
  lemma NoCommitView(s: System, record: Id)
    requires !(record in s.open && s.open[record].recorded)
    ensures Apply(s, CommitFinish(record)) == s
    ensures NextView(ViewOf(s, record), CommitFinish(record), false) == ViewOf(s, record)
  {
  }

  lemma CloseView(s: System, record: Id, r: Id)
    requires StateOk(s)
    ensures var step := CommitFinish(record);
            ViewOf(Apply(s, step), r) == if record == r then NextView(ViewOf(s, r), step, false) else ViewOf(s, r)
  {
    if record in s.open && s.open[record].recorded {
      OpenFinishSucceeds(s, record);
      CommitApplies(s, record);
      var t' := TryFinish(s.tables, record, s.open[record].status).value;
      FinishShape(s.tables, record, s.open[record].status);
      ClosedView(s, t', record, r);
    } else {
      NoCommitView(s, record);
    }
  }

  lemma ReservedView(s: System, t': Tables, c: WithdrawCall, r: Id)
    requires c.record in t'.withdrawals && t'.withdrawals[c.record].status == Pending
    requires t'.withdrawals == s.tables.withdrawals[c.record := t'.withdrawals[c.record]]
    requires LogStatus(t', r) == if r == c.record then Pending else LogStatus(s.tables, r)
    ensures ViewOf(s.(tables := t', awaiting := s.awaiting + {c.record}), r) ==
            if c.record == r then NextView(ViewOf(s, r), ReserveFunds(c), true) else ViewOf(s, r)
  {
  }

  lemma ReserveApplies(s: System, c: WithdrawCall)
    ensures Apply(s, ReserveFunds(c)) ==
            if Reserves(s, ReserveFunds(c))
            then s.(tables := ReserveTx(s.tables, c).value, awaiting := s.awaiting + {c.record})
            else s
  {
  }

  lemma ReserveView(s: System, c: WithdrawCall, r: Id)
    requires StateOk(s)
    ensures var step := ReserveFunds(c);
            ViewOf(Apply(s, step), r) ==
            if c.record == r then NextView(ViewOf(s, r), step, Reserves(s, step)) else ViewOf(s, r)
  {
    ReserveApplies(s, c);
    if Reserves(s, ReserveFunds(c)) {
      ReserveShape(s.tables, c);
      ReservedView(s, ReserveTx(s.tables, c).value, c, r);
    }
  }

  /** What a withdrawal looks like depends on its record and on its entry's status. */
  lemma SameView(s: System, t': Tables, r: Id)
    requires t'.withdrawals == s.tables.withdrawals && LogStatus(t', r) == LogStatus(s.tables, r)
    ensures ViewOf(s.(tables := t'), r) == ViewOf(s, r)
  {
  }

  lemma TransferView(s: System, c: TransferCall, r: Id)
    requires StateOk(s)
    ensures ViewOf(Apply(s, AttemptTransfer(c)), r) == ViewOf(s, r)
  {
    if TransferTx(s.tables, c, s.cfg).Ok? {
      TransferShape(s.tables, c, s.cfg);
      SameView(s, TransferTx(s.tables, c, s.cfg).value.tables, r);
    }
  }

  lemma TopupView(s: System, c: TopupCall, r: Id)
    requires StateOk(s)
    ensures ViewOf(Apply(s, CreateTopup(c)), r) == ViewOf(s, r)
  {
    TopupApplies(s, c);
    if c.amount > 0 && TopupTx(s.tables, c).Some? {
      TopupShape(s.tables, c);
      SameView(s, TopupTx(s.tables, c).value, r);
    }
  }

  lemma TopupApplies(s: System, c: TopupCall)
    ensures Apply(s, CreateTopup(c)) ==
            if c.amount > 0 && TopupTx(s.tables, c).Some? then s.(tables := TopupTx(s.tables, c).value) else s
  {
  }

  lemma WebhookView(s: System, va: VA, r: Id)
    requires StateOk(s)
    ensures ViewOf(Apply(s, CommitWebhook(va)), r) == ViewOf(s, r)
  {
    if va in s.delivered && WebhookTx(s.tables, va).Some? {
      WebhookShape(s.tables, va);
      SameView(s, WebhookTx(s.tables, va).value, r);
    }
  }

  lemma OtherView(s: System, step: Step, r: Id)
    requires StateOk(s)
    requires step.Register? || step.AttemptTransfer? || step.CreateTopup? || step.ReadWebhook? || step.CommitWebhook?
    ensures ViewOf(Apply(s, step), r) == ViewOf(s, r)
  {
    match step
    case AttemptTransfer(c) => TransferView(s, c, r);
    case CreateTopup(c) => TopupView(s, c, r);
    case CommitWebhook(va) => WebhookView(s, va, r);
    case _ =>
  }

  lemma PlainView(s: System, step: Step, r: Id)
    requires step.GiveUp? || step.LookUpCallback? || step.AbortFinish?
    ensures ViewOf(Apply(s, step), r) == if Touches(step, r) then NextView(ViewOf(s, r), step, false) else ViewOf(s, r)
  {
  }

  /** Each step moves the one withdrawal it works on as NextView says, and no other. */
  lemma ViewStep(s: System, step: Step, r: Id)
    requires StateOk(s)
    ensures ViewOf(Apply(s, step), r) ==
            if Touches(step, r) then NextView(ViewOf(s, r), step, Reserves(s, step)) else ViewOf(s, r)
  {
    match step
    case ReserveFunds(c) => ReserveView(s, c, r);
    case BeginFinish(record, status, caller) => BeginView(s, record, status, caller, r);
    case RecordFinish(record) => RecordView(s, record, r);
    case CommitFinish(record) => CloseView(s, record, r);
    case GiveUp(_) => PlainView(s, step, r);
    case LookUpCallback(_) => PlainView(s, step, r);
    case AbortFinish(_) => PlainView(s, step, r);
    case _ => OtherView(s, step, r);
  }

  lemma NextViewOk(v: View, step: Step, reserved: bool)
    requires ViewOk(v) && (reserved ==> !v.present)
    ensures ViewOk(NextView(v, step, reserved))
  {
  }

  lemma ViewsKept(s: System, step: Step)
    requires StateOk(s)
    ensures Views(Apply(s, step))
  {
    if Reserves(s, step) {
      ReserveShape(s.tables, step.withdraw);
    }
    forall r ensures ViewOk(ViewOf(Apply(s, step), r)) {
      ViewStep(s, step, r);
      assert ViewOk(ViewOf(s, r));
      if Touches(step, r) {
        NextViewOk(ViewOf(s, r), step, Reserves(s, step));
      }
    }
  }

  // ---------- All steps, all runs ----------

  ghost predicate ShapeOk(s: System) {
    Shape(s.tables) && DeliveredOk(s.delivered, s.tables.vas)
  }

  lemma WithdrawalShapeKept(s: System, step: Step)
    requires StateOk(s) && (step.ReserveFunds? || step.RecordFinish? || step.CommitFinish?)
    ensures ShapeOk(Apply(s, step))
  {
    match step
    case ReserveFunds(c) => if Reserves(s, step) { ReserveShape(s.tables, c); }
    case RecordFinish(record) => if record in s.open { RelabelShape(s.tables, record, s.open[record].status); }
    case CommitFinish(record) =>
      if record in s.open && s.open[record].recorded {
        OpenFinishSucceeds(s, record);
        FinishShape(s.tables, record, s.open[record].status);
      }
  }

  lemma ReadShapeKept(s: System, number: string)
    requires ShapeOk(s)
    ensures ShapeOk(Apply(s, ReadWebhook(number)))
  {
    if number in s.tables.vas {
      assert VAOk(s.tables.log, s.tables.vas[number]);
    }
  }

  lemma TransferKept(s: System, c: TransferCall)
    requires ShapeOk(s) && TransferTx(s.tables, c, s.cfg).Ok?
    ensures ShapeOk(s.(tables := TransferTx(s.tables, c, s.cfg).value.tables))
  {
    TransferShape(s.tables, c, s.cfg);
  }

  lemma TopupKept(s: System, c: TopupCall)
    requires ShapeOk(s) && c.amount > 0 && TopupTx(s.tables, c).Some?
    ensures ShapeOk(s.(tables := TopupTx(s.tables, c).value))
  {
    TopupShape(s.tables, c);
  }

  lemma WebhookKept(s: System, va: VA)
    requires ShapeOk(s) && va in s.delivered && WebhookTx(s.tables, va).Some?
    ensures ShapeOk(s.(tables := WebhookTx(s.tables, va).value))
  {
    WebhookShape(s.tables, va);
  }

  /** Steps that leave log, VAs and records alone. */
  lemma QuietShapeKept(s: System, step: Step)
    requires ShapeOk(s)
    requires step.Register? || step.GiveUp? || step.LookUpCallback? || step.BeginFinish? || step.AbortFinish?
    ensures ShapeOk(Apply(s, step))
  {
  }

  lemma ShapeKept(s: System, step: Step)
    requires StateOk(s)
    ensures ShapeOk(Apply(s, step))
  {
    match step
    case AttemptTransfer(c) => if TransferTx(s.tables, c, s.cfg).Ok? { TransferKept(s, c); }
    case CreateTopup(c) => if c.amount > 0 && TopupTx(s.tables, c).Some? { TopupKept(s, c); }
    case ReadWebhook(number) => ReadShapeKept(s, number);
    case CommitWebhook(va) => if va in s.delivered && WebhookTx(s.tables, va).Some? { WebhookKept(s, va); }
    case ReserveFunds(_) => WithdrawalShapeKept(s, step);
    case RecordFinish(_) => WithdrawalShapeKept(s, step);
    case CommitFinish(_) => WithdrawalShapeKept(s, step);
    case _ => QuietShapeKept(s, step);
  }

  lemma StateKept(s: System, step: Step)
    requires StateOk(s)
    ensures StateOk(Apply(s, step))
  {
    ShapeKept(s, step);
    ViewsKept(s, step);
  }

  lemma FinishAgrees(s: System, record: Id)
    requires Inv(s) && record in s.open
    ensures record in s.tables.withdrawals && TryFinish(s.tables, record, s.open[record].status).Some?
    ensures Agrees(TryFinish(s.tables, record, s.open[record].status).value)
  {
    var status := s.open[record].status;
    OpenFinishSucceeds(s, record);
    FinishInStep(s.tables, record, status);
    AgreesAfter(s.tables, TryFinish(s.tables, record, status).value,
                FinishChange(s.tables.withdrawals[record], status));
  }

  lemma TransactionAgrees(s: System, step: Step)
    requires Inv(s) && (step.AttemptTransfer? || step.CreateTopup? || step.CommitWebhook? || step.ReserveFunds?)
    ensures Agrees(Apply(s, step).tables)
  {
    var t, t' := s.tables, Apply(s, step).tables;
    match step
    case AttemptTransfer(c) =>
      if TransferTx(t, c, s.cfg).Ok? {
        TransferInStep(t, c, s.cfg);
        AgreesAfter(t, t', TransferChange(c, QuoteFee(c, s.cfg).fee));
      }
    case CreateTopup(c) =>
      if c.amount > 0 && TopupTx(t, c).Some? {
        TopupInStep(t, c);
        AgreesAfter(t, t', CreditOnly(c.user, 0));
      }
    case CommitWebhook(va) =>
      if va in s.delivered && WebhookTx(t, va).Some? {
        WebhookInStep(t, va);
        AgreesAfter(t, t', CreditOnly(va.user, va.amount));
      }
    case ReserveFunds(c) =>
      if c.amount > 0 && ReserveTx(t, c).Ok? {
        ReserveInStep(t, c);
        AgreesAfter(t, t', Change(None, 0, Some(c.user), c.amount));
      }
  }

  lemma AgreementKept(s: System, step: Step)
    requires Inv(s)
    ensures Agrees(Apply(s, step).tables)
  {
    match step
    case Register(user) =>
      var t' := SeedBalance(s.tables, user);
      assert forall u :: Balance(t', u) == Balance(s.tables, u);
    case RecordFinish(record) =>
      if record in s.open {
        var t' := UpdateWithdrawalStatus(s.tables, record, s.open[record].status);
        assert forall u :: Balance(t', u) == Balance(s.tables, u);
      }
    case CommitFinish(record) =>
      if record in s.open && s.open[record].recorded {
        FinishAgrees(s, record);
      }
    case AttemptTransfer(_) => TransactionAgrees(s, step);
    case CreateTopup(_) => TransactionAgrees(s, step);
    case CommitWebhook(_) => TransactionAgrees(s, step);
    case ReserveFunds(_) => TransactionAgrees(s, step);
    case _ =>
  }

  lemma InvKept(s: System, step: Step)
    requires Inv(s)
    ensures Inv(Apply(s, step))
  {
    StateKept(s, step);
    AgreementKept(s, step);
  }

  lemma InitialInv(cfg: Config)
    ensures Inv(Initial(cfg))
  {
  }

  /** The invariant holds after every run from a state that satisfies it. */
  lemma {:induction false} InvAlways(s: System, steps: seq<Step>)
    requires Inv(s)
    ensures Inv(Run(s, steps))
  {
    if steps != [] {
      var front := steps[..|steps| - 1];
      InvAlways(s, front);
      InvKept(Run(s, front), steps[|steps| - 1]);
    }
  }

  /** Every state that the wallet reaches from the empty database satisfies the invariant. */
  lemma {:induction false} ReachableInv(cfg: Config, steps: seq<Step>)
    ensures Inv(Run(Initial(cfg), steps))
  {
    InitialInv(cfg);
    InvAlways(Initial(cfg), steps);
  }
}
