// Every transaction keeps the log, the VAs and the withdrawal records consistent with each other.
module TableShape {
  import opened Wrappers
  import opened Ledger
  import opened Tables
  import opened Transactions
  import opened TransactionEffects
  import opened WalletSystem
  import opened WalletInvariant

  // ---------- Appending an entry ----------

  /** Every row of the old log is still there, unchanged. */
  ghost predicate RowsKept(log: seq<Entry>, log': seq<Entry>) {
    forall id {:trigger Row(log', id)} :: Row(log, id).Some? ==> Row(log', id) == Row(log, id)
  }

  lemma AppendLog(log: seq<Entry>, e: Entry)
    requires LogOk(log) && EntryOk(e) && Row(log, e.id) == None
    ensures LogOk(log + [e]) && RowsKept(log, log + [e]) && Row(log + [e], e.id) == Some(e)
  {
    RowAfterAppend(log, e);
  }

  lemma VAsKept(log: seq<Entry>, log': seq<Entry>, vas: map<string, VA>)
    requires VAsOk(log, vas) && RowsKept(log, log')
    ensures VAsOk(log', vas)
  {
    forall n | n in vas ensures VAOk(log', vas[n]) {
      assert VAOk(log, vas[n]);
    }
  }

  lemma RecordsKept(log: seq<Entry>, log': seq<Entry>, ws: map<Id, Withdrawal>)
    requires RecordsOk(log, ws) && RowsKept(log, log')
    ensures RecordsOk(log', ws)
  {
    forall r | r in ws ensures WithdrawalOk(log', ws[r]) {
      assert WithdrawalOk(log, ws[r]);
    }
  }

  lemma NewVA(log: seq<Entry>, vas: map<string, VA>, va: VA)
    requires VAsOk(log, vas) && va.number !in vas && VAOk(log, va)
    requires forall n :: n in vas ==> vas[n].entry != va.entry
    ensures VAsOk(log, vas[va.number := va])
  {
  }

  lemma NewRecord(log: seq<Entry>, ws: map<Id, Withdrawal>, record: Id, w: Withdrawal)
    requires RecordsOk(log, ws) && record !in ws && WithdrawalOk(log, w)
    requires forall r :: r in ws ==> ws[r].entry != w.entry
    ensures RecordsOk(log, ws[record := w])
  {
  }

  // ---------- Changing a status ----------

  /** After a status update only that row differs, and it differs only in its status. */
  lemma StatusLog(log: seq<Entry>, id: Id, status: Status)
    requires LogOk(log) && Row(log, id).Some? && EntryOk(Row(log, id).value.(status := status))
    ensures LogOk(SetStatus(log, id, status))
  {
    RowAfterSetStatus(log, id, status);
  }

  lemma WebhookVAs(log: seq<Entry>, vas: map<string, VA>, n: string)
    requires LogOk(log) && VAsOk(log, vas) && n in vas
    ensures VAsOk(SetStatus(log, vas[n].entry.value, Committed), vas[n := vas[n].(status := Paid)])
  {
    assert VAOk(log, vas[n]);
    var id := vas[n].entry.value;
    RowAfterSetStatus(log, id, Committed);
    var log', vas' := SetStatus(log, id, Committed), vas[n := vas[n].(status := Paid)];
    forall m | m in vas' ensures VAOk(log', vas'[m]) {
      assert VAOk(log, vas[m]);
    }
  }

  /** Setting the status of a row of another kind leaves the withdrawals' rows alone, and likewise the VAs'. */
  lemma OtherRecords(log: seq<Entry>, ws: map<Id, Withdrawal>, id: Id, status: Status)
    requires LogOk(log) && RecordsOk(log, ws) && Row(log, id).Some? && Row(log, id).value.kind != Withdraw
    ensures RecordsOk(SetStatus(log, id, status), ws)
    ensures forall r :: r in ws ==> Row(SetStatus(log, id, status), ws[r].entry.value) == Row(log, ws[r].entry.value)
  {
    RowAfterSetStatus(log, id, status);
    forall r | r in ws ensures WithdrawalOk(SetStatus(log, id, status), ws[r]) {
      assert WithdrawalOk(log, ws[r]);
    }
  }

  lemma OtherVAs(log: seq<Entry>, vas: map<string, VA>, id: Id, status: Status)
    requires LogOk(log) && VAsOk(log, vas) && Row(log, id).Some? && Row(log, id).value.kind != Topup
    ensures VAsOk(SetStatus(log, id, status), vas)
  {
    RowAfterSetStatus(log, id, status);
    forall n | n in vas ensures VAOk(SetStatus(log, id, status), vas[n]) {
      assert VAOk(log, vas[n]);
    }
  }

  // ---------- Each transaction ----------

  /** The log status behind every withdrawal is the same in both. */
  ghost predicate SameLogStatus(t: Tables, t': Tables) {
    forall r {:trigger LogStatus(t', r)} :: LogStatus(t', r) == LogStatus(t, r)
  }

  lemma RowsKeepStatus(t: Tables, t': Tables)
    requires RecordsOk(t.log, t.withdrawals) && RowsKept(t.log, t'.log) && t'.withdrawals == t.withdrawals
    ensures SameLogStatus(t, t')
  {
    forall r ensures LogStatus(t', r) == LogStatus(t, r) {
      if r in t.withdrawals {
        assert WithdrawalOk(t.log, t.withdrawals[r]);
      }
    }
  }

  lemma TransferShape(t: Tables, c: TransferCall, cfg: Config)
    requires Shape(t) && TransferTx(t, c, cfg).Ok?
    ensures var t' := TransferTx(t, c, cfg).value.tables;
            Shape(t') && SameLogStatus(t, t') && t'.vas == t.vas && t'.withdrawals == t.withdrawals
  {
    var t' := TransferTx(t, c, cfg).value.tables;
    TransferRows(t, c, cfg);
    var fee := FeeEntry(c, QuoteFee(c, cfg).fee);
    var mid := t.log + [TransferEntry(c)];
    AppendLog(t.log, TransferEntry(c));
    AppendLog(mid, fee);
    assert mid + [fee] == t'.log;
    VAsKept(t.log, t'.log, t.vas);
    RecordsKept(t.log, t'.log, t.withdrawals);
    RowsKeepStatus(t, t');
  }

  lemma TopupShape(t: Tables, c: TopupCall)
    requires Shape(t) && c.amount > 0 && TopupTx(t, c).Some?
    ensures var t' := TopupTx(t, c).value;
            && Shape(t') && SameLogStatus(t, t') && t'.withdrawals == t.withdrawals
            && c.number !in t.vas && t'.vas == t.vas[c.number := t'.vas[c.number]]
  {
    var t' := TopupTx(t, c).value;
    TopupEffect(t, c);
    AppendLog(t.log, t'.log[|t.log|]);
    VAsKept(t.log, t'.log, t.vas);
    forall n | n in t.vas ensures t.vas[n].entry != Some(c.entry) {
      assert VAOk(t.log, t.vas[n]);
    }
    NewVA(t'.log, t.vas, t'.vas[c.number]);
    RecordsKept(t.log, t'.log, t.withdrawals);
    RowsKeepStatus(t, t');
  }

  lemma WebhookShape(t: Tables, va: VA)
    requires Shape(t) && WebhookTx(t, va).Some?
    requires va.number in t.vas && t.vas[va.number] == va.(status := t.vas[va.number].status)
    ensures var t' := WebhookTx(t, va).value;
            && Shape(t') && SameLogStatus(t, t') && t'.withdrawals == t.withdrawals
            && t'.vas == t.vas[va.number := t.vas[va.number].(status := Paid)]
  {
    var t' := WebhookTx(t, va).value;
    WebhookEffect(t, va);
    assert VAOk(t.log, t.vas[va.number]);
    StatusLog(t.log, va.entry.value, Committed);
    WebhookVAs(t.log, t.vas, va.number);
    OtherRecords(t.log, t.withdrawals, va.entry.value, Committed);
    forall r ensures LogStatus(t', r) == LogStatus(t, r) {
      if r in t.withdrawals {
        assert WithdrawalOk(t.log, t.withdrawals[r]);
      }
    }
  }

  lemma ReserveShape(t: Tables, c: WithdrawCall)
    requires Shape(t) && c.amount > 0 && ReserveTx(t, c).Ok?
    ensures var t' := ReserveTx(t, c).value;
            && Shape(t') && t'.vas == t.vas && c.record !in t.withdrawals && c.record in t'.withdrawals
            && t'.withdrawals == t.withdrawals[c.record := t'.withdrawals[c.record]]
            && t'.withdrawals[c.record].status == Pending
            && (forall r {:trigger LogStatus(t', r)} ::
                  LogStatus(t', r) == if r == c.record then Pending else LogStatus(t, r))
  {
    var t' := ReserveTx(t, c).value;
    ReserveEffect(t, c);
    AppendLog(t.log, t'.log[|t.log|]);
    VAsKept(t.log, t'.log, t.vas);
    RecordsKept(t.log, t'.log, t.withdrawals);
    forall r | r in t.withdrawals ensures t.withdrawals[r].entry != Some(c.entry) {
      assert WithdrawalOk(t.log, t.withdrawals[r]);
    }
    NewRecord(t'.log, t.withdrawals, c.record, t'.withdrawals[c.record]);
    ReserveStatus(t, t', c.record);
  }

  lemma ReserveStatus(t: Tables, t': Tables, record: Id)
    requires RecordsOk(t.log, t.withdrawals) && RowsKept(t.log, t'.log)
    requires record in t'.withdrawals && t'.withdrawals == t.withdrawals[record := t'.withdrawals[record]]
    requires LogStatus(t', record) == Pending
    ensures forall r {:trigger LogStatus(t', r)} :: LogStatus(t', r) == if r == record then Pending else LogStatus(t, r)
  {
    forall r | r != record ensures LogStatus(t', r) == LogStatus(t, r) {
      if r in t.withdrawals {
        assert WithdrawalOk(t.log, t.withdrawals[r]);
      }
    }
  }

  lemma FinishShape(t: Tables, record: Id, status: Status)
    requires Shape(t) && record in t.withdrawals && TryFinish(t, record, status).Some?
    requires status in {Committed, Failed, Timeout}
    ensures var t' := TryFinish(t, record, status).value;
            && Shape(t') && t'.withdrawals == t.withdrawals && t'.vas == t.vas
            && (forall r {:trigger LogStatus(t', r)} ::
                  LogStatus(t', r) == if r == record then status else LogStatus(t, r))
  {
    var t', w := TryFinish(t, record, status).value, t.withdrawals[record];
    assert WithdrawalOk(t.log, w);
    var id := w.entry.value;
    FinishEffect(t, w.user, w.amount, id, status);
    StatusLog(t.log, id, status);
    OtherVAs(t.log, t.vas, id, status);
    RowAfterSetStatus(t.log, id, status);
    forall r | r in t.withdrawals
      ensures WithdrawalOk(t'.log, t'.withdrawals[r])
    {
      assert WithdrawalOk(t.log, t.withdrawals[r]);
    }
    forall r ensures LogStatus(t', r) == if r == record then status else LogStatus(t, r) {
      if r in t.withdrawals {
        assert WithdrawalOk(t.log, t.withdrawals[r]);
      }
    }
  }

  lemma RelabelShape(t: Tables, record: Id, status: Status)
    requires Shape(t)
    ensures var t' := UpdateWithdrawalStatus(t, record, status);
            Shape(t') && SameLogStatus(t, t') && t'.vas == t.vas
  {
    if record in t.withdrawals {
      RelabelRecord(t.log, t.withdrawals, record, status);
    }
  }

  lemma RelabelRecord(log: seq<Entry>, ws: map<Id, Withdrawal>, record: Id, status: Status)
    requires RecordsOk(log, ws) && record in ws
    ensures RecordsOk(log, ws[record := ws[record].(status := status)])
  {
    var ws' := ws[record := ws[record].(status := status)];
    forall r | r in ws' ensures WithdrawalOk(log, ws'[r]) {
      assert WithdrawalOk(log, ws[r]);
    }
  }
}
