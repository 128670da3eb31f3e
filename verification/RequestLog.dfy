// What the requests executed is what the log shows: at most one effective entry per idempotency key.
module RequestLog {
  import opened Wrappers
  import opened Sums
  import opened Ledger
  import opened Tables
  import opened Transactions
  import opened TransactionEffects
  import opened WalletSystem
  import opened WalletInvariant
  import opened TableShape
  import opened WalletSafety
  import opened WalletHistory
  import opened Requests
  import opened RequestSafety
  import BankService
  import opened Errors

  /** A transfer, a top-up, or a committed withdrawal under this key. */
  function UnitOf(e: Entry, k: string): int {
    if e.key == k && (e.kind == Transfer || e.kind == Topup || (e.kind == Withdraw && e.status == Committed))
    then 1 else 0
  }

  function Unit(k: string): (f: Entry -> int)
    ensures forall e :: f(e) == UnitOf(e, k)
  {
    (e: Entry) => UnitOf(e, k)
  }

  function Effective(log: seq<Entry>, k: string): int {
    Sum(log, Unit(k))
  }

  // ---------- How each wallet step changes the count ----------

  predicate Finalizes(s: System, record: Id) {
    record in s.open && s.open[record] == Finish(Committed, true) && record in s.tables.withdrawals
  }

  /** The effective entries under k that a step adds. */
  function Added(s: System, step: Step, k: string): int {
    match step
    case AttemptTransfer(c) => if c.key == k && TransferTx(s.tables, c, s.cfg).Ok? then 1 else 0
    case CreateTopup(c) => if c.key == k && c.amount > 0 && TopupTx(s.tables, c).Some? then 1 else 0
    case CommitFinish(record) => if Finalizes(s, record) && s.tables.withdrawals[record].key == k then 1 else 0
    case _ => 0
  }

  lemma AppendEffective(log: seq<Entry>, e: Entry, k: string)
    ensures Effective(log + [e], k) == Effective(log, k) + UnitOf(e, k)
  {
    SumAppend(log, e, Unit(k));
  }

  lemma EntriesEffective(log: seq<Entry>, c: TransferCall, q: Quote, k: string)
    requires q.fee > 0 || q.applied
    ensures Effective(log + TransferEntries(c, q), k) == Effective(log, k) + if c.key == k then 1 else 0
  {
    AppendEffective(log, TransferEntry(c), k);
    AppendEffective(log + [TransferEntry(c)], FeeEntry(c, q.fee), k);
    assert log + TransferEntries(c, q) == (log + [TransferEntry(c)]) + [FeeEntry(c, q.fee)];
  }

  lemma TransferEffective(t: Tables, c: TransferCall, cfg: Config, k: string)
    requires TransferTx(t, c, cfg).Ok?
    ensures Effective(TransferTx(t, c, cfg).value.tables.log, k) == Effective(t.log, k) + if c.key == k then 1 else 0
  {
    TransferRows(t, c, cfg);
    EntriesEffective(t.log, c, QuoteFee(c, cfg), k);
  }

  lemma TopupEffective(t: Tables, c: TopupCall, k: string)
    requires TopupTx(t, c).Some?
    ensures Effective(TopupTx(t, c).value.log, k) == Effective(t.log, k) + if c.key == k then 1 else 0
  {
    TopupEffect(t, c);
    AppendEffective(t.log, TopupTx(t, c).value.log[|t.log|], k);
  }

  lemma ReserveEffective(t: Tables, c: WithdrawCall, k: string)
    requires ReserveTx(t, c).Ok?
    ensures Effective(ReserveTx(t, c).value.log, k) == Effective(t.log, k)
  {
    ReserveEffect(t, c);
    AppendEffective(t.log, ReserveTx(t, c).value.log[|t.log|], k);
  }

  lemma WebhookEffective(s: System, va: VA, k: string)
    requires StateOk(s) && va in s.delivered && WebhookTx(s.tables, va).Some?
    ensures Effective(WebhookTx(s.tables, va).value.log, k) == Effective(s.tables.log, k)
  {
    WebhookEffect(s.tables, va);
    assert VAOk(s.tables.log, s.tables.vas[va.number]);
    SumSetStatus(s.tables.log, va.entry.value, Committed, Unit(k));
  }

  /** Over the routed endpoints an open finish still finds its entry pending. */
  lemma FinishEffective(s: System, record: Id, k: string)
    requires StateOk(s) && Settled(s) && record in s.open && s.open[record].recorded
    ensures Effective(Apply(s, CommitFinish(record)).tables.log, k) ==
            Effective(s.tables.log, k) + Added(s, CommitFinish(record), k)
  {
    var t, status := s.tables, s.open[record].status;
    OpenFinishSucceeds(s, record);
    var w := t.withdrawals[record];
    assert WithdrawalOk(t.log, w);
    assert SettledOk(ViewOf(s, record));
    FinishEffect(t, w.user, w.amount, w.entry.value, status);
    SumSetStatus(t.log, w.entry.value, status, Unit(k));
  }

  /** The step adds to the effective entries under k what Added says. */
  ghost predicate Adds(s: System, step: Step, k: string) {
    Effective(Apply(s, step).tables.log, k) == Effective(s.tables.log, k) + Added(s, step, k)
  }

  lemma AttemptAdds(s: System, c: TransferCall, k: string)
    ensures Adds(s, AttemptTransfer(c), k)
  {
    if TransferTx(s.tables, c, s.cfg).Ok? {
      TransferEffective(s.tables, c, s.cfg, k);
    }
  }

  lemma CreateAdds(s: System, c: TopupCall, k: string)
    ensures Adds(s, CreateTopup(c), k)
  {
    if c.amount > 0 && TopupTx(s.tables, c).Some? {
      TopupEffective(s.tables, c, k);
    }
  }

  lemma WebhookAdds(s: System, va: VA, k: string)
    requires StateOk(s)
    ensures Adds(s, CommitWebhook(va), k)
  {
    if va in s.delivered && WebhookTx(s.tables, va).Some? {
      WebhookEffective(s, va, k);
    }
  }

  lemma ReserveAdds(s: System, c: WithdrawCall, k: string)
    ensures Adds(s, ReserveFunds(c), k)
  {
    if c.amount > 0 && ReserveTx(s.tables, c).Ok? {
      ReserveEffective(s.tables, c, k);
    }
  }

  lemma StepEffective(s: System, step: Step, k: string)
    requires StateOk(s) && Settled(s)
    ensures Effective(Apply(s, step).tables.log, k) == Effective(s.tables.log, k) + Added(s, step, k)
  {
    match step
    case AttemptTransfer(c) => AttemptAdds(s, c, k);
    case CreateTopup(c) => CreateAdds(s, c, k);
    case CommitWebhook(va) => WebhookAdds(s, va, k);
    case ReserveFunds(c) => ReserveAdds(s, c, k);
    case CommitFinish(record) => if record in s.open && s.open[record].recorded { FinishEffective(s, record, k); }
    case _ =>
  }

  // ---------- Requests and their withdrawals ----------

  function RecordOf(p: Phase): Option<Id> {
    match p
    case AtBank(record) => Some(record)
    case Committing(record, _) => Some(record)
    case Reversing(record, _) => Some(record)
    case _ => None
  }

  /** What a request in this phase knows about the withdrawal it works on. */
  predicate ViewFits(p: Phase, v: View) {
    match p
    case AtBank(_) => v.present && v.awaiting
    case Committing(_, recorded) => v.present && v.finish == Some(Finish(Committed, recorded))
    case Reversing(_, recorded) =>
      v.present && v.finish.Some? && v.finish.value.status != Committed && v.finish.value.recorded == recorded
    case _ => true
  }

  predicate FlowFits(s: System, f: Flow) {
    RecordOf(f.phase).Some? ==>
      && RecordOf(f.phase).value in s.tables.withdrawals
      && s.tables.withdrawals[RecordOf(f.phase).value].key == f.key
      && ViewFits(f.phase, ViewOf(s, RecordOf(f.phase).value))
  }

  ghost predicate OwnRecords(flows: seq<Flow>) {
    forall i, j :: 0 <= i < j < |flows| && RecordOf(flows[i].phase).Some? ==>
      RecordOf(flows[i].phase) != RecordOf(flows[j].phase)
  }

  ghost predicate FlowsFit(w: World) {
    OwnRecords(w.flows) && forall i :: 0 <= i < |w.flows| ==> FlowFits(w.wallet, w.flows[i])
  }

  /** Outside requests there are only registrations and webhooks: no route calls the withdrawal callback. */
  predicate RoutedStep(step: WorldStep) {
    step.Elsewhere? ==> step.step.Register? || step.step.ReadWebhook? || step.step.CommitWebhook?
  }

  ghost predicate WorldOk(w: World) {
    && StateOk(w.wallet) && Settled(w.wallet) && FlowsFit(w)
    && forall k :: Effective(w.wallet.tables.log, k) == w.executed[k]
  }

  /** The wallet step of an effect adds exactly the execution that the effect counts. */
  predicate Counts(w: World, f: Flow, e: Effect, k: string) {
    (if e.step.Some? then Added(w.wallet, e.step.value, k) else 0) == if e.ran && f.key == k then 1 else 0
  }

  lemma AttemptedCounts(w: World, f: Flow, n: nat, call: TransferCall, fault: Option<Error>, cancelled: bool, k: string)
    requires call.key == f.key
    ensures Counts(w, f, Attempted(w.wallet, n, call, fault, cancelled), k)
  {
  }

  lemma CreatedCounts(w: World, f: Flow, topup: Option<TopupCall>, k: string)
    requires topup.Some? ==> topup.value.key == f.key
    ensures Counts(w, f, Created(w.wallet, topup), k)
  {
  }

  lemma CommitStepCounts(w: World, f: Flow, record: Id, recorded: bool, a: Action, k: string)
    requires FlowFits(w.wallet, f) && f.phase == Committing(record, recorded)
    ensures Counts(w, f, CommitStep(w.wallet, record, recorded, a), k)
  {
  }

  lemma ReversedCounts(w: World, f: Flow, record: Id, recorded: bool, a: Action, k: string)
    requires FlowFits(w.wallet, f) && f.phase == Reversing(record, recorded)
    ensures Counts(w, f, Reversed(w.wallet, record, recorded, a), k)
  {
  }

  /** Every other effect neither executes nor commits. */
  predicate Idle(e: Effect) {
    && !e.ran
    && (e.step.Some? ==>
          !e.step.value.AttemptTransfer? && !e.step.value.CreateTopup? && !e.step.value.CommitFinish?)
  }

  lemma RestIsIdle(w: World, f: Flow, a: Action)
    requires !f.phase.Committing? && !f.phase.Reversing?
    requires !(f.phase.Working? && (a.Attempt? || a.CreateVA?))
    ensures Idle(Perform(w, f, a))
  {
  }

  lemma EffectCounts(w: World, f: Flow, a: Action, k: string)
    requires FlowFits(w.wallet, f)
    ensures Counts(w, f, Perform(w, f, a), k)
  {
    match (f.phase, a)
    case (Working(n), Attempt(call, fault, cancelled)) =>
      if call.key == f.key { AttemptedCounts(w, f, n, call, fault, cancelled, k); }
    case (Working(_), CreateVA(topup)) =>
      if topup.Some? ==> topup.value.key == f.key { CreatedCounts(w, f, topup, k); }
    case (Committing(record, recorded), _) => CommitStepCounts(w, f, record, recorded, a, k);
    case (Reversing(record, recorded), _) => ReversedCounts(w, f, record, recorded, a, k);
    case _ => RestIsIdle(w, f, a);
  }

  // ---------- Requests keep out of each other's withdrawals ----------

  /** The step works on no withdrawal but this one. */
  predicate TouchesOnly(step: Step, record: Option<Id>) {
    match step
    case ReserveFunds(c) => record == Some(c.record)
    case GiveUp(r) => record == Some(r)
    case LookUpCallback(_) => false
    case BeginFinish(r, _, _) => record == Some(r)
    case RecordFinish(r) => record == Some(r)
    case CommitFinish(r) => record == Some(r)
    case AbortFinish(r) => record == Some(r)
    case _ => true
  }

  /** The withdrawal that an effect works on: the request's own, or one that it has just created. */
  function RecordAfter(f: Flow, e: Effect): Option<Id> {
    if e.step.Some? && e.step.value.ReserveFunds? then Some(e.step.value.withdraw.record) else RecordOf(f.phase)
  }

  predicate KeepsOut(s: System, f: Flow, e: Effect) {
    && (e.step.Some? ==> TouchesOnly(e.step.value, RecordAfter(f, e)))
    && (e.step.Some? && e.step.value.ReserveFunds? ==>
          Reserves(s, e.step.value) && RecordOf(f.phase) == None && e.phase == AtBank(e.step.value.withdraw.record)
          && e.step.value.withdraw.key == f.key)
    && (RecordOf(e.phase) == None || RecordOf(e.phase) == RecordAfter(f, e))
  }

  lemma WorkKeepsOut(w: World, f: Flow, a: Action)
    requires f.phase.Working?
    ensures KeepsOut(w.wallet, f, Perform(w, f, a))
  {
  }

  lemma BankKeepsOut(w: World, f: Flow, a: Action)
    requires WithBank(f.phase)
    ensures KeepsOut(w.wallet, f, Perform(w, f, a))
  {
  }

  lemma RedisKeepsOut(w: World, f: Flow, a: Action)
    requires !f.phase.Working? && !WithBank(f.phase)
    ensures KeepsOut(w.wallet, f, Perform(w, f, a))
  {
  }

  lemma PerformKeepsOut(w: World, f: Flow, a: Action)
    ensures KeepsOut(w.wallet, f, Perform(w, f, a))
  {
    if f.phase.Working? {
      WorkKeepsOut(w, f, a);
    } else if WithBank(f.phase) {
      BankKeepsOut(w, f, a);
    } else {
      RedisKeepsOut(w, f, a);
    }
  }

  function WalletAfter(s: System, e: Effect): System {
    if e.step.Some? then Apply(s, e.step.value) else s
  }

  /** A request whose withdrawal the step does not touch is not affected. */
  lemma OtherFlowFits(s: System, step: Step, g: Flow)
    requires StateOk(s) && FlowFits(s, g)
    requires RecordOf(g.phase).Some? ==> !Touches(step, RecordOf(g.phase).value)
    ensures FlowFits(Apply(s, step), g)
  {
    if RecordOf(g.phase).Some? {
      ViewStep(s, step, RecordOf(g.phase).value);
      BankService.StepKeeps(s, step, RecordOf(g.phase).value);
    }
  }

  /** The view moves with the phase, when the effect has a wallet step and goes on with this withdrawal. */
  predicate Follows(s: System, record: Id, e: Effect) {
    e.step.Some? && RecordOf(e.phase).Some? ==> ViewFits(e.phase, NextView(ViewOf(s, record), e.step.value, false))
  }

  lemma AnswerFollows(s: System, record: Id, answer: BankService.BankAnswer, begins: bool)
    requires ViewFits(AtBank(record), ViewOf(s, record))
    ensures Follows(s, record, Requests.Answered(s, record, answer, begins))
  {
  }

  lemma CommitFollows(s: System, record: Id, recorded: bool, a: Action)
    requires ViewFits(Committing(record, recorded), ViewOf(s, record))
    ensures Follows(s, record, CommitStep(s, record, recorded, a))
  {
  }

  lemma ReverseFollows(s: System, record: Id, recorded: bool, a: Action)
    requires ViewFits(Reversing(record, recorded), ViewOf(s, record))
    ensures Follows(s, record, Requests.Reversed(s, record, recorded, a))
  {
  }

  /** The view of the request's own withdrawal moves with the phase. */
  lemma PhaseFollows(w: World, f: Flow, a: Action)
    requires FlowFits(w.wallet, f) && RecordOf(f.phase).Some? && Perform(w, f, a).step.Some?
    ensures var e := Perform(w, f, a);
            RecordOf(e.phase).Some? ==>
              ViewFits(e.phase, NextView(ViewOf(w.wallet, RecordOf(f.phase).value), e.step.value, false))
  {
    match f.phase
    case AtBank(record) => if a.Bank? { AnswerFollows(w.wallet, record, a.answer, a.begins); }
    case Committing(record, recorded) => CommitFollows(w.wallet, record, recorded, a);
    case Reversing(record, recorded) => ReverseFollows(w.wallet, record, recorded, a);
  }

  lemma WorkStays(w: World, f: Flow, a: Action)
    requires f.phase.Working?
    requires FlowFits(w.wallet, f) && Perform(w, f, a).step == None
    ensures RecordOf(Perform(w, f, a).phase).Some? ==> Perform(w, f, a).phase == f.phase
  {
  }

  lemma BankStays(w: World, f: Flow, a: Action)
    requires WithBank(f.phase)
    requires FlowFits(w.wallet, f) && Perform(w, f, a).step == None
    ensures RecordOf(Perform(w, f, a).phase).Some? ==> Perform(w, f, a).phase == f.phase
  {
  }

  lemma RedisStays(w: World, f: Flow, a: Action)
    requires !f.phase.Working? && !WithBank(f.phase)
    requires FlowFits(w.wallet, f) && Perform(w, f, a).step == None
    ensures RecordOf(Perform(w, f, a).phase).Some? ==> Perform(w, f, a).phase == f.phase
  {
  }

  lemma PhaseStays(w: World, f: Flow, a: Action)
    requires FlowFits(w.wallet, f) && Perform(w, f, a).step == None
    ensures RecordOf(Perform(w, f, a).phase).Some? ==> Perform(w, f, a).phase == f.phase
  {
    if f.phase.Working? {
      WorkStays(w, f, a);
    } else if WithBank(f.phase) {
      BankStays(w, f, a);
    } else {
      RedisStays(w, f, a);
    }
  }

  lemma ReservedFits(s: System, c: WithdrawCall, f: Flow)
    requires StateOk(s) && Reserves(s, ReserveFunds(c)) && c.key == f.key && f.phase == AtBank(c.record)
    ensures FlowFits(Apply(s, ReserveFunds(c)), f)
  {
    ViewStep(s, ReserveFunds(c), c.record);
    ReserveShape(s.tables, c);
    ReserveEffect(s.tables, c);
  }

  lemma OwnFlowFits(w: World, f: Flow, a: Action)
    requires StateOk(w.wallet) && FlowFits(w.wallet, f)
    ensures var e := Perform(w, f, a);
            FlowFits(WalletAfter(w.wallet, e), f.(phase := e.phase))
  {
    var e := Perform(w, f, a);
    PerformKeepsOut(w, f, a);
    if RecordOf(e.phase).Some? {
      if e.step == None {
        PhaseStays(w, f, a);
      } else if e.step.value.ReserveFunds? {
        ReservedFits(w.wallet, e.step.value.withdraw, f.(phase := e.phase));
      } else {
        var r := RecordOf(f.phase).value;
        PhaseFollows(w, f, a);
        ViewStep(w.wallet, e.step.value, r);
        BankService.StepKeeps(w.wallet, e.step.value, r);
      }
    }
  }

  /** No other request's withdrawal is touched. */
  lemma OthersUntouched(w: World, id: nat, j: nat, e: Effect)
    requires FlowsFit(w) && id < |w.flows| && j < |w.flows| && j != id && KeepsOut(w.wallet, w.flows[id], e)
    ensures RecordOf(w.flows[j].phase).Some? ==>
              && RecordOf(w.flows[j].phase) != RecordAfter(w.flows[id], e)
              && (e.step.Some? ==> !Touches(e.step.value, RecordOf(w.flows[j].phase).value))
  {
    var f, g := w.flows[id], w.flows[j];
    assert FlowFits(w.wallet, g);
    if RecordOf(g.phase).Some? {
      assert RecordOf(f.phase) != RecordOf(g.phase) by {
        assert id < j || j < id;
      }
    }
  }

  lemma ActFits(w: World, id: nat, a: Action)
    requires StateOk(w.wallet) && FlowsFit(w) && id < |w.flows|
    ensures FlowsFit(ActOn(w, id, Perform(w, w.flows[id], a)))
  {
    var f, e := w.flows[id], Perform(w, w.flows[id], a);
    var w' := ActOn(w, id, e);
    PerformKeepsOut(w, f, a);
    OwnFlowFits(w, f, a);
    forall j | 0 <= j < |w.flows| ensures FlowFits(w'.wallet, w'.flows[j]) {
      if j != id && e.step.Some? {
        OthersUntouched(w, id, j, e);
        OtherFlowFits(w.wallet, e.step.value, w.flows[j]);
      }
    }
    forall i, j | 0 <= i < j < |w.flows| && RecordOf(w'.flows[i].phase).Some?
      ensures RecordOf(w'.flows[i].phase) != RecordOf(w'.flows[j].phase)
    {
      OthersUntouched(w, id, if i == id then j else i, e);
    }
  }

  lemma ActWallet(w: World, id: nat, a: Action)
    requires StateOk(w.wallet) && Settled(w.wallet) && id < |w.flows|
    ensures var s := ActOn(w, id, Perform(w, w.flows[id], a)).wallet;
            StateOk(s) && Settled(s)
  {
    var e := Perform(w, w.flows[id], a);
    PerformKeepsOut(w, w.flows[id], a);
    if e.step.Some? {
      StateKept(w.wallet, e.step.value);
      SettledKept(w.wallet, e.step.value);
    }
  }

  lemma ActCounts(w: World, id: nat, a: Action, k: string)
    requires WorldOk(w) && id < |w.flows|
    ensures var w' := ActOn(w, id, Perform(w, w.flows[id], a));
            Effective(w'.wallet.tables.log, k) == w'.executed[k]
  {
    var f, e := w.flows[id], Perform(w, w.flows[id], a);
    EffectCounts(w, f, a, k);
    if e.step.Some? {
      StepEffective(w.wallet, e.step.value, k);
    }
  }

  lemma ElsewhereKeeps(w: World, step: Step)
    requires WorldOk(w) && (step.Register? || step.ReadWebhook? || step.CommitWebhook?)
    ensures WorldOk(w.(wallet := Apply(w.wallet, step)))
  {
    var s' := Apply(w.wallet, step);
    StateKept(w.wallet, step);
    SettledKept(w.wallet, step);
    forall i | 0 <= i < |w.flows| ensures FlowFits(s', w.flows[i]) {
      OtherFlowFits(w.wallet, step, w.flows[i]);
    }
    forall k ensures Effective(s'.tables.log, k) == w.executed[k] {
      StepEffective(w.wallet, step, k);
    }
  }

  lemma ActKeeps(w: World, id: nat, a: Action)
    requires WorldOk(w) && id < |w.flows|
    ensures WorldOk(ActOn(w, id, Perform(w, w.flows[id], a)))
  {
    var w' := ActOn(w, id, Perform(w, w.flows[id], a));
    ActFits(w, id, a);
    ActWallet(w, id, a);
    forall k ensures Effective(w'.wallet.tables.log, k) == w'.executed[k] {
      ActCounts(w, id, a, k);
    }
  }

  lemma ArriveKeeps(w: World, kind: Kind, key: string)
    requires WorldOk(w)
    ensures WorldOk(w.(flows := w.flows + [Flow(kind, key, Looking)]))
  {
  }

  lemma ExpireKeeps(w: World, key: string)
    requires WorldOk(w)
    ensures WorldOk(w.(store := w.store - {key}))
  {
  }

  lemma NextWorldOk(w: World, step: WorldStep)
    requires WorldOk(w) && RoutedStep(step)
    ensures WorldOk(Next(w, step))
  {
    match step
    case Arrive(kind, key) => ArriveKeeps(w, kind, key);
    case Act(id, a) => if id < |w.flows| { ActKeeps(w, id, a); }
    case Elsewhere(s) => ElsewhereKeeps(w, s);
    case Expire(key) => ExpireKeeps(w, key);
  }

  lemma {:induction false} PlayOk(cfg: Config, steps: seq<WorldStep>)
    requires forall i :: 0 <= i < |steps| ==> RoutedStep(steps[i])
    ensures WorldOk(Play(NewWorld(cfg), steps))
  {
    if steps == [] {
      InitialInv(cfg);
      assert Settled(Initial(cfg));
    } else {
      var n := |steps| - 1;
      PlayOk(cfg, steps[..n]);
      NextWorldOk(Play(NewWorld(cfg), steps[..n]), steps[n]);
    }
  }

  /**
   * As long as no key disappears while it is relied on, the log of the routed system never shows two effective
   * entries for one key: at most one of all transfers, top-ups and committed withdrawals.
   */
  lemma {:induction false} AtMostOneEntryPerKey(cfg: Config, steps: seq<WorldStep>, k: string)
    requires AllowedRun(NewWorld(cfg), steps, {})
    requires forall i :: 0 <= i < |steps| ==> RoutedStep(steps[i])
    ensures 0 <= Effective(Play(NewWorld(cfg), steps).wallet.tables.log, k) <= 1
  {
    PlayOk(cfg, steps);
    AtMostOneExecution(cfg, steps, k);
    var w := Play(NewWorld(cfg), steps);
    assert Effective(w.wallet.tables.log, k) == w.executed[k];
  }
}
