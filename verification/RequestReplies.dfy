// What a repeated request is answered with: whose response it is, and what that response says about the log.
module RequestReplies {
  import opened Wrappers
  import opened Ledger
  import opened Tables
  import opened Transactions
  import opened TransactionEffects
  import opened WalletSystem
  import opened WalletInvariant
  import opened WalletSafety
  import opened WalletHistory
  import opened Idempotency
  import opened Requests
  import opened RequestSafety
  import opened RequestLog
  import RequestRaces

  // ---------- Where cached responses come from ----------

  /** Request i has answered with b and cached it at c. */
  predicate Provides(w: World, i: nat, c: string, b: Body) {
    i < |w.flows| && w.flows[i].phase == Completed(b) && CacheKey(w.flows[i]) == c
  }

  ghost predicate Provided(w: World, c: string, b: Body) {
    exists i :: Provides(w, i, c, b)
  }

  predicate RanAt(w: World, i: nat, k: string) {
    i < |w.flows| && RanKey(w.flows[i], k)
  }

  ghost predicate RanOnce(w: World, k: string) {
    exists i :: RanAt(w, i, k)
  }

  /** The request has found its key completed. */
  predicate FoundCompleted(p: Phase) {
    p.Reading? || p.Repeated?
  }

  ghost predicate FlowHonest(w: World, f: Flow) {
    && (FoundCompleted(f.phase) ==> RanOnce(w, f.key))
    && (f.phase.Repeated? ==> Provided(w, CacheKey(f), f.phase.body))
  }

  ghost predicate StoreHonest(w: World, c: string) {
    c in w.store ==>
      match w.store[c]
      case Data(b) => Provided(w, c, b)
      case CompletedMark => RanOnce(w, c)
      case InFlightMark => true
  }

  ghost predicate Honest(w: World) {
    && (forall c :: StoreHonest(w, c))
    && (forall i :: 0 <= i < |w.flows| ==> FlowHonest(w, w.flows[i]))
  }

  /** What an effect may write, and what a request may conclude from the cache. */
  predicate HonestEffect(w: World, f: Flow, e: Effect) {
    && (f.phase.Completed? ==> e.phase == f.phase)
    && (Ran(f.phase) ==> Ran(e.phase))
    && (FoundCompleted(e.phase) && !FoundCompleted(f.phase) ==> Lookup(w.store, f.key) == Some(CompletedMark))
    && (e.phase.Repeated? && f.phase != e.phase ==> Lookup(w.store, CacheKey(f)) == Some(Data(e.phase.body)))
    && (e.put.Some? ==>
          match e.put.value.1
          case Data(b) => e.phase == Completed(b) && e.put.value.0 == CacheKey(f)
          case CompletedMark => Ran(e.phase) && e.put.value.0 == f.key
          case InFlightMark => true)
  }

  lemma WorkHonest(w: World, f: Flow, a: Action)
    requires f.phase.Working?
    ensures HonestEffect(w, f, Perform(w, f, a))
  {
  }

  lemma BankHonest(w: World, f: Flow, a: Action)
    requires WithBank(f.phase)
    ensures HonestEffect(w, f, Perform(w, f, a))
  {
  }

  lemma RedisHonest(w: World, f: Flow, a: Action)
    requires !f.phase.Working? && !WithBank(f.phase)
    ensures HonestEffect(w, f, Perform(w, f, a))
  {
  }

  lemma EffectHonest(w: World, f: Flow, a: Action)
    ensures HonestEffect(w, f, Perform(w, f, a))
  {
    if f.phase.Working? {
      WorkHonest(w, f, a);
    } else if WithBank(f.phase) {
      BankHonest(w, f, a);
    } else {
      RedisHonest(w, f, a);
    }
  }

  lemma ProvidedStays(w: World, id: nat, e: Effect, c: string, b: Body)
    requires id < |w.flows| && HonestEffect(w, w.flows[id], e) && Provided(w, c, b)
    ensures Provided(ActOn(w, id, e), c, b)
  {
    var i :| Provides(w, i, c, b);
    assert Provides(ActOn(w, id, e), i, c, b);
  }

  lemma RanStays(w: World, id: nat, e: Effect, k: string)
    requires id < |w.flows| && HonestEffect(w, w.flows[id], e) && RanOnce(w, k)
    ensures RanOnce(ActOn(w, id, e), k)
  {
    var i :| RanAt(w, i, k);
    assert RanAt(ActOn(w, id, e), i, k);
  }

  lemma ActStoreHonest(w: World, id: nat, e: Effect, c: string)
    requires id < |w.flows| && HonestEffect(w, w.flows[id], e) && StoreHonest(w, c)
    ensures StoreHonest(ActOn(w, id, e), c)
  {
    var w' := ActOn(w, id, e);
    if c in w'.store {
      if e.put.Some? && e.put.value.0 == c {
        match e.put.value.1 {
          case Data(b) => assert Provides(w', id, c, b);
          case CompletedMark => assert RanAt(w', id, c);
          case InFlightMark =>
        }
      } else {
        match w.store[c] {
          case Data(b) => ProvidedStays(w, id, e, c, b);
          case CompletedMark => RanStays(w, id, e, c);
          case InFlightMark =>
        }
      }
    }
  }

  lemma ActFlowHonest(w: World, id: nat, e: Effect, j: nat)
    requires id < |w.flows| && j < |w.flows| && HonestEffect(w, w.flows[id], e) && Honest(w)
    ensures FlowHonest(ActOn(w, id, e), ActOn(w, id, e).flows[j])
  {
    var f, f' := w.flows[j], ActOn(w, id, e).flows[j];
    assert FlowHonest(w, f) && StoreHonest(w, f.key) && StoreHonest(w, CacheKey(f));
    if FoundCompleted(f'.phase) {
      RanStays(w, id, e, f.key);
    }
    if f'.phase.Repeated? {
      ProvidedStays(w, id, e, CacheKey(f), f'.phase.body);
    }
  }

  lemma MoreFlows(w: World, w': World)
    requires Honest(w) && w.store == w'.store && |w.flows| <= |w'.flows| && w'.flows[..|w.flows|] == w.flows
    requires forall i :: |w.flows| <= i < |w'.flows| ==> w'.flows[i].phase == Looking
    ensures Honest(w')
  {
    forall c, b | Provided(w, c, b) ensures Provided(w', c, b) {
      var i :| Provides(w, i, c, b);
      assert Provides(w', i, c, b);
    }
    forall k | RanOnce(w, k) ensures RanOnce(w', k) {
      var i :| RanAt(w, i, k);
      assert RanAt(w', i, k);
    }
    forall c ensures StoreHonest(w', c) {
      assert StoreHonest(w, c);
    }
    forall i | 0 <= i < |w'.flows| ensures FlowHonest(w', w'.flows[i]) {
      if i < |w.flows| {
        assert w'.flows[i] == w.flows[i] && FlowHonest(w, w.flows[i]);
      }
    }
  }

  lemma LessStore(w: World, key: string)
    requires Honest(w)
    ensures Honest(w.(store := w.store - {key}))
  {
    var w' := w.(store := w.store - {key});
    assert forall i, c, b :: Provides(w, i, c, b) ==> Provides(w', i, c, b);
    assert forall i, k :: RanAt(w, i, k) ==> RanAt(w', i, k);
    forall c ensures StoreHonest(w', c) {
      assert StoreHonest(w, c);
    }
    forall i | 0 <= i < |w'.flows| ensures FlowHonest(w', w'.flows[i]) {
      assert FlowHonest(w, w.flows[i]);
    }
  }

  lemma NextHonest(w: World, step: WorldStep)
    requires Honest(w)
    ensures Honest(Next(w, step))
  {
    match step
    case Arrive(kind, key) => MoreFlows(w, Next(w, step));
    case Elsewhere(_) => MoreFlows(w, Next(w, step));
    case Expire(key) => LessStore(w, key);
    case Act(id, a) =>
      if id < |w.flows| {
        var e := Perform(w, w.flows[id], a);
        EffectHonest(w, w.flows[id], a);
        forall c ensures StoreHonest(ActOn(w, id, e), c) {
          ActStoreHonest(w, id, e, c);
        }
        forall j | 0 <= j < |w.flows| ensures FlowHonest(ActOn(w, id, e), ActOn(w, id, e).flows[j]) {
          ActFlowHonest(w, id, e, j);
        }
      }
  }

  /** In every run, whatever expires or is deleted: a cached response is one that a request has answered with. */
  lemma {:induction false} PlayHonest(cfg: Config, steps: seq<WorldStep>)
    ensures Honest(Play(NewWorld(cfg), steps))
  {
    if steps != [] {
      var n := |steps| - 1;
      PlayHonest(cfg, steps[..n]);
      NextHonest(Play(NewWorld(cfg), steps[..n]), steps[n]);
    }
  }

  // ---------- What a response says about the log ----------

  /** The response is of the kind that requests of this kind answer with. */
  predicate Fits(kind: Kind, b: Body) {
    match kind
    case ForTransfer => b.TransferBody?
    case ForTopup => b.TopupBody?
    case ForWithdraw => b.WithdrawBody?
  }

  /** The response names this entry. */
  predicate NamedBy(e: Entry, b: Body) {
    match b
    case TransferBody(r) => e.kind == Transfer && e.id == r.entry && e.amount == r.amount
    case TopupBody(entry, _, amount) => e.kind == Topup && e.id == entry && e.amount == amount
    case WithdrawBody(entry, amount) => e.kind == Withdraw && e.id == entry && e.amount == amount
  }

  predicate NamesAt(log: seq<Entry>, i: nat, k: string, b: Body) {
    i < |log| && NamedBy(log[i], b) && UnitOf(log[i], k) == 1
  }

  /** The response names an effective entry under this key. */
  ghost predicate Names(log: seq<Entry>, k: string, b: Body) {
    exists i :: NamesAt(log, i, k, b)
  }

  function BodyIn(p: Phase): Option<Body> {
    match p
    case Storing(b) => Some(b)
    case StoringData(b) => Some(b)
    case Completed(b) => Some(b)
    case _ => None
  }

  /** A request that took effect answers with its own entry. */
  ghost predicate Truthful(log: seq<Entry>, f: Flow) {
    BodyIn(f.phase).Some? ==> Fits(f.kind, BodyIn(f.phase).value) && Names(log, f.key, BodyIn(f.phase).value)
  }

  lemma NamesStays(s: System, step: Step, k: string, b: Body)
    requires StateOk(s) && Settled(s) && Names(s.tables.log, k, b)
    ensures Names(Apply(s, step).tables.log, k, b)
  {
    LogStep(s, step);
    NoOverturn(s, step);
    NamesGrow(s.tables.log, Apply(s, step).tables.log, k, b);
  }

  lemma NamesGrow(log: seq<Entry>, log': seq<Entry>, k: string, b: Body)
    requires Grows(log, log') && StatusesSettle(log, log') && Names(log, k, b)
    ensures Names(log', k, b)
  {
    var i :| NamesAt(log, i, k, b);
    assert NamesAt(log', i, k, b);
  }

  lemma ReceiptNames(t: Tables, c: TransferCall, cfg: Config)
    requires TransferTx(t, c, cfg).Ok?
    ensures var done := TransferTx(t, c, cfg).value;
            Names(done.tables.log, c.key, TransferBody(done.receipt))
  {
    TransferRows(t, c, cfg);
    TransferBalances(t, c, cfg);
    var done := TransferTx(t, c, cfg).value;
    assert NamesAt(done.tables.log, |t.log|, c.key, TransferBody(done.receipt));
  }

  lemma AttemptNames(s: System, c: TransferCall)
    requires TransferTx(s.tables, c, s.cfg).Ok?
    ensures Names(Apply(s, AttemptTransfer(c)).tables.log, c.key,
                  TransferBody(TransferTx(s.tables, c, s.cfg).value.receipt))
  {
    ReceiptNames(s.tables, c, s.cfg);
  }

  lemma AttemptedRuns(s: System, n: nat, call: TransferCall, fault: Option<Errors.Error>, cancelled: bool)
    requires Attempted(s, n, call, fault, cancelled).ran
    ensures var e := Attempted(s, n, call, fault, cancelled);
            && TransferTx(s.tables, call, s.cfg).Ok? && e.step == Some(AttemptTransfer(call))
            && e.phase == Storing(TransferBody(TransferTx(s.tables, call, s.cfg).value.receipt))
  {
  }

  lemma TransferNames(w: World, f: Flow, n: nat, call: TransferCall, fault: Option<Errors.Error>, cancelled: bool)
    requires call.key == f.key && Attempted(w.wallet, n, call, fault, cancelled).ran
    ensures var e := Attempted(w.wallet, n, call, fault, cancelled);
            && BodyIn(e.phase).Some? && BodyIn(e.phase).value.TransferBody?
            && Names(WalletAfter(w.wallet, e).tables.log, f.key, BodyIn(e.phase).value)
  {
    var e := Attempted(w.wallet, n, call, fault, cancelled);
    AttemptedRuns(w.wallet, n, call, fault, cancelled);
    AttemptNames(w.wallet, call);
    assert WalletAfter(w.wallet, e) == Apply(w.wallet, AttemptTransfer(call));
  }

  lemma TopupNames(w: World, f: Flow, topup: Option<TopupCall>)
    requires topup.Some? && topup.value.key == f.key && Created(w.wallet, topup).ran
    ensures var e := Created(w.wallet, topup);
            && BodyIn(e.phase).Some? && BodyIn(e.phase).value.TopupBody?
            && Names(WalletAfter(w.wallet, e).tables.log, f.key, BodyIn(e.phase).value)
  {
    var e, s := Created(w.wallet, topup), w.wallet;
    TopupEffect(s.tables, topup.value);
    assert NamesAt(WalletAfter(s, e).tables.log, |s.tables.log|, f.key, BodyIn(e.phase).value);
  }

  lemma FinishNames(s: System, record: Id)
    requires StateOk(s) && Settled(s) && record in s.tables.withdrawals
    requires record in s.open && s.open[record] == Finish(Committed, true)
    ensures Names(Apply(s, CommitFinish(record)).tables.log, s.tables.withdrawals[record].key,
                  PaidBody(s.tables, record))
  {
    OpenFinishSucceeds(s, record);
    var t := s.tables;
    var r := t.withdrawals[record];
    assert WithdrawalOk(t.log, r);
    FinishEffect(t, r.user, r.amount, r.entry.value, Committed);
    assert NamesAt(Apply(s, CommitFinish(record)).tables.log, Position(t.log, r.entry.value), r.key,
                   PaidBody(t, record));
  }

  lemma CommitStepRuns(s: System, record: Id, recorded: bool, a: Action)
    requires CommitStep(s, record, recorded, a).ran
    ensures var e := CommitStep(s, record, recorded, a);
            recorded && e.phase == Storing(PaidBody(s.tables, record)) && e.step == Some(CommitFinish(record))
  {
  }

  lemma ReadyToCommit(s: System, f: Flow, record: Id)
    requires FlowFits(s, f) && f.phase == Committing(record, true)
    ensures record in s.tables.withdrawals && s.tables.withdrawals[record].key == f.key
    ensures record in s.open && s.open[record] == Finish(Committed, true)
  {
  }

  lemma WithdrawNames(w: World, f: Flow, record: Id, recorded: bool, a: Action)
    requires StateOk(w.wallet) && Settled(w.wallet) && FlowFits(w.wallet, f) && f.phase == Committing(record, recorded)
    requires CommitStep(w.wallet, record, recorded, a).ran
    ensures var e := CommitStep(w.wallet, record, recorded, a);
            && BodyIn(e.phase).Some? && BodyIn(e.phase).value.WithdrawBody?
            && Names(WalletAfter(w.wallet, e).tables.log, f.key, BodyIn(e.phase).value)
  {
    var e := CommitStep(w.wallet, record, recorded, a);
    CommitStepRuns(w.wallet, record, recorded, a);
    ReadyToCommit(w.wallet, f, record);
    FinishNames(w.wallet, record);
    assert WalletAfter(w.wallet, e) == Apply(w.wallet, CommitFinish(record));
  }

  /** Only the three executions begin to answer, each with the response of its kind. */
  lemma BodiesArise(w: World, f: Flow, a: Action)
    ensures var e := Perform(w, f, a);
            && (BodyIn(e.phase).Some? && BodyIn(e.phase) != BodyIn(f.phase) ==>
                  e.ran && (f.phase.Working? || f.phase.Committing?))
            && (e.ran && f.phase.Working? ==>
                  || (a.Attempt? && f.kind == ForTransfer && a.call.key == f.key
                      && e == Attempted(w.wallet, f.phase.attempts, a.call, a.fault, a.cancelled))
                  || (a.CreateVA? && f.kind == ForTopup && a.topup.Some? && a.topup.value.key == f.key
                      && e == Created(w.wallet, a.topup)))
  {
  }

  lemma ActTruthful(w: World, f: Flow, a: Action)
    requires StateOk(w.wallet) && Settled(w.wallet) && FlowFits(w.wallet, f) && Truthful(w.wallet.tables.log, f)
    requires f.phase.Committing? ==> f.kind == ForWithdraw
    ensures var e := Perform(w, f, a);
            Truthful(WalletAfter(w.wallet, e).tables.log, f.(phase := e.phase))
  {
    var e := Perform(w, f, a);
    BodiesArise(w, f, a);
    if BodyIn(e.phase).Some? {
      if BodyIn(e.phase) == BodyIn(f.phase) {
        if e.step.Some? { NamesStays(w.wallet, e.step.value, f.key, BodyIn(f.phase).value); }
      } else if f.phase.Committing? {
        WithdrawNames(w, f, f.phase.record, f.phase.recorded, a);
      } else if a.Attempt? {
        TransferNames(w, f, f.phase.attempts, a.call, a.fault, a.cancelled);
      } else {
        TopupNames(w, f, a.topup);
      }
    }
  }

  /** Only withdrawals wait for the bank. */
  predicate OwnPhase(f: Flow) {
    RecordOf(f.phase).Some? ==> f.kind == ForWithdraw
  }

  lemma PerformKeepsKind(w: World, f: Flow, a: Action)
    requires OwnPhase(f)
    ensures OwnPhase(f.(phase := Perform(w, f, a).phase))
  {
  }

  ghost predicate AllTruthful(w: World) {
    forall i :: 0 <= i < |w.flows| ==> Truthful(w.wallet.tables.log, w.flows[i]) && OwnPhase(w.flows[i])
  }

  lemma OthersTruthful(s: System, step: Step, f: Flow)
    requires StateOk(s) && Settled(s) && Truthful(s.tables.log, f)
    ensures Truthful(Apply(s, step).tables.log, f)
  {
    if BodyIn(f.phase).Some? {
      NamesStays(s, step, f.key, BodyIn(f.phase).value);
    }
  }

  lemma NextTruthful(w: World, step: WorldStep)
    requires WorldOk(w) && AllTruthful(w)
    ensures AllTruthful(Next(w, step))
  {
    match step
    case Act(id, a) =>
      if id < |w.flows| {
        var f, e := w.flows[id], Perform(w, w.flows[id], a);
        assert FlowFits(w.wallet, f) && Truthful(w.wallet.tables.log, f);
        ActTruthful(w, f, a);
        PerformKeepsKind(w, f, a);
        forall j | 0 <= j < |w.flows| && j != id ensures Truthful(WalletAfter(w.wallet, e).tables.log, w.flows[j]) {
          assert Truthful(w.wallet.tables.log, w.flows[j]);
          if e.step.Some? { OthersTruthful(w.wallet, e.step.value, w.flows[j]); }
        }
      }
    case Elsewhere(s) =>
      forall j | 0 <= j < |w.flows| ensures Truthful(Apply(w.wallet, s).tables.log, w.flows[j]) {
        OthersTruthful(w.wallet, s, w.flows[j]);
      }
    case _ =>
  }

  lemma {:induction false} PlayTruthful(cfg: Config, steps: seq<WorldStep>)
    requires forall i :: 0 <= i < |steps| ==> RoutedStep(steps[i])
    ensures AllTruthful(Play(NewWorld(cfg), steps))
  {
    if steps != [] {
      var n := |steps| - 1;
      PlayTruthful(cfg, steps[..n]);
      PlayOk(cfg, steps[..n]);
      NextTruthful(Play(NewWorld(cfg), steps[..n]), steps[n]);
    }
  }

  // ---------- A repeated request ----------

  /** An entry is under one key only. */
  lemma NamesOneKey(log: seq<Entry>, k: string, m: string, b: Body)
    requires UniqueIds(log) && Names(log, k, b) && Names(log, m, b)
    ensures k == m
  {
    var i: nat :| NamesAt(log, i, k, b);
    var j: nat :| NamesAt(log, j, m, b);
    assert log[i].id == log[j].id;
  }

  /**
   * In every run of the routed system a repeated request is answered with the response of a request that took effect
   * and shares its cache key. The response names the effective entry under the repeated key if and only if both
   * requests cache under the same suffix (otherwise one key is the other with ":wd" appended), and it has the
   * repeated request's kind if and only if both are of that kind.
   */
  lemma {:induction false} RepeatedReply(cfg: Config, steps: seq<WorldStep>, j: nat) returns (p: nat)
    requires forall i :: 0 <= i < |steps| ==> RoutedStep(steps[i])
    requires j < |Play(NewWorld(cfg), steps).flows| && Play(NewWorld(cfg), steps).flows[j].phase.Repeated?
    ensures var w := Play(NewWorld(cfg), steps);
            var f, b := w.flows[j], w.flows[j].phase.body;
            && RanOnce(w, f.key) && Provides(w, p, CacheKey(f), b) && Names(w.wallet.tables.log, w.flows[p].key, b)
            && (Names(w.wallet.tables.log, f.key, b) <==> Suffix(w.flows[p].kind) == Suffix(f.kind))
            && (Fits(f.kind, b) <==> w.flows[p].kind == f.kind)
            && (Suffix(w.flows[p].kind) != Suffix(f.kind) ==> AddsWd(w.flows[p].key, f.key))
  {
    PlayHonest(cfg, steps);
    PlayTruthful(cfg, steps);
    PlayOk(cfg, steps);
    p := ReplyIn(Play(NewWorld(cfg), steps), j);
  }

  lemma ReplyIn(w: World, j: nat) returns (p: nat)
    requires Honest(w) && AllTruthful(w) && WorldOk(w)
    requires j < |w.flows| && w.flows[j].phase.Repeated?
    ensures var f, b := w.flows[j], w.flows[j].phase.body;
            && RanOnce(w, f.key) && Provides(w, p, CacheKey(f), b) && Names(w.wallet.tables.log, w.flows[p].key, b)
            && (Names(w.wallet.tables.log, f.key, b) <==> Suffix(w.flows[p].kind) == Suffix(f.kind))
            && (Fits(f.kind, b) <==> w.flows[p].kind == f.kind)
            && (Suffix(w.flows[p].kind) != Suffix(f.kind) ==> AddsWd(w.flows[p].key, f.key))
  {
    var f, b, log := w.flows[j], w.flows[j].phase.body, w.wallet.tables.log;
    assert FlowHonest(w, f);
    p :| Provides(w, p, CacheKey(f), b);
    assert Truthful(log, w.flows[p]);
    SameCacheKey(w.flows[p], f);
    if Names(log, f.key, b) {
      NamesOneKey(log, f.key, w.flows[p].key, b);
    }
  }

  /** One key is the other with ":wd" appended. */
  predicate AddsWd(k: string, m: string) {
    k == m + ":wd" || m == k + ":wd"
  }

  /** Cache keys of one suffix belong to one key; of two, to a key and the same key with ":wd" appended. */
  lemma SameCacheKey(f: Flow, g: Flow)
    requires CacheKey(f) == CacheKey(g)
    ensures f.key == g.key <==> Suffix(f.kind) == Suffix(g.kind)
    ensures Suffix(f.kind) == Suffix(g.kind) || AddsWd(f.key, g.key)
  {
    SplitSuffix(f);
    SplitSuffix(g);
  }

  lemma SplitSuffix(f: Flow)
    ensures f.kind == ForWithdraw ==> CacheKey(f) == (f.key + ":wd") + CachedSuffix
    ensures f.key == CacheKey(f)[..|CacheKey(f)| - |Suffix(f.kind)|]
  {
  }

  /**
   * As long as no key disappears while it is relied on, exactly one request took effect under the repeated key; if
   * the provider caches under the same suffix, it is that request, and the reply is the executed request's own.
   */
  lemma {:induction false} RepeatsTheExecution(cfg: Config, steps: seq<WorldStep>, j: nat, p: nat)
    requires AllowedRun(NewWorld(cfg), steps, {})
    requires j < |Play(NewWorld(cfg), steps).flows| && Play(NewWorld(cfg), steps).flows[j].phase.Repeated?
    requires var w := Play(NewWorld(cfg), steps);
             && Provides(w, p, CacheKey(w.flows[j]), w.flows[j].phase.body)
             && Suffix(w.flows[p].kind) == Suffix(w.flows[j].kind)
    ensures var w := Play(NewWorld(cfg), steps);
            w.executed[w.flows[j].key] == 1 && forall i: nat :: RanAt(w, i, w.flows[j].key) <==> i == p
  {
    var w := Play(NewWorld(cfg), steps);
    var k := w.flows[j].key;
    RunsKeepKeys(NewWorld(cfg), steps, k);
    SameCacheKey(w.flows[p], w.flows[j]);
    assert RanKey(w.flows[p], k) && RequestSafety.FlowOk(w, w.flows[p], k);
    forall i: nat | RanAt(w, i, k) ensures i == p {
      assert i < p || i == p || p < i;
    }
  }

  // ---------- The wrong kind of response ----------

  lemma Repeats(w: World, n: nat, key: string, body: Body) returns (steps: seq<WorldStep>, v: World)
    requires n < |w.flows| && w.flows[n] == Flow(ForTransfer, key, Looking)
    requires Lookup(w.store, key) == Some(CompletedMark) && Lookup(w.store, key + CachedSuffix) == Some(Data(body))
    ensures v == w.(flows := w.flows[n := Flow(ForTransfer, key, Repeated(body))])
    ensures RequestRaces.Leads(w, steps, v, {})
  {
    var u := w.(flows := w.flows[n := Flow(ForTransfer, key, Reading)]);
    v := w.(flows := w.flows[n := Flow(ForTransfer, key, Repeated(body))]);
    var a := RequestRaces.Single(w, Act(n, Look(true)), {});
    var b := RequestRaces.Single(u, Act(n, Look(true)), {});
    assert u.flows[n := Flow(ForTransfer, key, Repeated(body))] == v.flows;
    steps := RequestRaces.Then(w, a, u, b, v, {});
  }

  /**
   * A transfer whose key a top-up has used is answered with the top-up's response, although nothing was
   * transferred.
   */
  lemma TransferGetsTopupReply(cfg: Config, c: TopupCall) returns (steps: seq<WorldStep>)
    requires c.key != "" && c.amount > 0
    ensures AllowedRun(NewWorld(cfg), steps, {})
    ensures Play(NewWorld(cfg), steps).flows ==
            [Flow(ForTopup, c.key, Completed(RequestRaces.BodyOf(c))),
             Flow(ForTransfer, c.key, Repeated(RequestRaces.BodyOf(c)))]
  {
    var w, body := NewWorld(cfg), RequestRaces.BodyOf(c);
    var a, u := RequestRaces.Answers(w, c, {});
    var v := RequestRaces.With(u, Flow(ForTransfer, c.key, Looking));
    var b := RequestRaces.Arrives(u, ForTransfer, c.key, {});
    var ab := RequestRaces.Then(w, a, u, b, v, {});
    var d, end := Repeats(v, 1, c.key, body);
    steps := RequestRaces.Then(w, ab, v, d, end, {});
  }
}
