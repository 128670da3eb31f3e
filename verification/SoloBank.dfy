// A top-up or withdrawal request of the concurrent system, interrupted by webhooks and callbacks only, does exactly
// what the bank service does.
module SoloBank {
  import opened Wrappers
  import opened Ledger
  import opened Tables
  import opened Transactions
  import opened WalletSystem
  import opened Idempotency
  import opened BankService
  import opened Requests
  import Errors
  import opened SoloSteps

  // ---------- The wallet side of a step ----------

  /** The world in which request n has come to this phase, with this wallet; ran counts an execution. */
  function Moved(w: World, n: nat, phase: Phase, wallet: System, ran: bool): World
    requires n < |w.flows|
  {
    World(wallet, w.store, w.flows[n := w.flows[n].(phase := phase)],
          if ran then w.executed + multiset{w.flows[n].key} else w.executed)
  }

  lemma MovedAgain(w: World, n: nat, p: Phase, s: System, q: Phase, t: System, ran: bool)
    requires n < |w.flows|
    ensures Moved(Moved(w, n, p, s, false), n, q, t, ran) == Moved(w, n, q, t, ran)
  {
  }

  /** The world when request n has been answered. */
  function Answered(w: World, n: nat, reply: Reply, wallet: System, store: Store): World
    requires n < |w.flows|
  {
    Moved(At(w, n, EndOf(reply), store), n, EndOf(reply), wallet, reply.Fresh?)
  }

  /** The marker is given back. */
  lemma Releases(w: World, n: nat, net: Net) returns (steps: seq<WorldStep>)
    requires n < |w.flows| && w.flows[n].kind != ForTransfer && w.flows[n].phase == Clearing
    ensures Play(w, steps) == At(w, n, Ended, Released(w.store, w.flows[n].key, net))
  {
    steps := Writes(w, n, !Drops(net, ClearMarker));
  }

  /** What a reply leaves in the cache: the cached response, or no marker. */
  function Left(m: Store, f: Flow, reply: Reply, net: Net): Store {
    if reply.Fresh? then CacheKeys(m, f.key, Suffix(f.kind), reply.body, Drops(net, SetStatus), Drops(net, SetData))
    else Released(m, f.key, net)
  }

  /** The reply to a request that has done its work, or has failed and gives the marker back. */
  lemma Replies(w: World, n: nat, p: Phase, s: System, reply: Reply, net: Net) returns (steps: seq<WorldStep>)
    requires n < |w.flows| && w.flows[n].kind != ForTransfer && !reply.Cached?
    requires p == if reply.Fresh? then Storing(reply.body) else Clearing
    ensures Play(Moved(w, n, p, s, reply.Fresh?), steps) ==
            Answered(w, n, reply, s, Left(w.store, w.flows[n], reply, net))
  {
    var v, store := Moved(w, n, p, s, reply.Fresh?), Left(w.store, w.flows[n], reply, net);
    if reply.Fresh? {
      steps := Caches(v, n, reply.body, Drops(net, SetStatus), Drops(net, SetData));
    } else {
      steps := Releases(v, n, net);
    }
    assert At(v, n, EndOf(reply), store).flows == Answered(w, n, reply, s, store).flows;
  }

  // ---------- Top-up ----------

  lemma Creates(w: World, n: nat, topup: Option<TopupCall>) returns (steps: seq<WorldStep>)
    requires n < |w.flows| && w.flows[n].kind == ForTopup && w.flows[n].phase == Working(0)
    requires topup.Some? ==>
               && topup.value.key == w.flows[n].key && topup.value.amount > 0
               && TopupTx(w.wallet.tables, topup.value).Some?
    ensures Play(w, steps) ==
            match topup
            case Some(c) =>
              Moved(w, n, Storing(TopupBody(c.entry, c.number, c.amount)), Apply(w.wallet, CreateTopup(c)), true)
            case None => Moved(w, n, Clearing, w.wallet, false)
  {
    steps := Acts(w, n, CreateVA(topup), Created(w.wallet, topup));
  }

  lemma CreatesAndReplies(w: World, n: nat, user: User, req: TopupRequest, o: TopupOracle)
    returns (steps: seq<WorldStep>, reply: Reply)
    requires n < |w.flows| && w.flows[n] == Flow(ForTopup, req.key, Working(0)) && req.amount > 0
    ensures var u := Play(w, steps);
            && ToppedUp(w.wallet, u.wallet, w.store, u.store, user, req, o, reply)
            && u == Answered(w, n, reply, u.wallet, u.store)
  {
    var plan := TopupPlan(w.wallet.tables, user, req, o);
    var topup, p, s := None, Clearing, w.wallet;
    if plan.Ok? {
      var body := TopupBody(plan.value.entry, plan.value.number, plan.value.amount);
      topup, p, s, reply := Some(plan.value), Storing(body), Apply(w.wallet, CreateTopup(plan.value)), Fresh(body);
    } else {
      reply := Refused(plan.error);
    }
    var a := Creates(w, n, topup);
    var b := Replies(w, n, p, s, reply, o.net);
    steps := Then(w, a, Moved(w, n, p, s, reply.Fresh?), b,
                  Answered(w, n, reply, s, Left(w.store, w.flows[n], reply, o.net)));
  }

  /** The request ends with the wallet, cache and reply of RequestTopup, and counts as executed exactly on success. */
  lemma SoloTopup(w: World, n: nat, user: User, req: TopupRequest, o: TopupOracle)
    returns (steps: seq<WorldStep>, reply: Reply)
    requires n < |w.flows| && w.flows[n] == Flow(ForTopup, req.key, Looking)
    requires ValidateTopup(req) == None && Admit(w.store, req.key, CachedSuffix, o.net) == None
    ensures var u := Play(w, steps);
            && ToppedUp(w.wallet, u.wallet, w.store[req.key := InFlightMark], u.store, user, req, o, reply)
            && u == Answered(w, n, reply, u.wallet, u.store)
  {
    var w1 := At(w, n, Working(0), w.store[req.key := InFlightMark]);
    var a := GetsMarker(w, n);
    var b;
    b, reply := CreatesAndReplies(w1, n, user, req, o);
    var u := Play(w1, b);
    AnsweredFromMarker(w, n, w1.store, reply, u.wallet, u.store);
    steps := Then(w, a, w1, b, u);
  }

  lemma AnsweredFromMarker(w: World, n: nat, marked: Store, reply: Reply, s: System, store: Store)
    requires n < |w.flows|
    ensures Answered(At(w, n, Working(0), marked), n, reply, s, store) == Answered(w, n, reply, s, store)
  {
  }

  // ---------- Withdrawal: the bank's answer ----------

  /** The request still waits for the bank, with its row in place. */
  predicate Waiting(w: World, n: nat, record: Id) {
    && n < |w.flows| && w.flows[n].kind == ForWithdraw && w.flows[n].phase == AtBank(record)
    && record in w.wallet.awaiting && record in w.wallet.tables.withdrawals
    && w.wallet.tables.withdrawals[record].entry.Some?
  }

  /** The bank has refused or confirmed. */
  predicate Decided(answer: BankAnswer) {
    answer.BankError? || answer == BankResult(true)
  }

  predicate Starts(s: System, record: Id, answer: BankAnswer) {
    && record in s.tables.withdrawals && MayBegin(s, record, FinalStatus(answer), Request)
    && TryFinish(s.tables, record, FinalStatus(answer)).Some?
  }

  function FinishPhase(record: Id, answer: BankAnswer, recorded: bool): Phase {
    if FinalStatus(answer) == Committed then Committing(record, recorded) else Reversing(record, recorded)
  }

  function FailPhase(answer: BankAnswer): Phase {
    if FinalStatus(answer) == Committed then Clearing else Ended
  }

  lemma Begins(w: World, n: nat, record: Id, answer: BankAnswer) returns (steps: seq<WorldStep>)
    requires Waiting(w, n, record) && Decided(answer) && Starts(w.wallet, record, answer)
    ensures Play(w, steps) ==
            Moved(w, n, FinishPhase(record, answer, false),
                  Apply(w.wallet, BeginFinish(record, FinalStatus(answer), Request)), false)
  {
    steps := Acts(w, n, Bank(answer, true), Requests.Answered(w.wallet, record, answer, true));
  }

  lemma GivesUp(w: World, n: nat, record: Id, answer: BankAnswer, begins: bool) returns (steps: seq<WorldStep>)
    requires Waiting(w, n, record)
    requires Decided(answer) ==> !begins || (record !in w.wallet.open && !Starts(w.wallet, record, answer))
    ensures Play(w, steps) == Moved(w, n, FailPhase(answer), Apply(w.wallet, GiveUp(record)), false)
  {
    steps := Acts(w, n, Bank(answer, begins), Requests.Answered(w.wallet, record, answer, begins));
  }

  lemma Records(w: World, n: nat, record: Id, answer: BankAnswer, succeeds: bool) returns (steps: seq<WorldStep>)
    requires n < |w.flows| && w.flows[n].phase == FinishPhase(record, answer, false)
    ensures Play(w, steps) ==
            if succeeds
            then Moved(w, n, FinishPhase(record, answer, true), Apply(w.wallet, RecordFinish(record)), false)
            else Moved(w, n, FailPhase(answer), Apply(w.wallet, AbortFinish(record)), false)
  {
    var a := Record(succeeds);
    steps := Acts(w, n, a, Perform(w, w.flows[n], a));
  }

  lemma Closes(w: World, n: nat, record: Id, answer: BankAnswer, commits: bool) returns (steps: seq<WorldStep>)
    requires n < |w.flows| && w.flows[n].phase == FinishPhase(record, answer, true)
    ensures Play(w, steps) ==
            if !commits then Moved(w, n, FailPhase(answer), Apply(w.wallet, AbortFinish(record)), false)
            else Moved(w, n, DonePhase(w.wallet.tables, record, answer), Apply(w.wallet, CommitFinish(record)),
                       FinalStatus(answer) == Committed)
  {
    var a := Close(commits);
    steps := Acts(w, n, a, Perform(w, w.flows[n], a));
  }

  function DonePhase(t: Tables, record: Id, answer: BankAnswer): Phase {
    if FinalStatus(answer) == Committed then Storing(PaidBody(t, record)) else Ended
  }

  /** What the response says does not depend on the record's status. */
  lemma PaidBodyStays(s: System, record: Id, status: Status)
    ensures var begun := Apply(s, BeginFinish(record, status, Request));
            PaidBody(Apply(begun, RecordFinish(record)).tables, record) == PaidBody(s.tables, record)
  {
  }

  /** The finish goes through, and the request with it. */
  predicate GoesThrough(s: System, record: Id, answer: BankAnswer, fault: Option<FailPoint>) {
    Starts(s, record, answer) && fault == None
  }

  function FinishedPhase(s: System, record: Id, answer: BankAnswer, fault: Option<FailPoint>): Phase {
    if GoesThrough(s, record, answer, fault) then DonePhase(s.tables, record, answer) else FailPhase(answer)
  }

  /** A finish that begins, up to the fault that strikes it. */
  lemma StartedFinish(w: World, n: nat, record: Id, answer: BankAnswer, fault: Option<FailPoint>)
    returns (steps: seq<WorldStep>)
    requires Waiting(w, n, record) && Decided(answer) && Starts(w.wallet, record, answer)
    requires fault == None || fault == Some(AtRecord) || fault == Some(AtCommit)
    ensures Play(w, steps) ==
            Moved(w, n, FinishedPhase(w.wallet, record, answer, fault),
                  Run(w.wallet, FinishSteps(record, FinalStatus(answer), Request, fault)),
                  fault == None && FinalStatus(answer) == Committed)
  {
    var status := FinalStatus(answer);
    RunFinish(w.wallet, record, status, Request, fault);
    PaidBodyStays(w.wallet, record, status);
    var begun := Apply(w.wallet, BeginFinish(record, status, Request));
    var v := Moved(w, n, FinishPhase(record, answer, false), begun, false);
    var a := Begins(w, n, record, answer);
    var b := Records(v, n, record, answer, fault != Some(AtRecord));
    if fault == Some(AtRecord) {
      MovedAgain(w, n, v.flows[n].phase, begun, FailPhase(answer), Apply(begun, AbortFinish(record)), false);
      steps := Then(w, a, v, b, Play(v, b));
    } else {
      var recorded := Apply(begun, RecordFinish(record));
      var u := Moved(w, n, FinishPhase(record, answer, true), recorded, false);
      MovedAgain(w, n, v.flows[n].phase, begun, u.flows[n].phase, recorded, false);
      var ab := Then(w, a, v, b, u);
      var c := Closes(u, n, record, answer, fault == None);
      MovedAgain(w, n, u.flows[n].phase, recorded, FailPhase(answer), Apply(recorded, AbortFinish(record)), false);
      MovedAgain(w, n, u.flows[n].phase, recorded, DonePhase(recorded.tables, record, answer),
                 Apply(recorded, CommitFinish(record)), status == Committed);
      steps := Then(w, ab, u, c, Play(u, c));
    }
  }

  /** A finish whose statements fail is no more than giving up. */
  lemma FailedFinish(s: System, record: Id, status: Status, fault: Option<FailPoint>)
    requires record in s.awaiting && record in s.tables.withdrawals && status in {Committed, Failed, Timeout}
    requires record in s.open ==> fault.Some? && fault.value.AtStatement?
    requires TryFinish(s.tables, record, status) == None
             || (fault.Some? && (fault.value == AtBegin || fault.value.AtStatement?))
    ensures Run(s, FinishSteps(record, status, Request, fault)) == Apply(s, GiveUp(record))
  {
    RunFinish(s, record, status, Request, fault);
    if record !in s.open && TryFinish(s.tables, record, status) == None {
      CannotBegin(s, record, status, Request);
    }
  }

  lemma Finishes(w: World, n: nat, record: Id, answer: BankAnswer, fault: Option<FailPoint>)
    returns (steps: seq<WorldStep>)
    requires Waiting(w, n, record) && Decided(answer)
    requires record in w.wallet.open ==> fault.Some? && fault.value.AtStatement?
    ensures Play(w, steps) ==
            Moved(w, n, FinishedPhase(w.wallet, record, answer, fault),
                  Run(w.wallet, FinishSteps(record, FinalStatus(answer), Request, fault)),
                  GoesThrough(w.wallet, record, answer, fault) && FinalStatus(answer) == Committed)
  {
    if Starts(w.wallet, record, answer) && (fault == None || fault == Some(AtRecord) || fault == Some(AtCommit)) {
      steps := StartedFinish(w, n, record, answer, fault);
    } else {
      FailedFinish(w.wallet, record, FinalStatus(answer), fault);
      steps := GivesUp(w, n, record, answer, record !in w.wallet.open && !Starts(w.wallet, record, answer));
    }
  }

  // ---------- Withdrawal: the whole request ----------

  lemma Reserves(w: World, n: nat, withdraw: Option<WithdrawCall>) returns (steps: seq<WorldStep>)
    requires n < |w.flows| && w.flows[n].kind == ForWithdraw && w.flows[n].phase == Working(0)
    requires withdraw.Some? ==>
               && withdraw.value.key == w.flows[n].key && withdraw.value.amount > 0
               && ReserveTx(w.wallet.tables, withdraw.value).Ok?
    ensures Play(w, steps) ==
            match withdraw
            case Some(c) => Moved(w, n, AtBank(c.record), Apply(w.wallet, ReserveFunds(c)), false)
            case None => Moved(w, n, Clearing, w.wallet, false)
  {
    steps := Acts(w, n, ReserveNow(withdraw), Requests.Reserved(w.wallet, withdraw));
  }

  /** Steps outside requests do not stop a request waiting, nor finish a withdrawal in its name. */
  lemma OutsidersAreOthers(flows: seq<Flow>, env: seq<Step>, record: Id)
    requires AllOutside(flows, env)
    ensures forall i :: 0 <= i < |env| ==> NotForRequest(env[i], record)
  {
    forall i | 0 <= i < |env| ensures NotForRequest(env[i], record) {
      assert Outside(flows, env[i]);
    }
  }

  /** Reservation and everybody else's steps, until the bank answers. */
  lemma AsksBank(w: World, n: nat, call: WithdrawCall, env: seq<Step>) returns (steps: seq<WorldStep>)
    requires n < |w.flows| && w.flows[n].kind == ForWithdraw && w.flows[n].phase == Working(0)
             && AllOutside(w.flows, env)
    requires call.key == w.flows[n].key && call.amount > 0 && ReserveTx(w.wallet.tables, call).Ok?
    ensures var v := Moved(w, n, AtBank(call.record), WhenAnswered(w.wallet, call, env), false);
            && Play(w, steps) == v && Waiting(v, n, call.record)
            && v.wallet.tables.withdrawals[call.record].entry == Some(call.entry)
            && v.wallet.tables.withdrawals[call.record].amount == call.amount
  {
    var asked := Moved(w, n, AtBank(call.record), Apply(w.wallet, ReserveFunds(call)), false);
    var a := Reserves(w, n, Some(call));
    OutsideStays(w.flows, n, AtBank(call.record), env);
    var b := Interrupted(asked, env);
    OutsidersAreOthers(w.flows, env, call.record);
    ReservedRow(asked.wallet, env, call);
    steps := Then(w, a, asked, b, Moved(w, n, AtBank(call.record), WhenAnswered(w.wallet, call, env), false));
  }

  /** The wallet after the bank's answer, which arrives in wallet v. */
  function WalletAfter(v: System, o: WithdrawOracle): System {
    if Decided(o.answer)
    then Run(v, FinishSteps(o.record, FinalStatus(o.answer), Request, Meets(v, o.record, o.finishFault)))
    else Apply(v, GiveUp(o.record))
  }

  predicate PaysOut(v: System, o: WithdrawOracle) {
    o.answer == BankResult(true) && GoesThrough(v, o.record, o.answer, Meets(v, o.record, o.finishFault))
  }

  function ReplyTo(v: System, req: WithdrawRequest, o: WithdrawOracle): Reply {
    if PaysOut(v, o) then Fresh(WithdrawBody(o.entry, req.amount))
    else Refused(if o.answer.BankError? then o.answer.code else Errors.Internal)
  }

  /** A refusal by the bank leaves the marker in place. */
  function StoreAfter(m: Store, f: Flow, v: System, req: WithdrawRequest, o: WithdrawOracle): Store {
    if o.answer.BankError? then m else Left(m, f, ReplyTo(v, req, o), o.net)
  }

  lemma WithdrewLikeThis(s: System, m: Store, f: Flow, user: User, req: WithdrawRequest, o: WithdrawOracle)
    requires WithdrawCode(s.tables, user, req, o) == None && f.kind == ForWithdraw && f.key == req.key
    requires var v := WhenAnswered(s, WithdrawCallOf(user, req, o), o.env);
             && o.record in v.awaiting && o.record in v.tables.withdrawals
             && v.tables.withdrawals[o.record].entry == Some(o.entry)
    ensures var v := WhenAnswered(s, WithdrawCallOf(user, req, o), o.env);
            Withdrew(s, WalletAfter(v, o), m, StoreAfter(m, f, v, req, o), user, req, o, ReplyTo(v, req, o))
  {
  }

  /** The phase in which the bank's answer leaves the request, up to its last Redis commands. */
  function PhaseAfter(v: System, req: WithdrawRequest, o: WithdrawOracle): Phase {
    if PaysOut(v, o) then Storing(WithdrawBody(o.entry, req.amount))
    else if o.answer.BankError? then Ended
    else Clearing
  }

  lemma TakesAnswer(v: World, n: nat, req: WithdrawRequest, o: WithdrawOracle) returns (steps: seq<WorldStep>)
    requires Waiting(v, n, o.record) && v.wallet.tables.withdrawals[o.record].entry == Some(o.entry)
    requires v.wallet.tables.withdrawals[o.record].amount == req.amount
    ensures Play(v, steps) == Moved(v, n, PhaseAfter(v.wallet, req, o), WalletAfter(v.wallet, o), PaysOut(v.wallet, o))
  {
    if Decided(o.answer) {
      steps := Finishes(v, n, o.record, o.answer, Meets(v.wallet, o.record, o.finishFault));
    } else {
      steps := GivesUp(v, n, o.record, o.answer, true);
    }
  }

  /** From the bank's answer to the reply. */
  lemma AfterAnswer(v: World, w: World, n: nat, user: User, req: WithdrawRequest, o: WithdrawOracle)
    returns (steps: seq<WorldStep>, reply: Reply)
    requires n < |w.flows| && w.flows[n] == Flow(ForWithdraw, req.key, Working(0))
    requires WithdrawCode(w.wallet.tables, user, req, o) == None
    requires v == Moved(w, n, AtBank(o.record), WhenAnswered(w.wallet, WithdrawCallOf(user, req, o), o.env), false)
    requires Waiting(v, n, o.record) && v.wallet.tables.withdrawals[o.record].entry == Some(o.entry)
    requires v.wallet.tables.withdrawals[o.record].amount == req.amount
    ensures var u := Play(v, steps);
            && Withdrew(w.wallet, u.wallet, w.store, u.store, user, req, o, reply)
            && u == Answered(w, n, reply, u.wallet, u.store)
  {
    var p, s, ran := PhaseAfter(v.wallet, req, o), WalletAfter(v.wallet, o), PaysOut(v.wallet, o);
    WithdrewLikeThis(w.wallet, w.store, w.flows[n], user, req, o);
    reply := ReplyTo(v.wallet, req, o);
    steps := TakesAnswer(v, n, req, o);
    MovedAgain(w, n, AtBank(o.record), v.wallet, p, s, ran);
    if p == Ended {
      assert Moved(w, n, p, s, ran) == Answered(w, n, reply, s, w.store);
    } else {
      var b := Replies(w, n, p, s, reply, o.net);
      steps := Then(v, steps, Moved(w, n, p, s, ran), b,
                    Answered(w, n, reply, s, Left(w.store, w.flows[n], reply, o.net)));
    }
  }

  lemma AfterMarker(w: World, n: nat, user: User, req: WithdrawRequest, o: WithdrawOracle)
    returns (steps: seq<WorldStep>, reply: Reply)
    requires n < |w.flows| && w.flows[n] == Flow(ForWithdraw, req.key, Working(0))
    requires req.amount > 0 && AllOutside(w.flows, o.env)
    ensures var u := Play(w, steps);
            && Withdrew(w.wallet, u.wallet, w.store, u.store, user, req, o, reply)
            && u == Answered(w, n, reply, u.wallet, u.store)
  {
    var code := WithdrawCode(w.wallet.tables, user, req, o);
    if code.Some? {
      reply := Refused(code.value);
      var a := Reserves(w, n, None);
      var b := Replies(w, n, Clearing, w.wallet, reply, o.net);
      steps := Then(w, a, Moved(w, n, Clearing, w.wallet, false), b,
                    Answered(w, n, reply, w.wallet, Left(w.store, w.flows[n], reply, o.net)));
    } else {
      var call := WithdrawCallOf(user, req, o);
      var v := Moved(w, n, AtBank(o.record), WhenAnswered(w.wallet, call, o.env), false);
      var a := AsksBank(w, n, call, o.env);
      var b;
      b, reply := AfterAnswer(v, w, n, user, req, o);
      steps := Then(w, a, v, b, Play(v, b));
    }
  }

  /**
   * With steps outside requests while the bank is asked, the request ends with the wallet, cache and reply of
   * RequestWithdraw, and counts as executed exactly on success.
   */
  lemma SoloWithdraw(w: World, n: nat, user: User, req: WithdrawRequest, o: WithdrawOracle)
    returns (steps: seq<WorldStep>, reply: Reply)
    requires n < |w.flows| && w.flows[n] == Flow(ForWithdraw, req.key, Looking)
    requires ValidateWithdraw(req) == None && Admit(w.store, req.key, WithdrawCachedSuffix, o.net) == None
    requires AllOutside(w.flows, o.env)
    ensures var u := Play(w, steps);
            && Withdrew(w.wallet, u.wallet, w.store[req.key := InFlightMark], u.store, user, req, o, reply)
            && u == Answered(w, n, reply, u.wallet, u.store)
  {
    var w1 := At(w, n, Working(0), w.store[req.key := InFlightMark]);
    var a := GetsMarker(w, n);
    OutsideStays(w.flows, n, Working(0), o.env);
    var b;
    b, reply := AfterMarker(w1, n, user, req, o);
    var u := Play(w1, b);
    AnsweredFromMarker(w, n, w1.store, reply, u.wallet, u.store);
    steps := Then(w, a, w1, b, u);
  }
}
