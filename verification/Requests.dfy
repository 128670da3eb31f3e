// Any number of concurrent requests with idempotency keys, as one transition system. Every Redis command and
// every database step of a request is a step of its own, so requests interleave freely.
module Requests {
  import opened Wrappers
  import opened Ledger
  import opened Tables
  import opened Transactions
  import opened WalletSystem
  import opened Errors
  import opened Idempotency
  import Saga
  import TransferService
  import BankService

  const MaxRetries := Saga.DefaultMaxRetries

  datatype Kind = ForTransfer | ForTopup | ForWithdraw

  /** How far a request has come. */
  datatype Phase =
    | Looking                                       // about to read the key's status
    | Reading                                       // the key is completed; about to read the cached response
    | Acquiring                                     // about to set the marker
    | Working(attempts: nat)                        // has the marker; nothing has been executed
    | AtBank(record: Id)                            // funds reserved, waiting for the bank
    | Committing(record: Id, recorded: bool)        // in commitWithdraw
    | Reversing(record: Id, recorded: bool)         // in reverseWithdraw
    | Storing(body: Body) | StoringData(body: Body) // executed; about to cache status and response
    | Compensating | CompensatingData               // retries exhausted; about to delete marker and data
    | ClearingAgain                                 // after that, about to delete the marker a second time
    | Clearing | ClearingData                       // failed; about to delete marker and data
    | Completed(body: Body)                         // executed and answered with this response
    | Repeated(body: Body)                          // answered with a cached response
    | Ended                                         // answered with an error

  /** One request on its way. */
  datatype Flow = Flow(kind: Kind, key: string, phase: Phase)

  /** executed counts, per key, the transfers committed, top-ups created and withdrawals committed by requests. */
  datatype World = World(wallet: System, store: Store, flows: seq<Flow>, executed: multiset<string>)

  function NewWorld(cfg: Config): World {
    World(Initial(cfg), map[], [], multiset{})
  }

  /**
   * One step of a request. answered says that Redis replied, applied that a command without a reply still took
   * effect; begins that no statement of a finish transaction fails for a reason of its own, and that the request is not
   * cancelled while it waits for a lock.
   */
  datatype Action =
    | Look(answered: bool)
    | Acquire(answered: bool, applied: bool)
    | Attempt(call: TransferCall, fault: Option<Error>, cancelled: bool)
    | CreateVA(topup: Option<TopupCall>)
    | ReserveNow(withdraw: Option<WithdrawCall>)
    | Bank(answer: BankService.BankAnswer, begins: bool)
    | Record(succeeds: bool)
    | Close(commits: bool)
    | Write(applied: bool)

  /** What an action does besides moving the request on: one Redis command, one wallet step, an execution. */
  datatype Effect = Effect(phase: Phase, put: Option<(string, Value)>, del: Option<string>, step: Option<Step>,
                           ran: bool)

  function Move(phase: Phase): Effect {
    Effect(phase, None, None, None, false)
  }

  function Looked(store: Store, key: string, answered: bool): Effect {
    if !answered then Move(Ended)
    else
      match Check(Lookup(store, key))
      case Proceed => Move(Acquiring)
      case Duplicate => Move(Reading)
      case InFlight => Move(Ended)
  }

  function Suffix(kind: Kind): string {
    if kind == ForWithdraw then WithdrawCachedSuffix else CachedSuffix
  }

  /** Where the response of a request is cached. */
  function CacheKey(f: Flow): string {
    f.key + Suffix(f.kind)
  }

  function ReadBack(store: Store, f: Flow, answered: bool): Effect {
    match Lookup(store, CacheKey(f))
    case Some(Data(body)) => Move(if answered then Repeated(body) else Ended)
    case _ => Move(Ended)
  }

  function Acquired(store: Store, key: string, answered: bool, applied: bool): Effect {
    if key in store || (!answered && !applied) then Move(Ended)
    else Effect(if answered then Working(0) else Ended, Some((key, InFlightMark)), None, None, false)
  }

  /** One attempt of the retry loop, and what the coordinator makes of its error. */
  function Attempted(s: System, attempts: nat, call: TransferCall, fault: Option<Error>, cancelled: bool): Effect {
    match TransferService.Outcome(s.tables, call, s.cfg, fault)
    case Ok(done) => Effect(Storing(TransferBody(done.receipt)), None, None, Some(AttemptTransfer(call)), true)
    case Err(e) =>
      if e.domain.Some? then Move(Clearing)
      else if !Saga.IsTransient(e) then Move(Ended)
      else if attempts + 1 >= MaxRetries then Move(Compensating)
      else if cancelled then Move(Ended)
      else Move(Working(attempts + 1))
  }

  function Created(s: System, topup: Option<TopupCall>): Effect {
    if topup.Some? && topup.value.amount > 0 && TopupTx(s.tables, topup.value).Some?
    then
      var body := TopupBody(topup.value.entry, topup.value.number, topup.value.amount);
      Effect(Storing(body), None, None, Some(CreateTopup(topup.value)), true)
    else Move(Clearing)
  }

  function Reserved(s: System, withdraw: Option<WithdrawCall>): Effect {
    if withdraw.Some? && withdraw.value.amount > 0 && ReserveTx(s.tables, withdraw.value).Ok?
    then Effect(AtBank(withdraw.value.record), None, None, Some(ReserveFunds(withdraw.value)), false)
    else Move(Clearing)
  }

  function FinalStatus(answer: BankService.BankAnswer): Status {
    match answer
    case BankError(code) => BankService.ReverseStatus(code)
    case _ => Committed
  }

  /** A finish waits while another one holds the log row. */
  function Answered(s: System, record: Id, answer: BankService.BankAnswer, begins: bool): Effect {
    var status := FinalStatus(answer);
    if answer.NoResult? || answer == BankService.BankResult(false) then
      Effect(Clearing, None, None, Some(GiveUp(record)), false)
    else if begins && record in s.open then Move(AtBank(record))
    else if begins && MayBegin(s, record, status, Request) && TryFinish(s.tables, record, status).Some? then
      Effect(if status == Committed then Committing(record, false) else Reversing(record, false),
             None, None, Some(BeginFinish(record, status, Request)), false)
    else Effect(if status == Committed then Clearing else Ended, None, None, Some(GiveUp(record)), false)
  }

  /** The response to a withdrawal that went through. */
  function PaidBody(t: Tables, record: Id): Body {
    if record in t.withdrawals && t.withdrawals[record].entry.Some?
    then WithdrawBody(t.withdrawals[record].entry.value, t.withdrawals[record].amount)
    else WithdrawBody(0, 0)
  }

  /** commitWithdraw after its statements: UpdateStatus, then COMMIT. */
  function CommitStep(s: System, record: Id, recorded: bool, a: Action): Effect {
    match a
    case Record(succeeds) =>
      if recorded then Move(Committing(record, recorded))
      else if succeeds then Effect(Committing(record, true), None, None, Some(RecordFinish(record)), false)
      else Effect(Clearing, None, None, Some(AbortFinish(record)), false)
    case Close(commits) =>
      if !recorded then Move(Committing(record, recorded))
      else if commits then Effect(Storing(PaidBody(s.tables, record)), None, None, Some(CommitFinish(record)), true)
      else Effect(Clearing, None, None, Some(AbortFinish(record)), false)
    case _ => Move(Committing(record, recorded))
  }

  /** reverseWithdraw after its statements; the marker stays. */
  function Reversed(s: System, record: Id, recorded: bool, a: Action): Effect {
    match a
    case Record(succeeds) =>
      if recorded then Move(Reversing(record, recorded))
      else if succeeds then Effect(Reversing(record, true), None, None, Some(RecordFinish(record)), false)
      else Effect(Ended, None, None, Some(AbortFinish(record)), false)
    case Close(commits) =>
      if !recorded then Move(Reversing(record, recorded))
      else Effect(Ended, None, None, Some(if commits then CommitFinish(record) else AbortFinish(record)), false)
    case _ => Move(Reversing(record, recorded))
  }

  /** The Redis writes at the end of a request; one that is lost is only logged. */
  function Written(f: Flow, applied: bool): Effect {
    var marker, data := if applied then Some(f.key) else None, if applied then Some(f.key + CachedSuffix) else None;
    match f.phase
    case Storing(body) =>
      Effect(StoringData(body), if applied then Some((f.key, CompletedMark)) else None, None, None, false)
    case StoringData(body) =>
      Effect(Completed(body), if applied then Some((CacheKey(f), Data(body))) else None, None, None, false)
    case Compensating => Effect(CompensatingData, None, marker, None, false)
    case CompensatingData => Effect(ClearingAgain, None, data, None, false)
    case ClearingAgain => Effect(ClearingData, None, marker, None, false)
    case Clearing => Effect(if f.kind == ForTransfer then ClearingData else Ended, None, marker, None, false)
    case ClearingData => Effect(Ended, None, data, None, false)
    case _ => Move(f.phase)
  }

  /** An action that does not fit the request's phase does nothing. */
  function Perform(w: World, f: Flow, a: Action): Effect {
    match (f.phase, a)
    case (Looking, Look(answered)) => Looked(w.store, f.key, answered)
    case (Reading, Look(answered)) => ReadBack(w.store, f, answered)
    case (Acquiring, Acquire(answered, applied)) => Acquired(w.store, f.key, answered, applied)
    case (Working(n), Attempt(call, fault, cancelled)) =>
      if f.kind == ForTransfer && call.key == f.key then Attempted(w.wallet, n, call, fault, cancelled)
      else Move(f.phase)
    case (Working(_), CreateVA(topup)) =>
      if f.kind == ForTopup && (topup.Some? ==> topup.value.key == f.key) then Created(w.wallet, topup)
      else Move(f.phase)
    case (Working(_), ReserveNow(withdraw)) =>
      if f.kind == ForWithdraw && (withdraw.Some? ==> withdraw.value.key == f.key) then Reserved(w.wallet, withdraw)
      else Move(f.phase)
    case (AtBank(record), Bank(answer, begins)) => Answered(w.wallet, record, answer, begins)
    case (Committing(record, recorded), _) => CommitStep(w.wallet, record, recorded, a)
    case (Reversing(record, recorded), _) => Reversed(w.wallet, record, recorded, a)
    case (_, Write(applied)) => Written(f, applied)
    case _ => Move(f.phase)
  }

  /** The request has its withdrawal at the bank, or is finishing it. */
  predicate WithBank(p: Phase) {
    p.AtBank? || p.Committing? || p.Reversing?
  }

  // ---------- The world's steps ----------

  datatype WorldStep =
    | Arrive(kind: Kind, key: string)
    | Act(id: nat, action: Action)
    | Elsewhere(step: Step)
    | Expire(key: string)

  function StoreAfter(store: Store, e: Effect): Store {
    var s := if e.put.Some? then store[e.put.value.0 := e.put.value.1] else store;
    if e.del.Some? then s - {e.del.value} else s
  }

  function ActOn(w: World, id: nat, e: Effect): World
    requires id < |w.flows|
  {
    World(if e.step.Some? then Apply(w.wallet, e.step.value) else w.wallet,
          StoreAfter(w.store, e),
          w.flows[id := w.flows[id].(phase := e.phase)],
          if e.ran then w.executed + multiset{w.flows[id].key} else w.executed)
  }

  predicate FinishingNow(p: Phase, record: Id) {
    (p.Committing? || p.Reversing?) && p.record == record
  }

  /** A request has this withdrawal's finish transaction open. */
  predicate Finishing(flows: seq<Flow>, record: Id) {
    exists i :: 0 <= i < |flows| && FinishingNow(flows[i].phase, record)
  }

  /** What happens outside requests: registrations, webhooks and callbacks. */
  predicate Outside(flows: seq<Flow>, step: Step) {
    match step
    case Register(_) => true
    case ReadWebhook(_) => true
    case CommitWebhook(_) => true
    case LookUpCallback(_) => true
    case BeginFinish(_, _, caller) => caller == Callback
    case RecordFinish(record) => !Finishing(flows, record)
    case CommitFinish(record) => !Finishing(flows, record)
    case AbortFinish(record) => !Finishing(flows, record)
    case _ => false
  }

  function Next(w: World, step: WorldStep): World {
    match step
    case Arrive(kind, key) => if key == "" then w else w.(flows := w.flows + [Flow(kind, key, Looking)])
    case Act(id, action) => if id < |w.flows| then ActOn(w, id, Perform(w, w.flows[id], action)) else w
    case Elsewhere(s) => if Outside(w.flows, s) then w.(wallet := Apply(w.wallet, s)) else w
    case Expire(key) => w.(store := w.store - {key})
  }

  function Play(w: World, steps: seq<WorldStep>): World {
    if steps == [] then w else Next(Play(w, steps[..|steps| - 1]), steps[|steps| - 1])
  }

  // ---------- The wallet inside is the wallet of the transition system ----------

  function WalletSteps(w: World, step: WorldStep): seq<Step> {
    match step
    case Act(id, action) =>
      if id < |w.flows| && Perform(w, w.flows[id], action).step.Some? then [Perform(w, w.flows[id], action).step.value]
      else []
    case Elsewhere(s) => if Outside(w.flows, s) then [s] else []
    case _ => []
  }

  function Trace(w: World, steps: seq<WorldStep>): seq<Step> {
    if steps == [] then []
    else
      var n := |steps| - 1;
      Trace(w, steps[..n]) + WalletSteps(Play(w, steps[..n]), steps[n])
  }

  lemma NextWallet(w: World, step: WorldStep)
    ensures Next(w, step).wallet == Run(w.wallet, WalletSteps(w, step))
  {
    var steps := WalletSteps(w, step);
    if steps != [] {
      RunOne(w.wallet, steps[0]);
    }
  }

  /** Everything proved about runs of the wallet holds in every state the concurrent requests reach. */
  lemma {:induction false} WalletOfPlay(w: World, steps: seq<WorldStep>)
    ensures Play(w, steps).wallet == Run(w.wallet, Trace(w, steps))
  {
    if steps != [] {
      var n := |steps| - 1;
      WalletOfPlay(w, steps[..n]);
      NextWallet(Play(w, steps[..n]), steps[n]);
      RunConcat(w.wallet, Trace(w, steps[..n]), WalletSteps(Play(w, steps[..n]), steps[n]));
    }
  }
}
