// The wallet as one transition system: every database transaction and every read or write
// outside a transaction is a step, and requests, webhooks and callbacks interleave freely.
module WalletSystem {
  import opened Wrappers
  import opened Ledger
  import opened Tables
  import opened Transactions

  /** A reverse or commit transaction that has begun; recorded once withdraw_records was updated. */
  datatype Finish = Finish(status: Status, recorded: bool)

  /**
   * tables is the committed database; cfg the loaded fee configuration.
   * delivered holds the VA rows that webhook handlers read while active,
   * looked the withdrawals that callback handlers read while pending,
   * awaiting the withdrawals whose request still waits for the bank,
   * open the begun finish transactions, each of which holds the lock on its log row,
   * torn the withdrawals whose record was updated by a transaction that then failed to commit.
   */
  datatype System = System(
    tables: Tables, cfg: Config,
    delivered: set<VA>, looked: set<Id>, awaiting: set<Id>,
    open: map<Id, Finish>, torn: set<Id>)

  function Initial(cfg: Config): System {
    System(Empty, cfg, {}, {}, {}, map[], {})
  }

  datatype Caller = Request | Callback

  datatype Step =
    | Register(user: User)
    | AttemptTransfer(call: TransferCall)
    | CreateTopup(topup: TopupCall)
    | ReadWebhook(number: string)
    | CommitWebhook(va: VA)
    | ReserveFunds(withdraw: WithdrawCall)
    | GiveUp(record: Id)
    | LookUpCallback(record: Id)
    | BeginFinish(record: Id, status: Status, caller: Caller)
    | RecordFinish(record: Id)
    | CommitFinish(record: Id)
    | AbortFinish(record: Id)

  /** The finish transaction of a withdrawal on the present tables, if its statements succeed. */
  function TryFinish(t: Tables, record: Id, status: Status): Option<Tables>
    requires record in t.withdrawals
  {
    var w := t.withdrawals[record];
    match w.entry
    case None => None
    case Some(entry) => FinishTx(t, w.user, w.amount, entry, status)
  }

  predicate MayBegin(s: System, record: Id, status: Status, caller: Caller) {
    && record in s.tables.withdrawals
    && record !in s.open
    && match caller
       case Request => record in s.awaiting && status in {Committed, Failed, Timeout}
       case Callback => record in s.looked && status == Committed
  }

  /** A request stops waiting; the transaction stays open when its statements succeed. */
  function Begin(s: System, record: Id, status: Status, caller: Caller): System
    requires record in s.tables.withdrawals
  {
    var awaiting := if caller == Request then s.awaiting - {record} else s.awaiting;
    if TryFinish(s.tables, record, status) == None then s.(awaiting := awaiting)
    else s.(awaiting := awaiting, open := s.open[record := Finish(status, false)])
  }

  /** A step that is not enabled, or whose transaction rolls back, leaves the tables as they are. */
  function Apply(s: System, step: Step): System {
    match step
    case Register(user) => s.(tables := SeedBalance(s.tables, user))
    case AttemptTransfer(call) =>
      (match TransferTx(s.tables, call, s.cfg)
       case Ok(done) => s.(tables := done.tables)
       case Err(_) => s)
    case CreateTopup(call) =>
      if call.amount <= 0 then s
      else
        (match TopupTx(s.tables, call)
         case Some(t) => s.(tables := t)
         case None => s)
    case ReadWebhook(number) =>
      if number in s.tables.vas && s.tables.vas[number].status == Active
      then s.(delivered := s.delivered + {s.tables.vas[number]})
      else s
    case CommitWebhook(va) =>
      if va !in s.delivered then s
      else
        (match WebhookTx(s.tables, va)
         case Some(t) => s.(tables := t)
         case None => s)
    case ReserveFunds(call) =>
      if call.amount <= 0 then s
      else
        (match ReserveTx(s.tables, call)
         case Ok(t) => s.(tables := t, awaiting := s.awaiting + {call.record})
         case Err(_) => s)
    case GiveUp(record) => s.(awaiting := s.awaiting - {record})
    case LookUpCallback(record) =>
      if record in s.tables.withdrawals && s.tables.withdrawals[record].status == Pending
      then s.(looked := s.looked + {record})
      else s
    case BeginFinish(record, status, caller) =>
      if MayBegin(s, record, status, caller) then Begin(s, record, status, caller) else s
    case RecordFinish(record) =>
      if record in s.open && !s.open[record].recorded then
        s.(tables := UpdateWithdrawalStatus(s.tables, record, s.open[record].status),
           open := s.open[record := s.open[record].(recorded := true)])
      else s
    case CommitFinish(record) =>
      if record in s.open && s.open[record].recorded && record in s.tables.withdrawals then
        (match TryFinish(s.tables, record, s.open[record].status)
         case Some(t) => s.(tables := t, open := s.open - {record})
         case None => s.(open := s.open - {record}, torn := s.torn + {record}))
      else s
    case AbortFinish(record) =>
      if record in s.open then
        s.(open := s.open - {record}, torn := if s.open[record].recorded then s.torn + {record} else s.torn)
      else s
  }

  function Run(s: System, steps: seq<Step>): System {
    if steps == [] then s else Apply(Run(s, steps[..|steps| - 1]), steps[|steps| - 1])
  }

  lemma RunStep(s: System, steps: seq<Step>, step: Step)
    ensures Run(s, steps + [step]) == Apply(Run(s, steps), step)
  {
    assert (steps + [step])[..|steps|] == steps;
  }

  lemma {:induction false} RunConcat(s: System, a: seq<Step>, b: seq<Step>)
    ensures Run(s, a + b) == Run(Run(s, a), b)
  {
    if b == [] {
      assert a + b == a;
    } else {
      var front := b[..|b| - 1];
      RunConcat(s, a, front);
      assert (a + b)[..|a + b| - 1] == a + front;
    }
  }

  lemma RunOne(s: System, a: Step)
    ensures Run(s, [a]) == Apply(s, a)
  {
    RunStep(s, [], a);
    assert [] + [a] == [a];
  }

  lemma RunTwo(s: System, a: Step, b: Step)
    ensures Run(s, [a, b]) == Apply(Apply(s, a), b)
  {
    RunOne(s, a);
    RunStep(s, [a], b);
    assert [a] + [b] == [a, b];
  }

  lemma RunThree(s: System, a: Step, b: Step, c: Step)
    ensures Run(s, [a, b, c]) == Apply(Apply(Apply(s, a), b), c)
  {
    RunTwo(s, a, b);
    RunStep(s, [a, b], c);
    assert [a, b] + [c] == [a, b, c];
  }
}
