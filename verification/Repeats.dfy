// Who is admitted, and what the next request with the same key meets after one has been answered.
module Repeats {
  import opened Wrappers
  import opened Ledger
  import opened WalletSystem
  import opened Errors
  import opened Idempotency
  import opened BankService
  import Saga
  import T = TransferService

  /** Redis answers every command of this request. */
  ghost predicate Answers(net: Net) {
    forall c :: net(c) == Answered
  }

  /**
   * A request is admitted if and only if its key is not in the cache and both commands are answered; it gets a cached
   * response if and only if its key is completed, the response is there, and both reads are answered. Every other one
   * is told that a request is in flight, or that something went wrong.
   */
  lemma AdmitMeaning(store: Store, key: string, suffix: string, net: Net)
    ensures Admit(store, key, suffix, net) == None <==>
              key !in store && net(GetStatus) == Answered && net(AcquireMarker) == Answered
    ensures forall b :: Admit(store, key, suffix, net) == Some(Cached(b)) <==>
              && key in store && store[key] == CompletedMark && key + suffix in store && store[key + suffix] == Data(b)
              && net(GetStatus) == Answered && net(GetData) == Answered
    ensures net(GetStatus) == Answered && key in store && store[key] == InFlightMark ==>
              Admit(store, key, suffix, net) == Some(Refused(RequestInFlight))
    ensures forall b :: Admit(store, key, suffix, net) != Some(Fresh(b))
  {
  }

  /** The marker is set exactly when the key is free and the command arrives; nothing else in the cache changes. */
  lemma AcquiredMeaning(store: Store, key: string, net: Net)
    ensures StoreAcquired(store, key, net) ==
            if key !in store && net(GetStatus) == Answered && net(AcquireMarker) != Dropped
            then store[key := InFlightMark] else store
  {
  }

  lemma SuffixesDiffer(key: string)
    ensures key + CachedSuffix != key && key + WithdrawCachedSuffix != key
  {
    assert |key + CachedSuffix| != |key| && |key + WithdrawCachedSuffix| != |key|;
  }

  /**
   * After a transfer that succeeded, the next request with its key is answered with the same response; after a refusal
   * with a code it is admitted; after an error without a code it is told that a request is in flight.
   */
  lemma NextTransfer(r: Saga.Report<T.Progress>, key: string, net: Net, next: Net)
    requires Answers(net) && Answers(next)
    ensures var admitted := Admit(T.StoreAfter(r, key, net), key, ":cached", next);
            && (r.error == None ==> T.ReplyTo(r).Fresh? && admitted == Some(Cached(T.ReplyTo(r).body)))
            && (r.error.Some? && r.error.value.domain.Some? ==>
                  T.ReplyTo(r) == Refused(r.error.value.domain.value) && admitted == None
                  && key + ":cached" !in T.StoreAfter(r, key, net))
            && (r.error.Some? && r.error.value.domain == None && key in r.state.store
                && r.state.store[key] == InFlightMark ==>
                  T.ReplyTo(r) == Refused(SerializationConflict) && admitted == Some(Refused(RequestInFlight)))
  {
    SuffixesDiffer(key);
  }

  /** After a top-up that succeeded the response is repeated; after any refusal the next request is admitted. */
  lemma NextTopup(s: System, s': System, m: Store, m': Store, user: User, req: TopupRequest, o: TopupOracle,
                  reply: Reply, next: Net)
    requires ToppedUp(s, s', m, m', user, req, o, reply) && Answers(o.net) && Answers(next)
    ensures Admit(m', req.key, ":cached", next) == if reply.Fresh? then Some(Cached(reply.body)) else None
  {
    SuffixesDiffer(req.key);
  }

  /**
   * After a withdrawal that succeeded the response is repeated; after the bank's refusal the key stays in flight; after
   * any other refusal the next request is admitted.
   */
  lemma NextWithdrawal(s: System, s': System, m: Store, m': Store, user: User, req: WithdrawRequest, o: WithdrawOracle,
                       reply: Reply, next: Net)
    requires Withdrew(s, s', m, m', user, req, o, reply) && Answers(o.net) && Answers(next)
    requires req.key in m && m[req.key] == InFlightMark
    ensures var asked := WithdrawCode(s.tables, user, req, o) == None;
            Admit(m', req.key, ":wd:cached", next) ==
            if reply.Fresh? then Some(Cached(reply.body))
            else if asked && o.answer.BankError? then Some(Refused(RequestInFlight))
            else None
  {
    SuffixesDiffer(req.key);
  }
}
