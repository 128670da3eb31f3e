// A transfer request of the concurrent system, interrupted by webhooks and callbacks only, does exactly what the
// transfer service does.
module SoloTransfer {
  import opened Wrappers
  import opened Ledger
  import opened Transactions
  import opened WalletSystem
  import opened Errors
  import opened Idempotency
  import opened Requests
  import opened Saga
  import opened SoloSteps
  import Fees
  import T = TransferService

  // ---------- The attempts ----------

  function BodyOf(p: T.Progress): Body {
    TransferBody(if p.receipt.Some? then p.receipt.value else T.NoReceipt)
  }

  /** The phase in which an attempt leaves the request. */
  function PhaseAfter(i: nat, tried: Saga.Tried<T.Progress>, cancelled: bool): Phase {
    match tried.error
    case None => Storing(BodyOf(tried.state))
    case Some(e) =>
      if e.domain.Some? then Clearing
      else if !IsTransient(e) then Ended
      else if i + 1 >= MaxRetries then Compensating
      else if cancelled then Ended
      else Working(i + 1)
  }

  /** The world after an attempt, and everybody else's steps before it. */
  function Attempted(w: World, n: nat, i: nat, call: TransferCall, d: T.Draw, cancelled: bool): World
    requires n < |w.flows|
  {
    var tried := T.Try(T.Progress(w.wallet, None, w.store), call, d);
    At(w, n, PhaseAfter(i, tried, cancelled), w.store)
      .(wallet := tried.state.wallet,
        executed := if tried.error == None then w.executed + multiset{w.flows[n].key} else w.executed)
  }

  lemma AttemptEffect(s: System, i: nat, call: TransferCall, d: T.Draw, cancelled: bool, store: Store)
    ensures var tried, w := T.Try(T.Progress(s, None, store), call, d), Run(s, d.env);
            && Requests.Attempted(w, i, call, d.fault, cancelled) ==
               Effect(PhaseAfter(i, tried, cancelled), None, None,
                      if tried.error == None then Some(AttemptTransfer(call)) else None, tried.error == None)
            && tried.state.wallet == if tried.error == None then Apply(w, AttemptTransfer(call)) else w
  {
  }

  lemma Attempts(w: World, n: nat, i: nat, call: TransferCall, d: T.Draw, cancelled: bool)
    returns (steps: seq<WorldStep>)
    requires n < |w.flows| && w.flows[n] == Flow(ForTransfer, call.key, Working(i)) && AllOutside(w.flows, d.env)
    ensures Play(w, steps) == Attempted(w, n, i, call, d, cancelled)
  {
    var v := w.(wallet := Run(w.wallet, d.env));
    var a := Interrupted(w, d.env);
    AttemptEffect(w.wallet, i, call, d, cancelled, w.store);
    var e := Requests.Attempted(v.wallet, i, call, d.fault, cancelled);
    var b := Acts(v, n, Attempt(call, d.fault, cancelled), e);
    steps := Then(w, a, v, b, Attempted(w, n, i, call, d, cancelled));
  }

  /** Another attempt follows. */
  predicate GoesOn(i: nat, error: Option<Error>, cancelled: bool) {
    error.Some? && error.value.domain == None && IsTransient(error.value) && i + 1 < MaxRetries && !cancelled
  }

  /** The phase that stands for how the retry loop ended. */
  function Last(r: Report<T.Progress>): Phase {
    match r.error
    case None => Storing(BodyOf(r.state))
    case Some(e) => if r.compensations == 1 then Compensating else if e.domain.Some? then Clearing else Ended
  }

  /** The service's report and the request's world agree, before any Redis command that follows. */
  predicate Agree(v: World, n: nat, r: Report<T.Progress>, w: World, store: Store, compensated: Store) {
    && n < |w.flows| && v.flows == w.flows[n := w.flows[n].(phase := Last(r))]
    && v.wallet == r.state.wallet && v.store == store
    && r.state.store == (if r.compensations == 1 then compensated else store)
    && v.executed == (if r.error == None then w.executed + multiset{w.flows[n].key} else w.executed)
  }

  /** op is the service's retried operation, and only outsiders act between its calls. */
  ghost predicate IsOperation(op: (T.Progress, nat) -> Saga.Tried<T.Progress>, calls: nat -> TransferCall,
                              draws: nat -> T.Draw, key: string, flows: seq<Flow>) {
    && (forall p, i :: op(p, i) == T.Try(p, calls(i), draws(i)))
    && (forall i :: calls(i).key == key)
    && (forall i {:trigger draws(i)} :: AllOutside(flows, draws(i).env))
  }

  ghost predicate OnlyClears(compensate: T.Progress -> T.Progress, cleared: Store -> Store) {
    forall p :: compensate(p) == p.(store := cleared(p.store))
  }

  /** How the loop ends when the attempt is the last one. */
  predicate Ends(r: Report<T.Progress>, i: nat, tried: Saga.Tried<T.Progress>, compensated: T.Progress,
                 cancelled: bool) {
    && Last(r) == PhaseAfter(i, tried, cancelled)
    && (r.error == None <==> tried.error == None)
    && r.state == if r.compensations == 1 then compensated else tried.state
  }

  lemma RetryEnds(op: (T.Progress, nat) -> Saga.Tried<T.Progress>, cancel: nat -> Option<nat>,
                  compensate: T.Progress -> T.Progress, backoff: nat, p: T.Progress, i: nat, waited: nat)
    requires i < MaxRetries && !GoesOn(i, op(p, i).error, cancel(i).Some?)
    ensures Ends(Retry(op, cancel, compensate, MaxRetries, backoff, p, i, waited), i, op(p, i),
                 compensate(op(p, i).state), cancel(i).Some?)
  {
    if i + 1 >= MaxRetries {
      assert Retry(op, cancel, compensate, MaxRetries, backoff, op(p, i).state, i + 1, waited) ==
             Report(compensate(op(p, i).state), Some(Conflict), i + 1, 1, waited);
    }
  }

  /** An attempt does not touch the cache, and what it leaves does not depend on an earlier receipt. */
  lemma TryKeepsStore(p: T.Progress, call: TransferCall, d: T.Draw)
    ensures var tried, anew := T.Try(p, call, d), T.Try(T.Progress(p.wallet, None, p.store), call, d);
            && tried.state.store == p.store && tried.error == anew.error && tried.state.wallet == anew.state.wallet
            && (tried.error == None ==> tried.state == anew.state)
  {
  }

  lemma EndsAgree(w: World, n: nat, i: nat, p: T.Progress, r: Report<T.Progress>, compensated: T.Progress,
                  cancelled: bool, call: TransferCall, d: T.Draw)
    requires n < |w.flows| && w.wallet == p.wallet && w.store == p.store
    requires Ends(r, i, T.Try(p, call, d), compensated, cancelled)
    requires compensated == T.Try(p, call, d).state.(store := compensated.store)
    ensures Agree(Attempted(w, n, i, call, d, cancelled), n, r, w, p.store, compensated.store)
  {
    TryKeepsStore(p, call, d);
  }

  lemma AgreeLater(u: World, n: nat, r: Report<T.Progress>, v: World, w: World, store: Store, compensated: Store)
    requires Agree(u, n, r, v, store, compensated) && v.executed == w.executed && n < |w.flows|
    requires v.flows == w.flows[n := v.flows[n]] && v.flows[n].kind == w.flows[n].kind
             && v.flows[n].key == w.flows[n].key
    ensures Agree(u, n, r, w, store, compensated)
  {
    assert v.flows[n].(phase := Last(r)) == w.flows[n].(phase := Last(r));
    assert v.flows[n := v.flows[n].(phase := Last(r))] == w.flows[n := w.flows[n].(phase := Last(r))];
  }

  /** The retry loop of the service and the attempts of the request end with the same wallet and the same error. */
  lemma {:induction false} AttemptsMatch(w: World, n: nat, i: nat, p: T.Progress,
                                         op: (T.Progress, nat) -> Saga.Tried<T.Progress>, cancel: nat -> Option<nat>,
                                         compensate: T.Progress -> T.Progress, backoff: nat, waited: nat,
                                         cleared: Store -> Store, calls: nat -> TransferCall, draws: nat -> T.Draw)
    returns (steps: seq<WorldStep>, v: World)
    requires n < |w.flows| && w.flows[n].kind == ForTransfer && w.flows[n].phase == Working(i) && i < MaxRetries
    requires w.wallet == p.wallet && w.store == p.store
    requires IsOperation(op, calls, draws, w.flows[n].key, w.flows) && OnlyClears(compensate, cleared)
    ensures Play(w, steps) == v
    ensures Agree(v, n, Retry(op, cancel, compensate, MaxRetries, backoff, p, i, waited), w, p.store, cleared(p.store))
    decreases MaxRetries - i
  {
    var call, d, cancelled := calls(i), draws(i), cancel(i).Some?;
    assert op(p, i) == T.Try(p, call, d);
    TryKeepsStore(p, call, d);
    steps := Attempts(w, n, i, call, d, cancelled);
    v := Attempted(w, n, i, call, d, cancelled);
    if GoesOn(i, T.Try(p, call, d).error, cancelled) {
      var q, later := op(p, i).state, waited + Wait(backoff, i);
      StillOperation(op, calls, draws, w.flows, n, i + 1);
      var more, u := AttemptsMatch(v, n, i + 1, q, op, cancel, compensate, backoff, later, cleared, calls, draws);
      var r := Retry(op, cancel, compensate, MaxRetries, backoff, q, i + 1, later);
      AgreeLater(u, n, r, v, w, p.store, cleared(p.store));
      steps := Then(w, steps, v, more, u);
      v := u;
    } else {
      RetryEnds(op, cancel, compensate, backoff, p, i, waited);
      var r := Retry(op, cancel, compensate, MaxRetries, backoff, p, i, waited);
      EndsAgree(w, n, i, p, r, compensate(op(p, i).state), cancelled, call, d);
    }
  }

  lemma StillOperation(op: (T.Progress, nat) -> Saga.Tried<T.Progress>, calls: nat -> TransferCall,
                       draws: nat -> T.Draw, flows: seq<Flow>, n: nat, i: nat)
    requires n < |flows| && IsOperation(op, calls, draws, flows[n].key, flows)
    ensures IsOperation(op, calls, draws, flows[n].key, flows[n := flows[n].(phase := Working(i))])
  {
    forall j {:trigger draws(j)} ensures AllOutside(flows[n := flows[n].(phase := Working(i))], draws(j).env) {
      OutsideStays(flows, n, Working(i), draws(j).env);
    }
  }

  // ---------- The Redis commands that follow ----------

  /** The two deletes after a failure, of the marker and of the data. */
  predicate Halves(p: Phase, mid: Phase, end: Phase) {
    || (p == Compensating && mid == CompensatingData && end == ClearingAgain)
    || (p == ClearingAgain && mid == ClearingData && end == Ended)
    || (p == Clearing && mid == ClearingData && end == Ended)
  }

  lemma Deletes(w: World, n: nat, p: Phase, mid: Phase, end: Phase, lost: bool) returns (steps: seq<WorldStep>)
    requires n < |w.flows| && w.flows[n].kind == ForTransfer && w.flows[n].phase == p && Halves(p, mid, end)
    ensures Play(w, steps) == At(w, n, mid, if lost then w.store else w.store - {w.flows[n].key})
  {
    steps := Writes(w, n, !lost);
  }

  lemma DeletesData(w: World, n: nat, p: Phase, mid: Phase, end: Phase, lost: bool) returns (steps: seq<WorldStep>)
    requires n < |w.flows| && w.flows[n].kind == ForTransfer && w.flows[n].phase == mid && Halves(p, mid, end)
    ensures Play(w, steps) == At(w, n, end, if lost then w.store else w.store - {w.flows[n].key + CachedSuffix})
  {
    steps := Writes(w, n, !lost);
  }

  lemma Clears(w: World, n: nat, p: Phase, mid: Phase, end: Phase, markerLost: bool, dataLost: bool)
    returns (steps: seq<WorldStep>)
    requires n < |w.flows| && w.flows[n].kind == ForTransfer && w.flows[n].phase == p && Halves(p, mid, end)
    ensures Play(w, steps) == At(w, n, end, ClearKeys(w.store, w.flows[n].key, markerLost, dataLost))
  {
    var v := At(w, n, mid, if markerLost then w.store else w.store - {w.flows[n].key});
    var u := At(w, n, end, ClearKeys(w.store, w.flows[n].key, markerLost, dataLost));
    var a := Deletes(w, n, p, mid, end, markerLost);
    var b := DeletesData(v, n, p, mid, end, dataLost);
    AtAgain(w, n, mid, v.store, end, u.store);
    steps := Then(w, a, v, b, u);
  }

  // ---------- The whole request ----------

  /** After the attempts: what the report makes of the cache, and the request at its end. */
  lemma Finishes(v: World, n: nat, r: Report<T.Progress>, w: World, net: Net) returns (steps: seq<WorldStep>, u: World)
    requires n < |w.flows| && w.flows[n].kind == ForTransfer
    requires Agree(v, n, r, w, v.store,
                   ClearKeys(v.store, w.flows[n].key, Drops(net, CompensateMarker), Drops(net, CompensateData)))
    requires r.compensations == 1 ==> r.error == Some(Conflict)
    ensures Play(v, steps) == u && Matches(u, n, r, w, net)
  {
    var key := w.flows[n].key;
    var store := T.StoreAfter(r, key, net);
    u := At(v, n, EndOf(T.ReplyTo(r)), store);
    if r.error == None {
      steps := Caches(v, n, BodyOf(r.state), Drops(net, SetStatus), Drops(net, SetData));
    } else if r.compensations == 1 {
      var a := Clears(v, n, Compensating, CompensatingData, ClearingAgain,
                      Drops(net, CompensateMarker), Drops(net, CompensateData));
      var mid := At(v, n, ClearingAgain, r.state.store);
      var b := Clears(mid, n, ClearingAgain, ClearingData, Ended, Drops(net, ClearMarker), Drops(net, ClearData));
      AtAgain(v, n, ClearingAgain, r.state.store, Ended, store);
      steps := Then(v, a, mid, b, u);
    } else if r.error.value.domain.Some? {
      steps := Clears(v, n, Clearing, ClearingData, Ended, Drops(net, ClearMarker), Drops(net, ClearData));
    } else {
      steps := [];
    }
  }

  /**
   * The request has ended with the reply, the wallet, the cache and the count that the service's report calls for; a
   * request that succeeded keeps the response.
   */
  predicate Matches(u: World, n: nat, r: Report<T.Progress>, w: World, net: Net) {
    && n < |w.flows| && u.flows == w.flows[n := w.flows[n].(phase := EndOf(T.ReplyTo(r)))]
    && u.wallet == r.state.wallet && u.store == T.StoreAfter(r, w.flows[n].key, net)
    && u.executed == if r.error == None then w.executed + multiset{w.flows[n].key} else w.executed
  }

  /** From the marker to the end, for any operation of this shape. */
  lemma SoloRetry(w: World, n: nat, p: T.Progress, op: (T.Progress, nat) -> Saga.Tried<T.Progress>,
                  cancel: nat -> Option<nat>, compensate: T.Progress -> T.Progress, backoff: nat,
                  cleared: Store -> Store, calls: nat -> TransferCall, draws: nat -> T.Draw, net: Net)
    returns (steps: seq<WorldStep>, u: World)
    requires n < |w.flows| && w.flows[n].kind == ForTransfer && w.flows[n].phase == Working(0)
    requires w.wallet == p.wallet && w.store == p.store
    requires IsOperation(op, calls, draws, w.flows[n].key, w.flows) && OnlyClears(compensate, cleared)
    requires forall s ::
             cleared(s) == ClearKeys(s, w.flows[n].key, Drops(net, CompensateMarker), Drops(net, CompensateData))
    ensures Play(w, steps) == u && Matches(u, n, Retry(op, cancel, compensate, MaxRetries, backoff, p, 0, 0), w, net)
  {
    var r := Retry(op, cancel, compensate, MaxRetries, backoff, p, 0, 0);
    RetryOutcome(op, cancel, compensate, MaxRetries, backoff, p);
    var a, v := AttemptsMatch(w, n, 0, p, op, cancel, compensate, backoff, 0, cleared, calls, draws);
    var b;
    b, u := Finishes(v, n, r, w, net);
    steps := Then(w, a, v, b, u);
  }

  lemma MatchesFromMarker(u: World, n: nat, r: Report<T.Progress>, w: World, store: Store, net: Net)
    requires n < |w.flows| && Matches(u, n, r, At(w, n, Working(0), store), net)
    ensures Matches(u, n, r, w, net)
  {
    var flows, end := At(w, n, Working(0), store).flows, EndOf(T.ReplyTo(r));
    assert flows[n := flows[n].(phase := end)] == w.flows[n := w.flows[n].(phase := end)];
  }

  lemma OperationAt(w: World, n: nat, sender: User, req: T.TransferRequest, promo: Option<Fees.PromoConfig>,
                    warned: bool, draws: nat -> T.Draw, store: Store)
    requires n < |w.flows| && w.flows[n].key == req.key
    requires forall j {:trigger draws(j)} :: AllOutside(w.flows, draws(j).env)
    ensures IsOperation(T.Operation(sender, req, promo, warned, draws), Calls(sender, req, promo, warned, draws), draws,
                        req.key, At(w, n, Working(0), store).flows)
  {
    forall j {:trigger draws(j)} ensures AllOutside(At(w, n, Working(0), store).flows, draws(j).env) {
      OutsideStays(w.flows, n, Working(0), draws(j).env);
    }
  }

  function Calls(sender: User, req: T.TransferRequest, promo: Option<Fees.PromoConfig>, warned: bool,
                 draws: nat -> T.Draw): (calls: nat -> TransferCall)
    ensures forall i :: calls(i) == T.CallOf(sender, req, promo, warned, draws(i))
  {
    (i: nat) => T.CallOf(sender, req, promo, warned, draws(i))
  }

  function Cleared(key: string, net: Net): (f: Store -> Store)
    ensures forall s :: f(s) == ClearKeys(s, key, Drops(net, CompensateMarker), Drops(net, CompensateData))
  {
    (s: Store) => ClearKeys(s, key, Drops(net, CompensateMarker), Drops(net, CompensateData))
  }

  /**
   * A request that is admitted, and interrupted by steps outside requests only, takes the wallet and the cache exactly
   * where the service's Transfer takes them, with the same reply, and counts as executed exactly on success.
   */
  lemma SoloRequest(w: World, n: nat, sender: User, req: T.TransferRequest, promo: Option<Fees.PromoConfig>,
                    o: T.Oracle, backoff: nat)
    returns (steps: seq<WorldStep>, u: World)
    requires n < |w.flows| && w.flows[n] == Flow(ForTransfer, req.key, Looking)
    requires Admit(w.store, req.key, CachedSuffix, o.net) == None
    requires forall j {:trigger o.draws(j)} :: AllOutside(w.flows, o.draws(j).env)
    ensures Play(w, steps) == u
    ensures Matches(u, n, T.Execution(MaxRetries, backoff, promo, w.wallet, w.store, sender, req, o), w, o.net)
  {
    var warned := T.Warned(req, promo, o.now);
    var w1 := At(w, n, Working(0), w.store[req.key := InFlightMark]);
    var a := GetsMarker(w, n);
    OperationAt(w, n, sender, req, promo, warned, o.draws, w1.store);
    var b;
    b, u := SoloRetry(w1, n, T.Progress(w.wallet, None, w1.store), T.Operation(sender, req, promo, warned, o.draws),
                      o.cancel, T.Compensate(req.key, o.net), backoff, Cleared(req.key, o.net),
                      Calls(sender, req, promo, warned, o.draws), o.draws, o.net);
    MatchesFromMarker(u, n, T.Execution(MaxRetries, backoff, promo, w.wallet, w.store, sender, req, o), w, w1.store,
                      o.net);
    steps := Then(w, a, w1, b, u);
  }
}
