// Every reason for which a key can disappear while it is relied on lets two requests with that key take effect.
// Each lemma of a stage returns the steps that lead from one world to the next.
module RequestRaces {
  import opened Wrappers
  import opened Tables
  import opened Transactions
  import opened WalletSystem
  import opened Errors
  import opened Idempotency
  import opened Requests
  import opened RequestSafety
  import RequestLog
  import Saga
  import Fees

  /** Nothing but requests and expiries. */
  predicate OnlyRequests(steps: seq<WorldStep>) {
    forall i :: 0 <= i < |steps| ==> !steps[i].Elsewhere?
  }

  /** A run of requests that loses keys for these reasons only leads from w to v. */
  predicate Leads(w: World, steps: seq<WorldStep>, v: World, gaps: set<Gap>) {
    AllowedRun(w, steps, gaps) && OnlyRequests(steps) && Play(w, steps) == v
  }

  lemma {:induction false} Concat(w: World, a: seq<WorldStep>, b: seq<WorldStep>, gaps: set<Gap>)
    requires AllowedRun(w, a, gaps) && AllowedRun(Play(w, a), b, gaps)
    ensures Play(w, a + b) == Play(Play(w, a), b) && AllowedRun(w, a + b, gaps)
  {
    if b == [] {
      assert a + b == a;
    } else {
      Concat(w, a, b[..|b| - 1], gaps);
      assert (a + b)[..|a + b| - 1] == a + b[..|b| - 1];
    }
  }

  lemma Single(w: World, step: WorldStep, gaps: set<Gap>) returns (steps: seq<WorldStep>)
    requires Allowed(w, step, gaps) && !step.Elsewhere?
    ensures Leads(w, steps, Next(w, step), gaps)
  {
    steps := [step];
    assert steps[..0] == [];
    assert Play(w, []) == w;
  }

  lemma Then(w: World, a: seq<WorldStep>, v: World, b: seq<WorldStep>, u: World, gaps: set<Gap>)
    returns (steps: seq<WorldStep>)
    requires Leads(w, a, v, gaps) && Leads(v, b, u, gaps)
    ensures Leads(w, steps, u, gaps)
  {
    Concat(w, a, b, gaps);
    steps := a + b;
    assert OnlyRequests(steps);
  }

  // ---------- Stages ----------

  /** w with one more request. */
  function With(w: World, f: Flow): World {
    w.(flows := w.flows + [f])
  }

  /** w with one more request that has the marker. */
  function Marked(w: World, f: Flow): World {
    With(w, f).(store := w.store[f.key := InFlightMark])
  }

  lemma Arrives(w: World, kind: Kind, key: string, gaps: set<Gap>) returns (steps: seq<WorldStep>)
    requires key != ""
    ensures Leads(w, steps, With(w, Flow(kind, key, Looking)), gaps)
  {
    steps := Single(w, Arrive(kind, key), gaps);
  }

  lemma Looks(w: World, kind: Kind, key: string, gaps: set<Gap>) returns (steps: seq<WorldStep>)
    requires key !in w.store
    ensures Leads(With(w, Flow(kind, key, Looking)), steps, With(w, Flow(kind, key, Acquiring)), gaps)
  {
    var v, f := With(w, Flow(kind, key, Looking)), Flow(kind, key, Acquiring);
    steps := Single(v, Act(|w.flows|, Look(true)), gaps);
    assert v.flows[|w.flows| := f] == w.flows + [f];
  }

  lemma Acquires(w: World, kind: Kind, key: string, gaps: set<Gap>) returns (steps: seq<WorldStep>)
    requires key !in w.store
    ensures Leads(With(w, Flow(kind, key, Acquiring)), steps, Marked(w, Flow(kind, key, Working(0))), gaps)
  {
    var v, f := With(w, Flow(kind, key, Acquiring)), Flow(kind, key, Working(0));
    steps := Single(v, Act(|w.flows|, Acquire(true, true)), gaps);
    assert v.flows[|w.flows| := f] == w.flows + [f];
  }

  /** A request arrives and gets the marker. */
  lemma Enters(w: World, kind: Kind, key: string, gaps: set<Gap>) returns (steps: seq<WorldStep>)
    requires key != "" && key !in w.store
    ensures Leads(w, steps, Marked(w, Flow(kind, key, Working(0))), gaps)
  {
    var looking, acquiring := With(w, Flow(kind, key, Looking)), With(w, Flow(kind, key, Acquiring));
    var a := Arrives(w, kind, key, gaps);
    var b := Looks(w, kind, key, gaps);
    var ab := Then(w, a, looking, b, acquiring, gaps);
    var c := Acquires(w, kind, key, gaps);
    steps := Then(w, ab, acquiring, c, Marked(w, Flow(kind, key, Working(0))), gaps);
  }

  /** Two top-ups that both go through, one after the other. */
  predicate BothCreate(t: Tables, first: TopupCall, second: TopupCall) {
    && first.key == second.key && first.amount > 0 && second.amount > 0
    && TopupTx(t, first).Some? && TopupTx(TopupTx(t, first).value, second).Some?
  }

  /** From the empty database any two top-ups with different ids and VA numbers both go through. */
  lemma FreshTopupsCreate(first: TopupCall, second: TopupCall)
    requires first.amount > 0 && second.amount > 0 && first.key == second.key
    requires first.entry != second.entry && first.number != second.number
    ensures BothCreate(Empty, first, second)
  {
  }

  function BodyOf(c: TopupCall): Body {
    TopupBody(c.entry, c.number, c.amount)
  }

  function AfterCreate(w: World, id: nat, c: TopupCall): World
    requires id < |w.flows| && TopupTx(w.wallet.tables, c).Some?
  {
    World(w.wallet.(tables := TopupTx(w.wallet.tables, c).value), w.store,
          w.flows[id := w.flows[id].(phase := Storing(BodyOf(c)))], w.executed + multiset{w.flows[id].key})
  }

  lemma CreateEffect(s: System, c: TopupCall)
    requires c.amount > 0 && TopupTx(s.tables, c).Some?
    ensures Created(s, Some(c)) == Effect(Storing(BodyOf(c)), None, None, Some(CreateTopup(c)), true)
    ensures Apply(s, CreateTopup(c)) == s.(tables := TopupTx(s.tables, c).value)
  {
  }

  lemma Creates(w: World, id: nat, c: TopupCall, gaps: set<Gap>) returns (steps: seq<WorldStep>)
    requires id < |w.flows| && w.flows[id] == Flow(ForTopup, c.key, Working(0))
    requires c.amount > 0 && TopupTx(w.wallet.tables, c).Some?
    ensures Leads(w, steps, AfterCreate(w, id, c), gaps)
  {
    CreateEffect(w.wallet, c);
    assert Perform(w, w.flows[id], CreateVA(Some(c))) == Created(w.wallet, Some(c));
    steps := Single(w, Act(id, CreateVA(Some(c))), gaps);
  }

  /** A request arrives, gets the marker and creates its top-up. */
  lemma EntersAndCreates(w: World, c: TopupCall, gaps: set<Gap>) returns (steps: seq<WorldStep>, v: World)
    requires c.key != "" && c.key !in w.store && c.amount > 0 && TopupTx(w.wallet.tables, c).Some?
    ensures v == AfterCreate(Marked(w, Flow(ForTopup, c.key, Working(0))), |w.flows|, c)
    ensures Leads(w, steps, v, gaps)
  {
    var u := Marked(w, Flow(ForTopup, c.key, Working(0)));
    v := AfterCreate(u, |w.flows|, c);
    var a := Enters(w, ForTopup, c.key, gaps);
    var b := Creates(u, |w.flows|, c, gaps);
    steps := Then(w, a, u, b, v, gaps);
  }

  /** When a request works without its marker, another one with its key enters, and both go through. */
  lemma UnmarkedAllowsTwo(w: World, n: nat, first: TopupCall, second: TopupCall, gaps: set<Gap>)
    returns (steps: seq<WorldStep>, v: World)
    requires n < |w.flows| && w.flows[n] == Flow(ForTopup, first.key, Working(0))
    requires first.key != "" && first.key !in w.store && BothCreate(w.wallet.tables, first, second)
    ensures Leads(w, steps, v, gaps) && v.executed[first.key] == w.executed[first.key] + 2
  {
    var u := AfterCreate(w, n, first);
    var a := Creates(w, n, first, gaps);
    var b;
    b, v := EntersAndCreates(u, second, gaps);
    steps := Then(w, a, u, b, v, gaps);
  }

  // ---------- Expiry ----------

  /** Nothing is cached and nobody has asked for anything. */
  predicate Quiet(w: World) {
    w.store == map[] && w.flows == [] && w.executed == multiset{}
  }

  lemma Expires(w: World, key: string, gap: Gap) returns (steps: seq<WorldStep>)
    requires gap == if w.executed[key] > 0 then ResultExpires else MarkerExpires
    ensures Leads(w, steps, w.(store := w.store - {key}), {gap})
  {
    steps := Single(w, Expire(key), {gap});
  }

  /** If the marker expires while its request is still working, a second request with the key can go through as well. */
  lemma MarkerExpiryAllowsTwo(w: World, first: TopupCall, second: TopupCall) returns (steps: seq<WorldStep>)
    requires Quiet(w) && first.key != "" && BothCreate(w.wallet.tables, first, second)
    ensures AllowedRun(w, steps, {MarkerExpires}) && OnlyRequests(steps) && Play(w, steps).executed[first.key] == 2
  {
    var u := Marked(w, Flow(ForTopup, first.key, Working(0)));
    var v := u.(store := u.store - {first.key});
    var a := Enters(w, ForTopup, first.key, {MarkerExpires});
    var b := Expires(u, first.key, MarkerExpires);
    var ab := Then(w, a, u, b, v, {MarkerExpires});
    var c, end := UnmarkedAllowsTwo(v, 0, first, second, {MarkerExpires});
    steps := Then(w, ab, v, c, end, {MarkerExpires});
  }

  lemma Stores(w: World, id: nat, body: Body, gaps: set<Gap>) returns (steps: seq<WorldStep>, v: World)
    requires id < |w.flows| && w.flows[id].phase == Storing(body)
    ensures v == w.(store := w.store[w.flows[id].key := CompletedMark],
                    flows := w.flows[id := w.flows[id].(phase := StoringData(body))])
    ensures Leads(w, steps, v, gaps)
  {
    v := Next(w, Act(id, Write(true)));
    steps := Single(w, Act(id, Write(true)), gaps);
  }

  lemma StoresData(w: World, id: nat, body: Body, gaps: set<Gap>) returns (steps: seq<WorldStep>, v: World)
    requires id < |w.flows| && w.flows[id].phase == StoringData(body)
    ensures v == w.(store := w.store[CacheKey(w.flows[id]) := Data(body)],
                    flows := w.flows[id := w.flows[id].(phase := Completed(body))])
    ensures Leads(w, steps, v, gaps)
  {
    v := Next(w, Act(id, Write(true)));
    steps := Single(w, Act(id, Write(true)), gaps);
  }

  lemma Caches(w: World, id: nat, body: Body, gaps: set<Gap>) returns (steps: seq<WorldStep>, v: World)
    requires id < |w.flows| && w.flows[id].phase == Storing(body)
    ensures v == w.(store := w.store[w.flows[id].key := CompletedMark][CacheKey(w.flows[id]) := Data(body)],
                    flows := w.flows[id := w.flows[id].(phase := Completed(body))])
    ensures Leads(w, steps, v, gaps)
  {
    var a, stored := Stores(w, id, body, gaps);
    var b;
    b, v := StoresData(stored, id, body, gaps);
    steps := Then(w, a, stored, b, v, gaps);
  }

  /** A top-up from its arrival to the reply. */
  lemma Answers(w: World, c: TopupCall, gaps: set<Gap>) returns (steps: seq<WorldStep>, v: World)
    requires c.key != "" && c.key !in w.store && c.amount > 0 && TopupTx(w.wallet.tables, c).Some?
    ensures v == World(w.wallet.(tables := TopupTx(w.wallet.tables, c).value),
                       w.store[c.key := CompletedMark][c.key + CachedSuffix := Data(BodyOf(c))],
                       w.flows + [Flow(ForTopup, c.key, Completed(BodyOf(c)))], w.executed + multiset{c.key})
    ensures Leads(w, steps, v, gaps)
  {
    var a, created := EntersAndCreates(w, c, gaps);
    var b;
    b, v := Caches(created, |w.flows|, BodyOf(c), gaps);
    steps := Then(w, a, created, b, v, gaps);
    SameStore(w.store, c.key);
    SameFlows(w.flows, ForTopup, c.key, Working(0), Storing(BodyOf(c)), Completed(BodyOf(c)));
  }

  lemma SameStore(store: Store, key: string)
    ensures store[key := InFlightMark][key := CompletedMark] == store[key := CompletedMark]
  {
  }

  lemma SameFlows(flows: seq<Flow>, kind: Kind, key: string, p: Phase, q: Phase, r: Phase)
    ensures (flows + [Flow(kind, key, p)])[|flows| := Flow(kind, key, q)][|flows| := Flow(kind, key, r)] ==
            flows + [Flow(kind, key, r)]
  {
  }

  /** After the completed marker of an answered request has expired, the same request goes through again. */
  lemma ResultExpiryAllowsTwo(w: World, first: TopupCall, second: TopupCall) returns (steps: seq<WorldStep>)
    requires Quiet(w) && first.key != "" && BothCreate(w.wallet.tables, first, second)
    ensures AllowedRun(w, steps, {ResultExpires}) && OnlyRequests(steps) && Play(w, steps).executed[first.key] == 2
  {
    var a, u := Answers(w, first, {ResultExpires});
    var v := u.(store := u.store - {first.key});
    var b := Expires(u, first.key, ResultExpires);
    var ab := Then(w, a, u, b, v, {ResultExpires});
    var c, end := EntersAndCreates(v, second, {ResultExpires});
    steps := Then(w, ab, v, c, end, {ResultExpires});
  }

  // ---------- Deletes ----------

  function AfterError(k: nat, e: Error): Phase {
    if e.domain.Some? then Clearing
    else if !Saga.IsTransient(e) then Ended
    else if k + 1 >= MaxRetries then Compensating
    else Working(k + 1)
  }

  /** An attempt of a transfer fails. */
  lemma Fails(w: World, call: TransferCall, e: Error, k: nat, gaps: set<Gap>) returns (steps: seq<WorldStep>)
    ensures Leads(Marked(w, Flow(ForTransfer, call.key, Working(k))), steps,
                  Marked(w, Flow(ForTransfer, call.key, AfterError(k, e))), gaps)
  {
    var v, f := Marked(w, Flow(ForTransfer, call.key, Working(k))), Flow(ForTransfer, call.key, AfterError(k, e));
    steps := Single(v, Act(|w.flows|, Attempt(call, Some(e), false)), gaps);
    assert v.flows[|w.flows| := f] == w.flows + [f];
  }

  lemma FailsThrice(w: World, call: TransferCall, e: Error, gaps: set<Gap>) returns (steps: seq<WorldStep>)
    requires call.key != "" && call.key !in w.store && e.domain == None && Saga.IsTransient(e)
    ensures Leads(w, steps, Marked(w, Flow(ForTransfer, call.key, Compensating)), gaps)
  {
    var none := Marked(w, Flow(ForTransfer, call.key, Working(0)));
    var once := Marked(w, Flow(ForTransfer, call.key, Working(1)));
    var twice := Marked(w, Flow(ForTransfer, call.key, Working(2)));
    var a := Enters(w, ForTransfer, call.key, gaps);
    var b := Fails(w, call, e, 0, gaps);
    var ab := Then(w, a, none, b, once, gaps);
    var c := Fails(w, call, e, 1, gaps);
    var abc := Then(w, ab, once, c, twice, gaps);
    var d := Fails(w, call, e, 2, gaps);
    steps := Then(w, abc, twice, d, Marked(w, Flow(ForTransfer, call.key, Compensating)), gaps);
  }

  /** The deletes of a transfer that failed. */
  predicate Deleting(p: Phase) {
    p == Compensating || p == CompensatingData || p == ClearingAgain || p == Clearing || p == ClearingData
  }

  /** The key that the next delete removes, and the phase it leaves the transfer in. */
  function Victim(p: Phase, key: string): string {
    if p == CompensatingData || p == ClearingData then key + CachedSuffix else key
  }

  function AfterDelete(p: Phase): Phase {
    match p
    case Compensating => CompensatingData
    case CompensatingData => ClearingAgain
    case ClearingAgain => ClearingData
    case Clearing => ClearingData
    case _ => Ended
  }

  function Without(w: World, n: nat, p: Phase): World
    requires n < |w.flows|
  {
    w.(store := w.store - {Victim(p, w.flows[n].key)}, flows := w.flows[n := w.flows[n].(phase := AfterDelete(p))])
  }

  lemma Deletes(w: World, n: nat, p: Phase, gaps: set<Gap>) returns (steps: seq<WorldStep>)
    requires n < |w.flows| && w.flows[n].kind == ForTransfer && w.flows[n].phase == p && Deleting(p)
    requires Allowed(w, Act(n, Write(true)), gaps)
    ensures Leads(w, steps, Without(w, n, p), gaps)
  {
    steps := Single(w, Act(n, Write(true)), gaps);
  }

  /** A top-up enters just before a transfer's delete, which removes its marker. */
  lemma DeletedAllowsTwo(w: World, p: Phase, first: TopupCall, second: TopupCall, gap: Gap)
    returns (steps: seq<WorldStep>, v: World)
    requires |w.flows| == 1 && w.flows[0].kind == ForTransfer && w.flows[0].phase == p
    requires (p == ClearingAgain && gap == SecondDelete) || (p == ClearingData && gap == SuffixDelete)
    requires first.key == Victim(p, w.flows[0].key) && first.key != "" && first.key !in w.store
    requires BothCreate(w.wallet.tables, first, second)
    ensures Leads(w, steps, v, {gap}) && v.executed[first.key] == w.executed[first.key] + 2
  {
    var w1 := Marked(w, Flow(ForTopup, first.key, Working(0)));
    var w2 := Without(w1, 0, p);
    var a := Enters(w, ForTopup, first.key, {gap});
    var b := Deletes(w1, 0, p, {gap});
    var ab := Then(w, a, w1, b, w2, {gap});
    var c;
    c, v := UnmarkedAllowsTwo(w2, 1, first, second, {gap});
    steps := Then(w, ab, w2, c, v, {gap});
  }

  lemma OneFlowReliesOnOwnKey(w: World, k: string)
    requires w.executed[k] == 0 && |w.flows| == 1 && w.flows[0].key != k
    ensures !ReliedOn(w, k)
  {
  }

  /** A transfer that exhausts its retries, up to the second delete of its marker. */
  lemma Exhausts(w: World, call: TransferCall, e: Error, gaps: set<Gap>) returns (steps: seq<WorldStep>, v: World)
    requires Quiet(w) && call.key != "" && e.domain == None && Saga.IsTransient(e)
    ensures v.flows == [Flow(ForTransfer, call.key, ClearingAgain)] && v.store == map[] && v.executed == multiset{}
    ensures v.wallet == w.wallet && Leads(w, steps, v, gaps)
  {
    var w1 := Marked(w, Flow(ForTransfer, call.key, Compensating));
    var w2 := Without(w1, 0, Compensating);
    v := Without(w2, 0, CompensatingData);
    var a := FailsThrice(w, call, e, gaps);
    var b := Deletes(w1, 0, Compensating, gaps);
    var ab := Then(w, a, w1, b, w2, gaps);
    OneFlowReliesOnOwnKey(w2, call.key + CachedSuffix);
    var c := Deletes(w2, 0, CompensatingData, gaps);
    steps := Then(w, ab, w2, c, v, gaps);
  }

  /** After exhaustion the marker is deleted twice; the second delete can erase the marker of a later request. */
  lemma SecondDeleteAllowsTwo(w: World, call: TransferCall, e: Error, first: TopupCall, second: TopupCall)
    returns (steps: seq<WorldStep>)
    requires Quiet(w) && first.key != "" && call.key == first.key && e.domain == None && Saga.IsTransient(e)
    requires BothCreate(w.wallet.tables, first, second)
    ensures AllowedRun(w, steps, {SecondDelete}) && OnlyRequests(steps) && Play(w, steps).executed[first.key] == 2
  {
    var a, v := Exhausts(w, call, e, {SecondDelete});
    var b, end := DeletedAllowsTwo(v, ClearingAgain, first, second, SecondDelete);
    steps := Then(w, a, v, b, end, {SecondDelete});
  }

  /** A refused transfer deletes its key with ":cached" appended; a request whose own key that is loses its marker. */
  lemma SuffixDeleteAllowsTwo(w: World, call: TransferCall, e: Error, first: TopupCall, second: TopupCall)
    returns (steps: seq<WorldStep>)
    requires Quiet(w) && call.key != "" && first.key == call.key + CachedSuffix && e.domain.Some?
    requires BothCreate(w.wallet.tables, first, second)
    ensures AllowedRun(w, steps, {SuffixDelete}) && OnlyRequests(steps) && Play(w, steps).executed[first.key] == 2
  {
    var w1 := Marked(w, Flow(ForTransfer, call.key, Working(0)));
    var w2 := Marked(w, Flow(ForTransfer, call.key, Clearing));
    var w3 := Without(w2, 0, Clearing);
    var a := Enters(w, ForTransfer, call.key, {SuffixDelete});
    var b := Fails(w, call, e, 0, {SuffixDelete});
    var ab := Then(w, a, w1, b, w2, {SuffixDelete});
    var c := Deletes(w2, 0, Clearing, {SuffixDelete});
    var abc := Then(w, ab, w2, c, w3, {SuffixDelete});
    var d, end := DeletedAllowsTwo(w3, ClearingData, first, second, SuffixDelete);
    steps := Then(w, abc, w3, d, end, {SuffixDelete});
  }

  // ---------- Exactly these four reasons ----------

  /** From the empty database, each reason alone is enough for two top-ups under one key. */
  lemma GapAllowsTwo(cfg: Config, gap: Gap) returns (steps: seq<WorldStep>, k: string)
    ensures AllowedRun(NewWorld(cfg), steps, {gap}) && OnlyRequests(steps)
    ensures Play(NewWorld(cfg), steps).executed[k] == 2
  {
    k := "a" + CachedSuffix;
    var first, second := TopupCall(k, 0, 1, "8800", 0, 0), TopupCall(k, 0, 1, "8801", 1, 0);
    FreshTopupsCreate(first, second);
    match gap
    case MarkerExpires => steps := MarkerExpiryAllowsTwo(NewWorld(cfg), first, second);
    case ResultExpires => steps := ResultExpiryAllowsTwo(NewWorld(cfg), first, second);
    case SecondDelete =>
      var call := TransferCall(k, 0, Some(1), 1, Fees.Basic, None, "", false, 0, 2, 3, 0);
      steps := SecondDeleteAllowsTwo(NewWorld(cfg), call, Error(None, Some("40001"), ""), first, second);
    case SuffixDelete =>
      var call := TransferCall("a", 0, Some(0), 1, Fees.Basic, None, "", false, 0, 2, 3, 0);
      steps := SuffixDeleteAllowsTwo(NewWorld(cfg), call, Error(Some(Code.SelfTransfer), None, ""), first, second);
  }

  lemma {:induction false} MoreGaps(w: World, steps: seq<WorldStep>, some: set<Gap>, more: set<Gap>)
    requires AllowedRun(w, steps, some) && some <= more
    ensures AllowedRun(w, steps, more)
  {
    if steps != [] {
      MoreGaps(w, steps[..|steps| - 1], some, more);
    }
  }

  ghost predicate AtMostOnce(cfg: Config, steps: seq<WorldStep>) {
    forall k :: Play(NewWorld(cfg), steps).executed[k] <= 1
  }

  /** At most one request per key takes effect in every run, if and only if no key that is relied on can disappear. */
  lemma {:induction false} AtMostOneIffNoGap(cfg: Config, gaps: set<Gap>)
    ensures (forall steps :: AllowedRun(NewWorld(cfg), steps, gaps) ==> AtMostOnce(cfg, steps)) <==> gaps == {}
  {
    if gaps == {} {
      forall steps, k | AllowedRun(NewWorld(cfg), steps, gaps) ensures Play(NewWorld(cfg), steps).executed[k] <= 1 {
        AtMostOneExecution(cfg, steps, k);
      }
    } else {
      var gap :| gap in gaps;
      var steps, k := GapAllowsTwo(cfg, gap);
      MoreGaps(NewWorld(cfg), steps, {gap}, gaps);
      assert !AtMostOnce(cfg, steps);
    }
  }

  ghost predicate Routed(steps: seq<WorldStep>) {
    forall i :: 0 <= i < |steps| ==> RequestLog.RoutedStep(steps[i])
  }

  ghost predicate AtMostOneEntry(cfg: Config, steps: seq<WorldStep>) {
    forall k :: RequestLog.Effective(Play(NewWorld(cfg), steps).wallet.tables.log, k) <= 1
  }

  /** The same for the log of the routed system: at most one effective entry per key in every run. */
  lemma {:induction false} AtMostOneEntryIffNoGap(cfg: Config, gaps: set<Gap>)
    ensures (forall steps :: AllowedRun(NewWorld(cfg), steps, gaps) && Routed(steps) ==> AtMostOneEntry(cfg, steps))
       <==> gaps == {}
  {
    if gaps == {} {
      forall steps, k | AllowedRun(NewWorld(cfg), steps, gaps) && Routed(steps)
        ensures RequestLog.Effective(Play(NewWorld(cfg), steps).wallet.tables.log, k) <= 1
      {
        RequestLog.AtMostOneEntryPerKey(cfg, steps, k);
      }
    } else {
      var gap :| gap in gaps;
      var steps, k := GapAllowsTwo(cfg, gap);
      MoreGaps(NewWorld(cfg), steps, {gap}, gaps);
      assert Routed(steps);
      RequestLog.PlayOk(cfg, steps);
      assert RequestLog.Effective(Play(NewWorld(cfg), steps).wallet.tables.log, k) == 2;
    }
  }
}
