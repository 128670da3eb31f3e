// The steps of one request that nobody but webhooks and callbacks interrupts.
module SoloSteps {
  import opened Wrappers
  import opened WalletSystem
  import opened Idempotency
  import opened Requests

  lemma {:induction false} PlayConcat(w: World, a: seq<WorldStep>, b: seq<WorldStep>)
    ensures Play(w, a + b) == Play(Play(w, a), b)
  {
    if b == [] {
      assert a + b == a;
    } else {
      PlayConcat(w, a, b[..|b| - 1]);
      assert (a + b)[..|a + b| - 1] == a + b[..|b| - 1];
    }
  }

  lemma Single(w: World, step: WorldStep) returns (steps: seq<WorldStep>)
    ensures Play(w, steps) == Next(w, step)
  {
    steps := [step];
    assert steps[..0] == [];
    assert Play(w, []) == w;
  }

  lemma Then(w: World, a: seq<WorldStep>, v: World, b: seq<WorldStep>, u: World) returns (steps: seq<WorldStep>)
    requires Play(w, a) == v && Play(v, b) == u
    ensures Play(w, steps) == u
  {
    PlayConcat(w, a, b);
    steps := a + b;
  }

  // ---------- Everybody else ----------

  /** These are steps of nobody's request. */
  ghost predicate AllOutside(flows: seq<Flow>, env: seq<Step>) {
    forall i :: 0 <= i < |env| ==> Outside(flows, env[i])
  }

  lemma {:induction false} Interrupted(w: World, env: seq<Step>) returns (steps: seq<WorldStep>)
    requires AllOutside(w.flows, env)
    ensures Play(w, steps) == w.(wallet := Run(w.wallet, env))
  {
    if env == [] {
      steps := [];
    } else {
      var n := |env| - 1;
      var v := w.(wallet := Run(w.wallet, env[..n]));
      var a := Interrupted(w, env[..n]);
      assert Outside(w.flows, env[n]);
      var b := Single(v, Elsewhere(env[n]));
      steps := Then(w, a, v, b, w.(wallet := Run(w.wallet, env)));
    }
  }

  predicate IsFinishing(p: Phase) {
    p.Committing? || p.Reversing?
  }

  /** What counts as outside does not depend on requests that are not finishing a withdrawal. */
  lemma OutsideStays(flows: seq<Flow>, n: nat, p: Phase, env: seq<Step>)
    requires n < |flows| && AllOutside(flows, env) && !IsFinishing(p)
    ensures AllOutside(flows[n := flows[n].(phase := p)], env)
  {
    var flows' := flows[n := flows[n].(phase := p)];
    forall i | 0 <= i < |env| ensures Outside(flows', env[i]) {
      assert Outside(flows, env[i]);
      assert forall r :: Finishing(flows', r) ==> Finishing(flows, r);
    }
  }

  // ---------- One request ----------

  /** The world in which request n has come to this phase, and the cache holds store. */
  function At(w: World, n: nat, phase: Phase, store: Store): World
    requires n < |w.flows|
  {
    w.(store := store, flows := w.flows[n := w.flows[n].(phase := phase)])
  }

  lemma AtAgain(w: World, n: nat, p: Phase, s: Store, q: Phase, t: Store)
    requires n < |w.flows|
    ensures At(At(w, n, p, s), n, q, t) == At(w, n, q, t)
  {
  }

  lemma Acts(w: World, n: nat, a: Action, e: Effect) returns (steps: seq<WorldStep>)
    requires n < |w.flows| && Perform(w, w.flows[n], a) == e
    ensures Play(w, steps) == ActOn(w, n, e)
  {
    steps := Single(w, Act(n, a));
  }

  /** The request looks its key up and gets the marker. */
  lemma GetsMarker(w: World, n: nat) returns (steps: seq<WorldStep>)
    requires n < |w.flows| && w.flows[n].phase == Looking && w.flows[n].key !in w.store
    ensures Play(w, steps) == At(w, n, Working(0), w.store[w.flows[n].key := InFlightMark])
  {
    var v, u := At(w, n, Acquiring, w.store), At(w, n, Working(0), w.store[w.flows[n].key := InFlightMark]);
    var a := Acts(w, n, Look(true), Move(Acquiring));
    var b := Acts(v, n, Acquire(true, true),
                  Effect(Working(0), Some((w.flows[n].key, InFlightMark)), None, None, false));
    AtAgain(w, n, Acquiring, w.store, Working(0), u.store);
    steps := Then(w, a, v, b, u);
  }

  predicate Writing(p: Phase) {
    || p.Storing? || p.StoringData? || p.Compensating? || p.CompensatingData? || p.ClearingAgain?
    || p.Clearing? || p.ClearingData?
  }

  /** A Redis write or delete at the end of a request. */
  lemma Writes(w: World, n: nat, applied: bool) returns (steps: seq<WorldStep>)
    requires n < |w.flows| && Writing(w.flows[n].phase)
    ensures var e := Written(w.flows[n], applied);
            Play(w, steps) == At(w, n, e.phase, StoreAfter(w.store, e))
  {
    steps := Acts(w, n, Write(applied), Written(w.flows[n], applied));
  }

  lemma StoresMarker(w: World, n: nat, body: Body, lost: bool) returns (steps: seq<WorldStep>)
    requires n < |w.flows| && w.flows[n].phase == Storing(body)
    ensures Play(w, steps) ==
            At(w, n, StoringData(body), if lost then w.store else w.store[w.flows[n].key := CompletedMark])
  {
    steps := Writes(w, n, !lost);
  }

  lemma StoresData(w: World, n: nat, body: Body, lost: bool) returns (steps: seq<WorldStep>)
    requires n < |w.flows| && w.flows[n].phase == StoringData(body)
    ensures Play(w, steps) ==
            At(w, n, Completed(body), if lost then w.store else w.store[CacheKey(w.flows[n]) := Data(body)])
  {
    steps := Writes(w, n, !lost);
  }

  /** The two writes that follow a success. */
  lemma Caches(w: World, n: nat, body: Body, markerLost: bool, dataLost: bool) returns (steps: seq<WorldStep>)
    requires n < |w.flows| && w.flows[n].phase == Storing(body)
    ensures var f := w.flows[n];
            Play(w, steps) ==
            At(w, n, Completed(body), CacheKeys(w.store, f.key, Suffix(f.kind), body, markerLost, dataLost))
  {
    var f := w.flows[n];
    var v := At(w, n, StoringData(body), if markerLost then w.store else w.store[f.key := CompletedMark]);
    var store := CacheKeys(w.store, f.key, Suffix(f.kind), body, markerLost, dataLost);
    var a := StoresMarker(w, n, body, markerLost);
    var b := StoresData(v, n, body, dataLost);
    AtAgain(w, n, StoringData(body), v.store, Completed(body), store);
    steps := Then(w, a, v, b, At(w, n, Completed(body), store));
  }

  // ---------- A request that is not admitted ----------

  /** How a request ends that is answered like this. */
  function EndOf(reply: Reply): Phase {
    match reply
    case Fresh(body) => Completed(body)
    case Cached(body) => Repeated(body)
    case Refused(_) => Ended
  }

  /** Without the marker a request leaves the wallet alone and ends with the reply of the idempotency check. */
  lemma NotAdmitted(w: World, n: nat, net: Net) returns (steps: seq<WorldStep>)
    requires n < |w.flows| && w.flows[n].phase == Looking
    requires Admit(w.store, w.flows[n].key, Suffix(w.flows[n].kind), net).Some?
    ensures var f := w.flows[n];
            Play(w, steps) ==
            At(w, n, EndOf(Admit(w.store, f.key, Suffix(f.kind), net).value), StoreAcquired(w.store, f.key, net))
  {
    var f := w.flows[n];
    var reply := Admit(w.store, f.key, Suffix(f.kind), net).value;
    var e := Looked(w.store, f.key, !Fails(net, GetStatus));
    var v, u := At(w, n, e.phase, w.store), At(w, n, EndOf(reply), StoreAcquired(w.store, f.key, net));
    steps := Acts(w, n, Look(!Fails(net, GetStatus)), e);
    if e.phase == Reading {
      var b := Acts(v, n, Look(!Fails(net, GetData)), ReadBack(w.store, f, !Fails(net, GetData)));
      AtAgain(w, n, e.phase, w.store, EndOf(reply), w.store);
      steps := Then(w, steps, v, b, u);
    } else if e.phase == Acquiring {
      var applied := !Drops(net, AcquireMarker);
      var b := Acts(v, n, Acquire(!Fails(net, AcquireMarker), applied),
                    Acquired(w.store, f.key, !Fails(net, AcquireMarker), applied));
      AtAgain(w, n, e.phase, w.store, EndOf(reply), u.store);
      steps := Then(w, steps, v, b, u);
    }
  }
}
