// For each idempotency key at most one request takes effect.
module RequestSafety {
  import opened Wrappers
  import opened Idempotency
  import opened Requests
  import Transactions

  // ---------- Which removals of a key do harm ----------

  /** In these phases a request relies on its marker. */
  predicate Holds(p: Phase) {
    p.Working? || p.AtBank? || p.Committing? || p.Storing? || p.Clearing? || p.Compensating?
  }

  predicate HoldsKey(f: Flow, k: string) {
    f.key == k && Holds(f.phase)
  }

  /** A request has the key's marker, or one with this key has taken effect. */
  predicate ReliedOn(w: World, k: string) {
    w.executed[k] > 0 || exists i :: 0 <= i < |w.flows| && HoldsKey(w.flows[i], k)
  }

  /** The key that a step removes without owning it: by expiry, or by a delete of a request that does not hold it. */
  function Removed(w: World, step: WorldStep): Option<string> {
    match step
    case Expire(key) => Some(key)
    case Act(id, action) =>
      if id < |w.flows| then
        var f, del := w.flows[id], Perform(w, w.flows[id], action).del;
        if Holds(f.phase) && del == Some(f.key) then None else del
      else None
    case _ => None
  }

  /** Why a key that is relied on can disappear. */
  datatype Gap =
    | MarkerExpires   // while its request is still working
    | ResultExpires   // after its request took effect
    | SecondDelete    // the delete that follows an exhausted transfer's compensation
    | SuffixDelete    // the delete of another transfer's key with ":cached" appended

  function Cause(w: World, step: WorldStep): Gap {
    match step
    case Expire(key) => if w.executed[key] > 0 then ResultExpires else MarkerExpires
    case Act(id, _) => if id < |w.flows| && w.flows[id].phase == ClearingAgain then SecondDelete else SuffixDelete
    case _ => SuffixDelete
  }

  predicate Allowed(w: World, step: WorldStep, gaps: set<Gap>) {
    Removed(w, step).Some? && ReliedOn(w, Removed(w, step).value) ==> Cause(w, step) in gaps
  }

  /** In this run a key that is relied on disappears for these reasons only. */
  predicate AllowedRun(w: World, steps: seq<WorldStep>, gaps: set<Gap>) {
    steps == [] ||
    var n := |steps| - 1;
    AllowedRun(w, steps[..n], gaps) && Allowed(Play(w, steps[..n]), steps[n], gaps)
  }

  // ---------- The invariant ----------

  /** The request has taken effect. */
  predicate Ran(p: Phase) {
    p.Storing? || p.StoringData? || p.Completed?
  }

  predicate RanKey(f: Flow, k: string) {
    f.key == k && Ran(f.phase)
  }

  /** What a request knows about its key while it holds it, and after it took effect. */
  predicate FlowOk(w: World, f: Flow, k: string) {
    && (HoldsKey(f, k) ==> k in w.store && w.executed[k] == if f.phase.Storing? then 1 else 0)
    && (RanKey(f, k) ==> w.executed[k] == 1)
  }

  ghost predicate OneHolder(flows: seq<Flow>, k: string) {
    && (forall i, j :: 0 <= i < j < |flows| && HoldsKey(flows[i], k) ==> !HoldsKey(flows[j], k))
    && (forall i, j :: 0 <= i < j < |flows| && RanKey(flows[i], k) ==> !RanKey(flows[j], k))
  }

  ghost predicate KeyOk(w: World, k: string) {
    && OneHolder(w.flows, k)
    && (forall i :: 0 <= i < |w.flows| ==> FlowOk(w, w.flows[i], k))
    && w.executed[k] <= 1
    && (w.executed[k] == 1 ==> k in w.store)
  }

  // ---------- Every step keeps it ----------

  /** What an effect may do to markers, and when it executes. */
  predicate Shaped(store: Store, f: Flow, e: Effect) {
    && (e.ran ==> Holds(f.phase) && !f.phase.Storing? && e.phase.Storing? && e.del == None && e.put == None)
    && (Holds(e.phase) && !Holds(f.phase) ==>
          f.key !in store && e.put == Some((f.key, InFlightMark)) && e.phase == Working(0) && e.del == None)
    && (Holds(e.phase) && Holds(f.phase) ==> e.del == None && (f.phase.Storing? ==> e.phase == f.phase))
    && (Ran(e.phase) ==> e.ran || Ran(f.phase))
    && (e.phase.Storing? ==> e.ran || f.phase.Storing?)
    && (f.phase.Storing? ==> e.del == None)
  }

  lemma WorkShaped(w: World, f: Flow, a: Action)
    requires f.phase.Working?
    ensures Shaped(w.store, f, Perform(w, f, a))
  {
  }

  lemma BankShaped(w: World, f: Flow, a: Action)
    requires WithBank(f.phase)
    ensures Shaped(w.store, f, Perform(w, f, a))
  {
  }

  lemma RedisShaped(w: World, f: Flow, a: Action)
    requires !f.phase.Working? && !WithBank(f.phase)
    ensures Shaped(w.store, f, Perform(w, f, a))
  {
  }

  lemma EffectShaped(w: World, f: Flow, a: Action)
    ensures Shaped(w.store, f, Perform(w, f, a))
  {
    if f.phase.Working? {
      WorkShaped(w, f, a);
    } else if WithBank(f.phase) {
      BankShaped(w, f, a);
    } else {
      RedisShaped(w, f, a);
    }
  }

  lemma ActKeepsKey(w: World, id: nat, e: Effect, k: string)
    requires id < |w.flows| && KeyOk(w, k) && Shaped(w.store, w.flows[id], e)
    requires e.del == Some(k) ==> HoldsKey(w.flows[id], k) || !ReliedOn(w, k)
    ensures KeyOk(ActOn(w, id, e), k)
  {
    var f, w' := w.flows[id], ActOn(w, id, e);
    assert FlowOk(w, f, k);
    forall i | 0 <= i < |w'.flows| ensures FlowOk(w', w'.flows[i], k) {
      assert FlowOk(w, w.flows[i], k);
      assert i < id ==> !(HoldsKey(w.flows[i], k) && HoldsKey(f, k));
      assert i < id ==> !(RanKey(w.flows[i], k) && RanKey(f, k));
    }
    forall i, j | 0 <= i < j < |w'.flows| && HoldsKey(w'.flows[i], k) ensures !HoldsKey(w'.flows[j], k) {
      assert FlowOk(w, w.flows[i], k) && FlowOk(w, w.flows[j], k);
    }
    forall i, j | 0 <= i < j < |w'.flows| && RanKey(w'.flows[i], k) ensures !RanKey(w'.flows[j], k) {
      assert FlowOk(w, w.flows[i], k) && FlowOk(w, w.flows[j], k);
    }
  }

  lemma NextKeepsKey(w: World, step: WorldStep, k: string)
    requires KeyOk(w, k) && Allowed(w, step, {})
    ensures KeyOk(Next(w, step), k)
  {
    if step.Act? && step.id < |w.flows| {
      EffectShaped(w, w.flows[step.id], step.action);
      ActKeepsKey(w, step.id, Perform(w, w.flows[step.id], step.action), k);
    } else {
      var w' := Next(w, step);
      forall i | 0 <= i < |w'.flows| ensures FlowOk(w', w'.flows[i], k) {
        assert i < |w.flows| ==> FlowOk(w, w.flows[i], k);
      }
    }
  }

  lemma {:induction false} RunsKeepKeys(w: World, steps: seq<WorldStep>, k: string)
    requires KeyOk(w, k) && AllowedRun(w, steps, {})
    ensures KeyOk(Play(w, steps), k)
  {
    if steps != [] {
      var n := |steps| - 1;
      RunsKeepKeys(w, steps[..n], k);
      NextKeepsKey(Play(w, steps[..n]), steps[n], k);
    }
  }

  /**
   * Over any interleaving of any number of requests, with expiries, exhausted retries and lost Redis commands: as long
   * as no key disappears while it is relied on, at most one request takes effect per key.
   */
  lemma {:induction false} AtMostOneExecution(cfg: Transactions.Config, steps: seq<WorldStep>, k: string)
    requires AllowedRun(NewWorld(cfg), steps, {})
    ensures Play(NewWorld(cfg), steps).executed[k] <= 1
  {
    RunsKeepKeys(NewWorld(cfg), steps, k);
  }

  // ---------- Conditions that callers can see to ----------

  predicate EndsCached(key: string) {
    |key| >= |CachedSuffix| && key[|key| - |CachedSuffix|..] == CachedSuffix
  }

  /**
   * Only keys that nobody relies on expire, no request's key ends in ":cached", and no transfer exhausts its
   * retries.
   */
  predicate Plain(w: World, step: WorldStep) {
    match step
    case Arrive(_, key) => !EndsCached(key)
    case Act(id, action) => id < |w.flows| ==> Perform(w, w.flows[id], action).phase != Compensating
    case Elsewhere(_) => true
    case Expire(key) => !ReliedOn(w, key)
  }

  predicate PlainRun(w: World, steps: seq<WorldStep>) {
    steps == [] ||
    var n := |steps| - 1;
    PlainRun(w, steps[..n]) && Plain(Play(w, steps[..n]), steps[n])
  }

  predicate Tidy(f: Flow) {
    !EndsCached(f.key) && !f.phase.Compensating? && !f.phase.CompensatingData? && !f.phase.ClearingAgain?
  }

  ghost predicate AllTidy(w: World) {
    && (forall i :: 0 <= i < |w.flows| ==> Tidy(w.flows[i]))
    && (forall k :: w.executed[k] > 0 ==> !EndsCached(k))
  }

  lemma CachedKeyEnds(key: string)
    ensures EndsCached(key + CachedSuffix)
  {
  }

  lemma PlainWork(w: World, f: Flow, a: Action)
    requires f.phase.Working?
    requires Tidy(f) && Perform(w, f, a).phase != Compensating
    ensures Tidy(f.(phase := Perform(w, f, a).phase))
    ensures var del := Perform(w, f, a).del;
            del == None || (Holds(f.phase) && del == Some(f.key)) || del == Some(f.key + CachedSuffix)
  {
  }

  lemma PlainBank(w: World, f: Flow, a: Action)
    requires WithBank(f.phase)
    requires Tidy(f) && Perform(w, f, a).phase != Compensating
    ensures Tidy(f.(phase := Perform(w, f, a).phase))
    ensures var del := Perform(w, f, a).del;
            del == None || (Holds(f.phase) && del == Some(f.key)) || del == Some(f.key + CachedSuffix)
  {
  }

  lemma PlainRedis(w: World, f: Flow, a: Action)
    requires !f.phase.Working? && !WithBank(f.phase)
    requires Tidy(f) && Perform(w, f, a).phase != Compensating
    ensures Tidy(f.(phase := Perform(w, f, a).phase))
    ensures var del := Perform(w, f, a).del;
            del == None || (Holds(f.phase) && del == Some(f.key)) || del == Some(f.key + CachedSuffix)
  {
  }

  lemma PlainEffect(w: World, f: Flow, a: Action)
    requires Tidy(f) && Perform(w, f, a).phase != Compensating
    ensures Tidy(f.(phase := Perform(w, f, a).phase))
    ensures var del := Perform(w, f, a).del;
            del == None || (Holds(f.phase) && del == Some(f.key)) || del == Some(f.key + CachedSuffix)
  {
    if f.phase.Working? {
      PlainWork(w, f, a);
    } else if WithBank(f.phase) {
      PlainBank(w, f, a);
    } else {
      PlainRedis(w, f, a);
    }
  }

  lemma PlainStep(w: World, step: WorldStep)
    requires AllTidy(w) && Plain(w, step)
    ensures Allowed(w, step, {}) && AllTidy(Next(w, step))
  {
    if step.Act? && step.id < |w.flows| {
      var f := w.flows[step.id];
      PlainEffect(w, f, step.action);
      CachedKeyEnds(f.key);
    }
  }

  /** Under these conditions no key disappears while it is relied on. */
  lemma {:induction false} PlainRunsAreAllowed(cfg: Transactions.Config, steps: seq<WorldStep>)
    requires PlainRun(NewWorld(cfg), steps)
    ensures AllowedRun(NewWorld(cfg), steps, {}) && AllTidy(Play(NewWorld(cfg), steps))
  {
    if steps != [] {
      var n := |steps| - 1;
      PlainRunsAreAllowed(cfg, steps[..n]);
      PlainStep(Play(NewWorld(cfg), steps[..n]), steps[n]);
    }
  }
}
