// Idempotency on the clock: with the lifetimes that the services give their keys, prompt requests and repeats that come
// in time are enough for at most one effect per key.
module RequestTiming {
  import opened Wrappers
  import opened Idempotency
  import opened Requests
  import opened RequestSafety
  import Transactions
  import WalletSystem

  /**
   * Times are in seconds. ends says until when each key lives at least, marked when a request last set its marker,
   * effective when a request with this key took effect.
   */
  datatype Timeline = Timeline(world: World, now: int, ends: map<string, int>, marked: map<nat, int>,
                               effective: map<string, int>)

  datatype Event = Event(at: nat, step: WorldStep)

  function NewTimeline(cfg: Transactions.Config): Timeline {
    Timeline(NewWorld(cfg), 0, map[], map[], map[])
  }

  function Life(v: Value): nat {
    if v.InFlightMark? then InFlightTTL else DefaultIdempotencyTTL
  }

  function TickAct(c: Timeline, id: nat, e: Effect, at: int): Timeline
    requires id < |c.world.flows|
  {
    var f := c.world.flows[id];
    Timeline(ActOn(c.world, id, e), at,
             if e.put.Some? then c.ends[e.put.value.0 := at + Life(e.put.value.1)] else c.ends,
             if Holds(e.phase) && !Holds(f.phase) then c.marked[id := at] else c.marked,
             if e.ran then c.effective[f.key := at] else c.effective)
  }

  function Tick(c: Timeline, event: Event): Timeline {
    match event.step
    case Act(id, a) =>
      if id < |c.world.flows| then TickAct(c, id, Perform(c.world, c.world.flows[id], a), event.at)
      else c.(now := event.at)
    case _ => c.(world := Next(c.world, event.step), now := event.at)
  }

  // ---------- What is asked of a run ----------

  /** Redis removes a key no earlier than its lifetime ends. */
  predicate LivesOut(c: Timeline, key: string, at: int) {
    key in c.world.store ==> key in c.ends && c.ends[key] <= at
  }

  /** Every request that still has its marker set it less than 30 seconds ago. */
  ghost predicate Prompt(c: Timeline, at: int) {
    forall i :: 0 <= i < |c.world.flows| && Holds(c.world.flows[i].phase) && i in c.marked ==>
      at < c.marked[i] + InFlightTTL
  }

  /**
   * A request whose key has taken effect does not set a marker a day later or after; the "completed" marker is not
   * lost; no transfer exhausts its retries.
   */
  predicate InOrder(c: Timeline, f: Flow, a: Action, at: int) {
    && (f.phase == Acquiring && f.key in c.effective ==> at < c.effective[f.key] + DefaultIdempotencyTTL)
    && (f.phase.Storing? ==> a != Write(false))
    && Perform(c.world, f, a).phase != Compensating
  }

  ghost predicate Timely(c: Timeline, event: Event) {
    && c.now <= event.at && Prompt(c, event.at)
    && match event.step
       case Arrive(_, key) => !EndsCached(key)
       case Act(id, a) => id < |c.world.flows| ==> InOrder(c, c.world.flows[id], a, event.at)
       case Elsewhere(_) => true
       case Expire(key) => LivesOut(c, key, event.at)
  }

  function After(c: Timeline, events: seq<Event>): Timeline {
    if events == [] then c else Tick(After(c, events[..|events| - 1]), events[|events| - 1])
  }

  ghost predicate TimelyRun(c: Timeline, events: seq<Event>) {
    events == [] ||
    var n := |events| - 1;
    TimelyRun(c, events[..n]) && Timely(After(c, events[..n]), events[n])
  }

  // ---------- The invariant ----------

  /** Some request with this key has taken effect and is about to say so in Redis. */
  ghost predicate StoresKey(flows: seq<Flow>, k: string) {
    exists i :: 0 <= i < |flows| && flows[i].key == k && flows[i].phase.Storing?
  }

  /** The request's marker lives for 30 seconds at least. */
  predicate MarkerLives(c: Timeline, i: nat, k: string) {
    i in c.marked && k in c.ends && c.ends[k] >= c.marked[i] + InFlightTTL
  }

  /** The key does all that untimed safety asks for, and lives long enough. */
  ghost predicate Live(c: Timeline, k: string) {
    && KeyOk(c.world, k)
    && (forall i :: 0 <= i < |c.world.flows| && HoldsKey(c.world.flows[i], k) ==> MarkerLives(c, i, k))
    && (c.world.executed[k] > 0 ==>
          && k in c.effective && c.effective[k] <= c.now
          && (StoresKey(c.world.flows, k) || (k in c.ends && c.ends[k] >= c.effective[k] + DefaultIdempotencyTTL)))
  }

  /** The key has taken effect a day ago, and nobody works under it any more. */
  ghost predicate Closed(c: Timeline, k: string) {
    && c.world.executed[k] <= 1 && k in c.effective && c.now >= c.effective[k] + DefaultIdempotencyTTL
    && forall i :: 0 <= i < |c.world.flows| ==> !HoldsKey(c.world.flows[i], k)
  }

  // ---------- Every event keeps it ----------

  /** Which keys an effect writes, and when. */
  predicate WritesOwn(store: Store, f: Flow, a: Action, e: Effect) {
    && (Holds(e.phase) && !Holds(f.phase) ==> f.phase == Acquiring)
    && (e.put.Some? ==>
          match e.put.value.1
          case InFlightMark => f.phase == Acquiring && e.put.value.0 == f.key && f.key !in store
          case CompletedMark => f.phase.Storing? && e.phase.StoringData? && e.put.value.0 == f.key
          case Data(_) => e.put.value.0 == CacheKey(f))
    && (f.phase.Storing? && a != Write(false) ==>
          e.phase == f.phase || e.put == Some((f.key, CompletedMark)))
  }

  lemma WorkWritesOwn(w: World, f: Flow, a: Action)
    requires f.phase.Working? || WithBank(f.phase)
    ensures WritesOwn(w.store, f, a, Perform(w, f, a))
  {
  }

  lemma RedisWritesOwn(w: World, f: Flow, a: Action)
    requires !f.phase.Working? && !WithBank(f.phase)
    ensures WritesOwn(w.store, f, a, Perform(w, f, a))
  {
  }

  lemma EffectWritesOwn(w: World, f: Flow, a: Action)
    ensures WritesOwn(w.store, f, a, Perform(w, f, a))
  {
    if f.phase.Working? || WithBank(f.phase) {
      WorkWritesOwn(w, f, a);
    } else {
      RedisWritesOwn(w, f, a);
    }
  }

  lemma CacheKeyEnds(f: Flow)
    ensures EndsCached(CacheKey(f))
  {
    if f.kind == ForWithdraw {
      assert CacheKey(f) == (f.key + ":wd") + CachedSuffix;
    }
  }

  /** What is needed of an effect to keep a key's lifetimes. */
  ghost predicate KeepsTime(c: Timeline, f: Flow, a: Action, e: Effect, k: string, at: int) {
    && AllTidy(c.world) && Shaped(c.world.store, f, e) && WritesOwn(c.world.store, f, a, e)
    && (f.phase.Storing? ==> a != Write(false)) && c.now <= at
  }

  lemma SoleHolder(flows: seq<Flow>, k: string, i: nat, j: nat)
    requires OneHolder(flows, k) && i < |flows| && j < |flows| && HoldsKey(flows[i], k) && HoldsKey(flows[j], k)
    ensures i == j
  {
  }

  lemma ActKeepsMarkers(c: Timeline, id: nat, a: Action, e: Effect, k: string, at: int, i: nat)
    requires id < |c.world.flows| && Live(c, k) && KeepsTime(c, c.world.flows[id], a, e, k, at)
    requires i < |c.world.flows| && HoldsKey(ActOn(c.world, id, e).flows[i], k)
    ensures MarkerLives(TickAct(c, id, e, at), i, k)
  {
    var f := c.world.flows[id];
    CacheKeyEnds(f);
    assert Tidy(c.world.flows[i]);
    if i != id || Holds(f.phase) {
      assert HoldsKey(c.world.flows[i], k) && FlowOk(c.world, c.world.flows[i], k);
      if HoldsKey(f, k) { SoleHolder(c.world.flows, k, i, id); }
    }
  }

  lemma ActKeepsResult(c: Timeline, id: nat, a: Action, e: Effect, k: string, at: int)
    requires id < |c.world.flows| && Live(c, k) && KeepsTime(c, c.world.flows[id], a, e, k, at)
    requires ActOn(c.world, id, e).executed[k] > 0
    ensures var c' := TickAct(c, id, e, at);
            && k in c'.effective && c'.effective[k] <= at
            && (StoresKey(c'.world.flows, k) || (k in c'.ends && c'.ends[k] >= c'.effective[k] + DefaultIdempotencyTTL))
  {
    var f, w' := c.world.flows[id], ActOn(c.world, id, e);
    CacheKeyEnds(f);
    if e.ran && f.key == k {
      assert w'.flows[id].key == k && w'.flows[id].phase.Storing?;
    } else if StoresKey(c.world.flows, k) {
      var i :| 0 <= i < |c.world.flows| && c.world.flows[i].key == k && c.world.flows[i].phase.Storing?;
      assert i != id || e.phase == f.phase ==> w'.flows[i].key == k && w'.flows[i].phase.Storing?;
    }
  }

  lemma ActKeepsLive(c: Timeline, id: nat, a: Action, k: string, at: int)
    requires id < |c.world.flows| && Live(c, k) && AllTidy(c.world) && c.now <= at
    requires InOrder(c, c.world.flows[id], a, at)
    ensures Live(TickAct(c, id, Perform(c.world, c.world.flows[id], a), at), k)
  {
    var w, f := c.world, c.world.flows[id];
    var e := Perform(w, f, a);
    EffectShaped(w, f, a);
    EffectWritesOwn(w, f, a);
    PlainEffect(w, f, a);
    CachedKeyEnds(f.key);
    ActKeepsKey(w, id, e, k);
    forall i | 0 <= i < |w.flows| && HoldsKey(ActOn(w, id, e).flows[i], k)
      ensures MarkerLives(TickAct(c, id, e, at), i, k)
    {
      ActKeepsMarkers(c, id, a, e, k, at, i);
    }
    if ActOn(w, id, e).executed[k] > 0 {
      ActKeepsResult(c, id, a, e, k, at);
    }
  }

  lemma ActKeepsClosed(c: Timeline, id: nat, a: Action, k: string, at: int)
    requires id < |c.world.flows| && Closed(c, k) && c.now <= at && InOrder(c, c.world.flows[id], a, at)
    ensures Closed(TickAct(c, id, Perform(c.world, c.world.flows[id], a), at), k)
  {
    EffectShaped(c.world, c.world.flows[id], a);
    EffectWritesOwn(c.world, c.world.flows[id], a);
  }

  /** A key that expires is not relied on, or took effect a day ago. */
  lemma ExpireKeeps(c: Timeline, key: string, k: string, at: int)
    requires Live(c, k) && c.now <= at && Prompt(c, at) && LivesOut(c, key, at)
    ensures var c' := c.(world := c.world.(store := c.world.store - {key}), now := at);
            Live(c', k) || Closed(c', k)
  {
    var w := c.world;
    var w' := w.(store := w.store - {key});
    var c' := c.(world := w', now := at);
    if key == k && k in w.store && ReliedOn(w, k) {
      forall i | 0 <= i < |w.flows| ensures !HoldsKey(w.flows[i], k) {
        assert HoldsKey(w.flows[i], k) ==> MarkerLives(c, i, k);
      }
      assert Closed(c', k);
    } else {
      forall i | 0 <= i < |w.flows| ensures FlowOk(w', w.flows[i], k) {
        assert FlowOk(w, w.flows[i], k);
      }
      forall i | 0 <= i < |w.flows| && HoldsKey(w'.flows[i], k) ensures MarkerLives(c', i, k) {
        assert HoldsKey(w.flows[i], k);
      }
      assert Live(c', k);
    }
  }

  lemma ArriveKeeps(c: Timeline, kind: Kind, key: string, k: string, at: int)
    requires c.now <= at && (Live(c, k) || Closed(c, k))
    ensures var c' := c.(world := c.world.(flows := c.world.flows + [Flow(kind, key, Looking)]), now := at);
            Live(c', k) || Closed(c', k)
  {
    var flows := c.world.flows;
    var c' := c.(world := c.world.(flows := flows + [Flow(kind, key, Looking)]), now := at);
    if Live(c, k) {
      forall i | 0 <= i < |c'.world.flows| ensures FlowOk(c'.world, c'.world.flows[i], k) {
        assert i < |flows| ==> FlowOk(c.world, flows[i], k);
      }
      forall i | 0 <= i < |c'.world.flows| && HoldsKey(c'.world.flows[i], k) ensures MarkerLives(c', i, k) {
        assert HoldsKey(flows[i], k);
      }
      if StoresKey(flows, k) {
        var i :| 0 <= i < |flows| && flows[i].key == k && flows[i].phase.Storing?;
        assert c'.world.flows[i] == flows[i];
      }
    }
  }

  lemma IdleKeeps(c: Timeline, wallet: WalletSystem.System, k: string, at: int)
    requires c.now <= at && (Live(c, k) || Closed(c, k))
    ensures var c' := c.(world := c.world.(wallet := wallet), now := at);
            Live(c', k) || Closed(c', k)
  {
    var w' := c.world.(wallet := wallet);
    if Live(c, k) {
      forall i | 0 <= i < |w'.flows| ensures FlowOk(w', w'.flows[i], k) {
        assert FlowOk(c.world, c.world.flows[i], k);
      }
      forall i | 0 <= i < |w'.flows| && HoldsKey(w'.flows[i], k) ensures MarkerLives(c, i, k) {
        assert HoldsKey(c.world.flows[i], k);
      }
    }
  }

  lemma TickKeeps(c: Timeline, event: Event, k: string)
    requires AllTidy(c.world) && Timely(c, event) && (Live(c, k) || Closed(c, k))
    ensures Live(Tick(c, event), k) || Closed(Tick(c, event), k)
  {
    match event.step
    case Arrive(kind, key) =>
      if key == "" { IdleKeeps(c, c.world.wallet, k, event.at); } else { ArriveKeeps(c, kind, key, k, event.at); }
    case Act(id, a) =>
      if id >= |c.world.flows| {
        IdleKeeps(c, c.world.wallet, k, event.at);
      } else if Live(c, k) {
        ActKeepsLive(c, id, a, k, event.at);
      } else {
        ActKeepsClosed(c, id, a, k, event.at);
      }
    case Elsewhere(s) => IdleKeeps(c, Next(c.world, event.step).wallet, k, event.at);
    case Expire(key) => if Live(c, k) { ExpireKeeps(c, key, k, event.at); }
  }

  lemma TickTidy(c: Timeline, event: Event)
    requires AllTidy(c.world) && Timely(c, event)
    ensures AllTidy(Tick(c, event).world) && Tick(c, event).world == Next(c.world, event.step)
  {
    if !event.step.Expire? {
      PlainStep(c.world, event.step);
    }
  }

  function StepsOf(events: seq<Event>): seq<WorldStep> {
    seq(|events|, i requires 0 <= i < |events| => events[i].step)
  }

  lemma {:induction false} TimelyRunKeeps(cfg: Transactions.Config, events: seq<Event>, k: string)
    requires TimelyRun(NewTimeline(cfg), events)
    ensures var c := After(NewTimeline(cfg), events);
            && AllTidy(c.world) && (Live(c, k) || Closed(c, k))
            && c.world == Play(NewWorld(cfg), StepsOf(events))
  {
    if events == [] {
      assert Live(NewTimeline(cfg), k);
    } else {
      var n := |events| - 1;
      var c := After(NewTimeline(cfg), events[..n]);
      TimelyRunKeeps(cfg, events[..n], k);
      TickKeeps(c, events[n], k);
      TickTidy(c, events[n]);
      assert StepsOf(events)[..n] == StepsOf(events[..n]);
    }
  }

  /**
   * At most one request per key takes effect in every run in which requests give their marker up within 30 seconds,
   * repeats come within a day, no "completed" marker is lost, no transfer exhausts its retries and no key ends in
   * ":cached". Keys may expire whenever Redis lets them, completed ones included.
   */
  lemma {:induction false} TimelyAtMostOnce(cfg: Transactions.Config, events: seq<Event>, k: string)
    requires TimelyRun(NewTimeline(cfg), events)
    ensures Play(NewWorld(cfg), StepsOf(events)).executed[k] <= 1
  {
    TimelyRunKeeps(cfg, events, k);
  }
}
