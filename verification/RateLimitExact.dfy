// Which requests the limiter lets through, from their times alone.
module RateLimitExact {
  import opened RateLimit

  // ---------- Requests one by one ----------

  /** How many of the first k requests a fresh bucket lets through. */
  function Passed(rate: real, burst: int, created: real, times: seq<real>, k: nat): nat
    requires k <= |times|
  {
    Grants(Full(burst, created), rate, burst, times[..k])
  }

  lemma {:induction false} ServedSnoc(b: Bucket, rate: real, burst: int, times: seq<real>, t: real)
    ensures Served(b, rate, burst, times + [t]) == AfterRequest(Served(b, rate, burst, times), rate, burst, t)
    ensures Grants(b, rate, burst, times + [t]) ==
            Grants(b, rate, burst, times) + if Passes(Served(b, rate, burst, times), rate, burst, t) then 1 else 0
    decreases |times|
  {
    if times == [] {
      assert [] + [t] == [t];
      assert [t][1..] == [];
    } else {
      assert (times + [t])[0] == times[0] && (times + [t])[1..] == times[1..] + [t];
      ServedSnoc(AfterRequest(b, rate, burst, times[0]), rate, burst, times[1..], t);
    }
  }

  function StateAfter(rate: real, burst: int, created: real, times: seq<real>, k: nat): Bucket
    requires k <= |times|
  {
    Served(Full(burst, created), rate, burst, times[..k])
  }

  /** One more request. */
  lemma OneMore(rate: real, burst: int, created: real, times: seq<real>, k: nat)
    requires k < |times|
    ensures var b := StateAfter(rate, burst, created, times, k);
            && StateAfter(rate, burst, created, times, k + 1) == AfterRequest(b, rate, burst, times[k])
            && Passed(rate, burst, created, times, k + 1) ==
               Passed(rate, burst, created, times, k) + if Passes(b, rate, burst, times[k]) then 1 else 0
  {
    assert times[..k + 1] == times[..k] + [times[k]];
    ServedSnoc(Full(burst, created), rate, burst, times[..k], times[k]);
  }

  // ---------- The level of the bucket ----------

  /** What burst and rate allow from request j until some time, less what has passed since request j. */
  function Room(rate: real, burst: int, created: real, times: seq<real>, j: nat, k: nat, at: real): real
    requires j <= k <= |times| && j < |times|
  {
    burst as real + Inflow(at - times[j], rate)
      - (Passed(rate, burst, created, times, k) - Passed(rate, burst, created, times, j)) as real
  }

  predicate Orderly(created: real, times: seq<real>) {
    Sorted(times) && (times != [] ==> created <= times[0])
  }

  /** The tokens left after k requests are the least room of all windows that begin at one of them. */
  ghost predicate LevelOk(rate: real, burst: int, created: real, times: seq<real>, k: nat, at: real)
    requires 0 < k <= |times| && at == times[k - 1]
  {
    var b := StateAfter(rate, burst, created, times, k);
    && b.lastRefill == at
    && (forall j :: 0 <= j < k ==> b.tokens <= Room(rate, burst, created, times, j, k, at))
    && (exists j :: 0 <= j < k && b.tokens == Room(rate, burst, created, times, j, k, at))
  }

  /** What the bucket holds when request k comes, before it is served. */
  function Level(rate: real, burst: int, created: real, times: seq<real>, k: nat): real
    requires k < |times|
  {
    Refill(StateAfter(rate, burst, created, times, k), rate, burst, times[k])
  }

  /** The bucket that request k meets holds the least room of all windows that end with it. */
  ghost predicate MeetsLeast(rate: real, burst: int, created: real, times: seq<real>, k: nat)
    requires k < |times|
  {
    var level := Level(rate, burst, created, times, k);
    && (forall j :: 0 <= j <= k ==> level <= Room(rate, burst, created, times, j, k, times[k]))
    && (exists j :: 0 <= j <= k && level == Room(rate, burst, created, times, j, k, times[k]))
  }

  lemma SortedUpTo(times: seq<real>, i: nat, j: nat)
    requires Sorted(times) && i <= j < |times|
    ensures times[i] <= times[j]
    decreases j - i
  {
    if i < j {
      SortedUpTo(times, i, j - 1);
    }
  }

  lemma RoomLater(rate: real, burst: int, created: real, times: seq<real>, j: nat, k: nat, at: real, later: real)
    requires j <= k <= |times| && j < |times|
    ensures Room(rate, burst, created, times, j, k, later) ==
            Room(rate, burst, created, times, j, k, at) + Inflow(later - at, rate)
  {
    InflowAdds(at - times[j], later - at, rate);
  }

  lemma FirstMeets(rate: real, burst: int, created: real, times: seq<real>)
    requires rate >= 0.0 && times != [] && Orderly(created, times)
    ensures MeetsLeast(rate, burst, created, times, 0)
  {
    InflowNonNegative(times[0] - created, rate);
    assert times[..0] == [];
    assert StateAfter(rate, burst, created, times, 0) == Full(burst, created);
    assert Inflow(times[0] - times[0], rate) == 0.0;
    assert Level(rate, burst, created, times, 0) == Room(rate, burst, created, times, 0, 0, times[0]);
  }

  lemma NextMeets(rate: real, burst: int, created: real, times: seq<real>, k: nat)
    requires rate >= 0.0 && Orderly(created, times) && 0 < k < |times|
    requires LevelOk(rate, burst, created, times, k, times[k - 1])
    ensures MeetsLeast(rate, burst, created, times, k)
  {
    var b, at, now := StateAfter(rate, burst, created, times, k), times[k - 1], times[k];
    var level := Level(rate, burst, created, times, k);
    assert Inflow(now - now, rate) == 0.0;
    assert Room(rate, burst, created, times, k, k, now) == burst as real;
    forall j | 0 <= j <= k ensures level <= Room(rate, burst, created, times, j, k, now) {
      if j < k {
        RoomLater(rate, burst, created, times, j, k, at, now);
      }
    }
    var i :| 0 <= i < k && b.tokens == Room(rate, burst, created, times, i, k, at);
    RoomLater(rate, burst, created, times, i, k, at, now);
    assert level == Room(rate, burst, created, times, if level == burst as real then k else i, k, now);
  }

  lemma LevelNext(rate: real, burst: int, created: real, times: seq<real>, k: nat)
    requires rate >= 0.0 && k < |times| && MeetsLeast(rate, burst, created, times, k)
    ensures LevelOk(rate, burst, created, times, k + 1, times[k])
  {
    OneMore(rate, burst, created, times, k);
    var n, at := k + 1, times[k];
    var b := StateAfter(rate, burst, created, times, n);
    forall j | 0 <= j < n ensures b.tokens <= Room(rate, burst, created, times, j, n, at) {
      assert Level(rate, burst, created, times, k) <= Room(rate, burst, created, times, j, k, times[k]);
    }
    var i :| 0 <= i <= k && Level(rate, burst, created, times, k) == Room(rate, burst, created, times, i, k, times[k]);
    assert b.tokens == Room(rate, burst, created, times, i, n, at);
  }

  lemma {:induction false} AlwaysMeetsLeast(rate: real, burst: int, created: real, times: seq<real>, k: nat)
    requires rate >= 0.0 && Orderly(created, times) && k < |times|
    ensures MeetsLeast(rate, burst, created, times, k)
  {
    if k == 0 {
      FirstMeets(rate, burst, created, times);
    } else {
      AlwaysMeetsLeast(rate, burst, created, times, k - 1);
      LevelNext(rate, burst, created, times, k - 1);
      NextMeets(rate, burst, created, times, k);
    }
  }

  // ---------- Exactly the window bound ----------

  /**
   * Together with one more request at index k, no window that ends with it lets more than burst + rate * length
   * through.
   */
  ghost predicate Affordable(rate: real, burst: int, created: real, times: seq<real>, k: nat)
    requires k < |times|
  {
    forall j :: 0 <= j <= k ==>
      (Passed(rate, burst, created, times, k) - Passed(rate, burst, created, times, j) + 1) as real <=
      burst as real + Inflow(times[k] - times[j], rate)
  }

  /**
   * A request passes if and only if letting it through keeps to burst + rate * length in every window that ends with
   * it: the limiter refuses nothing that the bound allows.
   */
  lemma PassesIffAffordable(rate: real, burst: int, created: real, times: seq<real>, k: nat)
    requires rate >= 0.0 && Orderly(created, times) && k < |times|
    ensures Passed(rate, burst, created, times, k + 1) ==
            Passed(rate, burst, created, times, k) + if Affordable(rate, burst, created, times, k) then 1 else 0
  {
    AlwaysMeetsLeast(rate, burst, created, times, k);
    OneMore(rate, burst, created, times, k);
    var level := Level(rate, burst, created, times, k);
    if level >= 1.0 {
      forall j | 0 <= j <= k
        ensures (Passed(rate, burst, created, times, k) - Passed(rate, burst, created, times, j) + 1) as real <=
                burst as real + Inflow(times[k] - times[j], rate)
      {
        assert level <= Room(rate, burst, created, times, j, k, times[k]);
      }
    } else {
      var i :| 0 <= i <= k && level == Room(rate, burst, created, times, i, k, times[k]);
      assert !((Passed(rate, burst, created, times, k) - Passed(rate, burst, created, times, i) + 1) as real <=
               burst as real + Inflow(times[k] - times[i], rate));
    }
  }

  /** A refused request is one too many for a window that begins with an earlier request, or with itself. */
  lemma RefusedOnlyWhenSpent(rate: real, burst: int, created: real, times: seq<real>, k: nat) returns (j: nat)
    requires rate >= 0.0 && Orderly(created, times) && k < |times|
    requires Passed(rate, burst, created, times, k + 1) == Passed(rate, burst, created, times, k)
    ensures j <= k
    ensures (Passed(rate, burst, created, times, k) - Passed(rate, burst, created, times, j) + 1) as real >
            burst as real + Inflow(times[k] - times[j], rate)
  {
    PassesIffAffordable(rate, burst, created, times, k);
    j :| 0 <= j <= k
         && !((Passed(rate, burst, created, times, k) - Passed(rate, burst, created, times, j) + 1) as real <=
              burst as real + Inflow(times[k] - times[j], rate));
  }

  // ---------- An idle bucket ----------

  lemma {:induction false} PassedGrows(rate: real, burst: int, created: real, times: seq<real>, j: nat, k: nat)
    requires j <= k <= |times|
    ensures 0 <= Passed(rate, burst, created, times, k) - Passed(rate, burst, created, times, j) <= k - j
  {
    if j < k {
      PassedGrows(rate, burst, created, times, j, k - 1);
      OneMore(rate, burst, created, times, k - 1);
    }
  }

  /** No window lets more through than burst + rate * length. */
  lemma WithinWindow(rate: real, burst: int, created: real, times: seq<real>, j: nat, m: nat)
    requires rate >= 0.0 && burst >= 0 && Orderly(created, times) && j < m <= |times|
    ensures (Passed(rate, burst, created, times, m) - Passed(rate, burst, created, times, j)) as real <=
            burst as real + Inflow(times[m - 1] - times[j], rate)
    decreases m
  {
    PassesIffAffordable(rate, burst, created, times, m - 1);
    SortedUpTo(times, j, m - 1);
    if !Affordable(rate, burst, created, times, m - 1) {
      if j < m - 1 {
        WithinWindow(rate, burst, created, times, j, m - 1);
        SortedUpTo(times, m - 2, m - 1);
        InflowAdds(times[m - 2] - times[j], times[m - 1] - times[m - 2], rate);
        InflowNonNegative(times[m - 1] - times[m - 2], rate);
      } else {
        InflowNonNegative(times[m - 1] - times[j], rate);
      }
    }
  }

  /** From request m on, so many requests come at the same time, after a pause in which the bucket fills up. */
  predicate BurstAfterPause(rate: real, burst: int, times: seq<real>, m: nat, n: nat) {
    && m + n <= |times| && n <= burst
    && (forall i :: m <= i < m + n ==> times[i] == times[m])
    && (0 < m && n > 0 ==> Inflow(times[m] - times[m - 1], rate) >= burst as real)
  }

  lemma BurstAffordable(rate: real, burst: int, created: real, times: seq<real>, m: nat, n: nat, j: nat)
    requires rate >= 0.0 && Orderly(created, times) && BurstAfterPause(rate, burst, times, m, n + 1) && j <= m + n
    ensures (Passed(rate, burst, created, times, m + n) - Passed(rate, burst, created, times, j) + 1) as real <=
            burst as real + Inflow(times[m + n] - times[j], rate)
  {
    if j >= m {
      PassedGrows(rate, burst, created, times, j, m + n);
      assert times[m + n] == times[m] && times[j] == times[m];
      assert Inflow(times[m + n] - times[j], rate) == 0.0;
    } else {
      PassedGrows(rate, burst, created, times, m, m + n);
      WithinWindow(rate, burst, created, times, j, m);
      InflowAdds(times[m - 1] - times[j], times[m] - times[m - 1], rate);
      assert times[m + n] == times[m];
    }
  }

  /** After such a pause, or at the start, all requests of a burst pass. */
  lemma {:induction false} IdleBucketAllowsBurst(rate: real, burst: int, created: real, times: seq<real>, m: nat,
                                                 n: nat)
    requires rate >= 0.0 && Orderly(created, times) && BurstAfterPause(rate, burst, times, m, n)
    ensures Passed(rate, burst, created, times, m + n) == Passed(rate, burst, created, times, m) + n
    decreases n
  {
    if n > 0 {
      IdleBucketAllowsBurst(rate, burst, created, times, m, n - 1);
      forall j | 0 <= j <= m + n - 1
        ensures (Passed(rate, burst, created, times, m + n - 1) - Passed(rate, burst, created, times, j) + 1) as real <=
                burst as real + Inflow(times[m + n - 1] - times[j], rate)
      {
        BurstAffordable(rate, burst, created, times, m, n - 1, j);
      }
      PassesIffAffordable(rate, burst, created, times, m + n - 1);
    }
  }
}
