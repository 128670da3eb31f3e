// The token-bucket limiter, over exact real time in seconds.
module RateLimit {

  // ---------- One bucket ----------

  datatype Bucket = Bucket(tokens: real, lastRefill: real)

  /** retryAfter counts nanoseconds. */
  datatype Decision = Decision(ok: bool, retryAfter: int)

  const Second := 1_000_000_000

  function Min(a: real, b: real): real {
    if a > b then b else a
  }

  /** The tokens that flow in during some time. */
  function Inflow(elapsed: real, rate: real): real {
    elapsed * rate
  }

  function Refill(b: Bucket, rate: real, burst: int, now: real): real {
    Min(b.tokens + Inflow(now - b.lastRefill, rate), burst as real)
  }

  function AfterRequest(b: Bucket, rate: real, burst: int, now: real): Bucket {
    var tokens := Refill(b, rate, burst, now);
    Bucket(if tokens >= 1.0 then tokens - 1.0 else tokens, now)
  }

  predicate Passes(b: Bucket, rate: real, burst: int, now: real) {
    Refill(b, rate, burst, now) >= 1.0
  }

  predicate Fits64(x: real) {
    -9_223_372_036_854_775_808.0 <= x < 9_223_372_036_854_775_808.0
  }

  /** The integer part of a number, towards zero. */
  function Truncated(x: real): int {
    if x >= 0.0 then x.Floor else -((-x).Floor)
  }

  /**
   * Whole nanoseconds until the next token, but at least a second. odd is what the conversion to 64 bits yields
   * for a wait that does not fit, or without a rate.
   */
  function Wait(tokens: real, rate: real, odd: int): int {
    var wait := if rate == 0.0 then odd
                else
                  var ns := (1.0 - tokens) / rate * (Second as real);
                  if Fits64(ns) then Truncated(ns) else odd;
    if wait < Second then Second else wait
  }

  function Decide(b: Bucket, rate: real, burst: int, now: real, odd: int): Decision {
    if Passes(b, rate, burst, now) then Decision(true, 0)
    else Decision(false, Wait(Refill(b, rate, burst, now), rate, odd))
  }

  class TokenBucket {
    const rate: real
    const burst: int
    var tokens: real
    var lastRefill: real

    constructor (rate: real, burst: int, now: real)
      ensures this.rate == rate && this.burst == burst
      ensures State() == Bucket(burst as real, now)
    {
      this.rate, this.burst := rate, burst;
      tokens, lastRefill := burst as real, now;
    }

    function State(): Bucket
      reads this
    {
      Bucket(tokens, lastRefill)
    }

    method Allow(now: real, odd: int) returns (d: Decision)
      modifies this
      ensures State() == AfterRequest(old(State()), rate, burst, now)
      ensures d == Decide(old(State()), rate, burst, now, odd)
    {
      var elapsed := now - lastRefill;
      tokens := tokens + Inflow(elapsed, rate);
      if tokens > burst as real {
        tokens := burst as real;
      }
      lastRefill := now;
      if tokens >= 1.0 {
        tokens := tokens - 1.0;
        return Decision(true, 0);
      }
      var wait := odd;
      if rate != 0.0 {
        var ns := (1.0 - tokens) / rate * (Second as real);
        if Fits64(ns) {
          wait := Truncated(ns);
        }
      }
      if wait < Second {
        wait := Second;
      }
      return Decision(false, wait);
    }
  }

  // ---------- Runs of one bucket ----------

  predicate Sorted(times: seq<real>) {
    forall i :: 0 < i < |times| ==> times[i - 1] <= times[i]
  }

  predicate Ready(b: Bucket, burst: int, times: seq<real>) {
    && 0.0 <= b.tokens <= burst as real
    && Sorted(times)
    && (times != [] ==> b.lastRefill <= times[0])
  }

  function Served(b: Bucket, rate: real, burst: int, times: seq<real>): Bucket
    decreases |times|
  {
    if times == [] then b else Served(AfterRequest(b, rate, burst, times[0]), rate, burst, times[1..])
  }

  /** How many of the requests are allowed. */
  function Grants(b: Bucket, rate: real, burst: int, times: seq<real>): nat
    decreases |times|
  {
    if times == [] then 0
    else (if Passes(b, rate, burst, times[0]) then 1 else 0)
         + Grants(AfterRequest(b, rate, burst, times[0]), rate, burst, times[1..])
  }

  lemma InflowAdds(x: real, y: real, rate: real)
    ensures Inflow(x, rate) + Inflow(y, rate) == Inflow(x + y, rate)
  {
  }

  lemma InflowNonNegative(x: real, rate: real)
    requires x >= 0.0 && rate >= 0.0
    ensures Inflow(x, rate) >= 0.0
  {
  }

  /** Refilling a ready bucket adds what has flowed in, up to the burst. */
  lemma RefillBounds(b: Bucket, rate: real, burst: int, now: real)
    requires rate >= 0.0 && burst >= 0 && 0.0 <= b.tokens <= burst as real && b.lastRefill <= now
    ensures 0.0 <= b.tokens <= Refill(b, rate, burst, now) <= burst as real
    ensures Refill(b, rate, burst, now) <= b.tokens + Inflow(now - b.lastRefill, rate)
    ensures Refill(b, rate, burst, now) >= Min(Inflow(now - b.lastRefill, rate), burst as real)
  {
    InflowNonNegative(now - b.lastRefill, rate);
  }

  lemma ReadyNext(b: Bucket, rate: real, burst: int, times: seq<real>)
    requires rate >= 0.0 && burst >= 0 && Ready(b, burst, times) && times != []
    ensures Ready(AfterRequest(b, rate, burst, times[0]), burst, times[1..])
  {
    RefillBounds(b, rate, burst, times[0]);
    var rest := times[1..];
    assert forall i :: 0 < i < |rest| ==> rest[i] == times[i + 1] && rest[i - 1] == times[i];
  }

  lemma GrantsStep(b: Bucket, rate: real, burst: int, times: seq<real>)
    requires times != []
    ensures Grants(b, rate, burst, times) as real ==
            Refill(b, rate, burst, times[0]) - AfterRequest(b, rate, burst, times[0]).tokens
            + Grants(AfterRequest(b, rate, burst, times[0]), rate, burst, times[1..]) as real
  {
  }

  /** What was there at the first request, and what has flowed in since, pays for every grant. */
  lemma {:induction false} GrantsArePaidFor(b: Bucket, rate: real, burst: int, times: seq<real>)
    requires rate >= 0.0 && burst >= 0 && Ready(b, burst, times) && times != []
    ensures Grants(b, rate, burst, times) as real <=
            Refill(b, rate, burst, times[0]) + Inflow(times[|times| - 1] - times[0], rate)
    decreases |times|
  {
    var b1, rest := AfterRequest(b, rate, burst, times[0]), times[1..];
    GrantsStep(b, rate, burst, times);
    ReadyNext(b, rate, burst, times);
    if rest == [] {
      InflowNonNegative(0.0, rate);
    } else {
      GrantsArePaidFor(b1, rate, burst, rest);
      RefillBounds(b1, rate, burst, rest[0]);
      InflowAdds(rest[0] - times[0], rest[|rest| - 1] - rest[0], rate);
    }
  }

  lemma {:induction false} ServedReady(b: Bucket, rate: real, burst: int, before: seq<real>, times: seq<real>)
    requires rate >= 0.0 && burst >= 0 && Ready(b, burst, before + times)
    ensures Ready(Served(b, rate, burst, before), burst, times)
    decreases |before|
  {
    if before == [] {
      assert before + times == times;
    } else {
      ReadyNext(b, rate, burst, before + times);
      assert (before + times)[1..] == before[1..] + times;
      ServedReady(AfterRequest(b, rate, burst, before[0]), rate, burst, before[1..], times);
    }
  }

  function Full(burst: int, created: real): Bucket {
    Bucket(burst as real, created)
  }

  /**
   * Over any run with non-decreasing times: in any window of requests, after any earlier ones, at most
   * burst + rate * (length of the window) are allowed.
   */
  lemma {:induction false} WindowBound(rate: real, burst: int, created: real, before: seq<real>, window: seq<real>)
    requires rate >= 0.0 && burst >= 0 && Sorted(before + window) && window != []
    requires created <= (before + window)[0]
    ensures Grants(Served(Full(burst, created), rate, burst, before), rate, burst, window) as real <=
            burst as real + Inflow(window[|window| - 1] - window[0], rate)
  {
    var b := Served(Full(burst, created), rate, burst, before);
    ServedReady(Full(burst, created), rate, burst, before, window);
    GrantsArePaidFor(b, rate, burst, window);
    RefillBounds(b, rate, burst, window[0]);
  }

  /** Consecutive requests are at least 1/rate apart. */
  predicate Spaced(rate: real, times: seq<real>) {
    forall i :: 0 < i < |times| ==> Inflow(times[i] - times[i - 1], rate) >= 1.0
  }

  lemma {:induction false} SpacedFrom(b: Bucket, rate: real, burst: int, times: seq<real>)
    requires rate >= 0.0 && burst >= 1 && Ready(b, burst, times) && Spaced(rate, times)
    requires times != [] ==> Refill(b, rate, burst, times[0]) >= 1.0
    ensures Grants(b, rate, burst, times) == |times|
    decreases |times|
  {
    if times != [] {
      var b1, rest := AfterRequest(b, rate, burst, times[0]), times[1..];
      ReadyNext(b, rate, burst, times);
      assert forall i :: 0 < i < |rest| ==> rest[i] == times[i + 1] && rest[i - 1] == times[i];
      if rest != [] {
        assert Inflow(times[1] - times[0], rate) >= 1.0;
        RefillBounds(b1, rate, burst, rest[0]);
      }
      SpacedFrom(b1, rate, burst, rest);
    }
  }

  /** With a burst of at least 1, requests that are at least 1/rate apart are never refused. */
  lemma SpacedNeverRefused(rate: real, burst: int, created: real, times: seq<real>)
    requires rate >= 0.0 && burst >= 1 && Sorted(times) && Spaced(rate, times) && (times != [] ==> created <= times[0])
    ensures Grants(Full(burst, created), rate, burst, times) == |times|
  {
    if times != [] {
      RefillBounds(Full(burst, created), rate, burst, times[0]);
    }
    SpacedFrom(Full(burst, created), rate, burst, times);
  }

  // ---------- Waiting as told ----------

  /** A point in time, from whole nanoseconds. */
  function Ns(n: int): real {
    n as real / Second as real
  }

  function Clock(times: seq<nat>): seq<real> {
    seq(|times|, i requires 0 <= i < |times| => Ns(times[i]))
  }

  /** The time between tokens, in nanoseconds. */
  function Gap(rate: real): real
    requires rate > 0.0
  {
    Second as real / rate
  }

  /** In n nanoseconds a token flows in exactly when they are no less than the gap. */
  lemma InflowReaches(n: int, rate: real)
    requires rate > 0.0
    ensures Inflow(Ns(n), rate) >= 1.0 <==> n as real >= Gap(rate)
  {
    var g := Gap(rate);
    assert g * rate == Second as real;
    assert Inflow(Ns(n), rate) == n as real * rate / Second as real;
    assert n as real * rate - g * rate == (n as real - g) * rate;
  }

  lemma WaitInNs(tokens: real, z: int, m: int, rate: real)
    requires rate > 0.0 && tokens == z as real + Inflow(Ns(m), rate)
    ensures (1.0 - tokens) / rate * (Second as real) == (1 - z) as real * Gap(rate) - m as real
  {
    var g := Gap(rate);
    assert Inflow(Ns(m), rate) / rate == Ns(m);
    assert (1.0 - tokens) / rate == (1 - z) as real / rate - Ns(m);
  }

  /** Tokens come in whole pieces and in pieces of a nanosecond's inflow. */
  ghost predicate OnGrid(b: Bucket, rate: real) {
    exists z: int, m: int, l: int :: b == GridBucket(z, m, l, rate)
  }

  function GridBucket(z: int, m: int, l: int, rate: real): Bucket {
    Bucket(z as real + Inflow(Ns(m), rate), Ns(l))
  }

  lemma RefillOnGrid(b: Bucket, rate: real, burst: int, n: int) returns (z: int, m: int)
    requires OnGrid(b, rate)
    ensures Refill(b, rate, burst, Ns(n)) == z as real + Inflow(Ns(m), rate)
  {
    var z0, m0, l :| b == GridBucket(z0, m0, l, rate);
    InflowAdds(Ns(m0), Ns(n) - Ns(l), rate);
    assert Ns(m0) + (Ns(n) - Ns(l)) == Ns(m0 + n - l);
    if b.tokens + Inflow(Ns(n) - Ns(l), rate) > burst as real {
      z, m := burst, 0;
    } else {
      z, m := z0, m0 + n - l;
    }
  }

  lemma RequestOnGrid(b: Bucket, rate: real, burst: int, n: int)
    requires OnGrid(b, rate)
    ensures OnGrid(AfterRequest(b, rate, burst, Ns(n)), rate)
  {
    var z, m := RefillOnGrid(b, rate, burst, n);
    var z' := if Passes(b, rate, burst, Ns(n)) then z - 1 else z;
    assert AfterRequest(b, rate, burst, Ns(n)) == GridBucket(z', m, n, rate);
  }

  lemma {:induction false} ServedOnGrid(b: Bucket, rate: real, burst: int, times: seq<nat>)
    requires OnGrid(b, rate)
    ensures OnGrid(Served(b, rate, burst, Clock(times)), rate)
    decreases |times|
  {
    if times != [] {
      RequestOnGrid(b, rate, burst, times[0]);
      assert Clock(times)[1..] == Clock(times[1..]);
      ServedOnGrid(AfterRequest(b, rate, burst, Ns(times[0])), rate, burst, times[1..]);
    }
  }

  /** Requests at these times, and then one that comes now, to a bucket created at time 0. */
  function BucketAt(rate: real, burst: int, times: seq<nat>): Bucket {
    Served(Full(burst, Ns(0)), rate, burst, Clock(times))
  }

  predicate InTime(times: seq<nat>, now: nat) {
    Sorted(Clock(times + [now]))
  }

  /** What fmt prints for a duration with "%.0f": whole seconds, the half rounded to even. */
  function Rounded(ns: int): int {
    var seconds, rest := ns / Second, ns % Second;
    if 2 * rest < Second then seconds
    else if 2 * rest > Second then seconds + 1
    else seconds + seconds % 2
  }

  /** If the request now is refused, one after that wait passes, if nobody else used the bucket meanwhile. */
  predicate Kept(rate: real, burst: int, times: seq<nat>, now: nat, later: int, wait: int) {
    var b := BucketAt(rate, burst, times);
    !Passes(b, rate, burst, Ns(now)) && later >= now + wait ==>
      Passes(AfterRequest(b, rate, burst, Ns(now)), rate, burst, Ns(later))
  }

  /** What a refused request is told, as a duration and in the header. */
  function ToldWait(rate: real, burst: int, times: seq<nat>, now: nat, odd: int): int {
    Decide(BucketAt(rate, burst, times), rate, burst, Ns(now), odd).retryAfter
  }

  function ToldHeader(rate: real, burst: int, times: seq<nat>, now: nat, odd: int): int {
    Rounded(ToldWait(rate, burst, times, now, odd)) * Second
  }

  ghost predicate WaitSuffices(rate: real, burst: int) {
    forall times, now, later, odd
      {:trigger Kept(rate, burst, times, now, later, ToldWait(rate, burst, times, now, odd))} ::
      InTime(times, now) ==> Kept(rate, burst, times, now, later, ToldWait(rate, burst, times, now, odd))
  }

  ghost predicate HeaderSuffices(rate: real, burst: int) {
    forall times, now, later, odd
      {:trigger Kept(rate, burst, times, now, later, ToldHeader(rate, burst, times, now, odd))} ::
      InTime(times, now) ==> Kept(rate, burst, times, now, later, ToldHeader(rate, burst, times, now, odd))
  }

  /** The time between tokens is a whole number of nanoseconds that fits. */
  predicate WholeGap(rate: real)
    requires rate > 0.0
  {
    Fits64(Gap(rate)) && Gap(rate).Floor as real == Gap(rate)
  }

  /** A bucket as it is found by the request now, with its tokens before and after that request. */
  lemma Found(rate: real, burst: int, times: seq<nat>, now: nat) returns (z: int, m: int)
    requires rate > 0.0 && burst >= 1 && InTime(times, now)
    ensures var b := BucketAt(rate, burst, times);
            var tokens := Refill(b, rate, burst, Ns(now));
            && tokens >= 0.0 && tokens == z as real + Inflow(Ns(m), rate)
            && AfterRequest(b, rate, burst, Ns(now)).lastRefill == Ns(now)
  {
    var b, full := BucketAt(rate, burst, times), Full(burst, Ns(0));
    assert full == GridBucket(burst, 0, 0, rate);
    ServedOnGrid(full, rate, burst, times);
    z, m := RefillOnGrid(b, rate, burst, now);
    assert Clock(times + [now]) == Clock(times) + [Ns(now)];
    ServedReady(full, rate, burst, Clock(times), [Ns(now)]);
    RefillBounds(b, rate, burst, Ns(now));
  }

  /** A wait of at least the time until the next token is enough. */
  lemma LongEnough(tokens: real, rate: real, burst: int, now: nat, later: int, wait: int)
    requires rate > 0.0 && burst >= 1 && tokens < 1.0 && later >= now + wait
    requires wait as real >= (1.0 - tokens) / rate * (Second as real)
    ensures Passes(Bucket(tokens, Ns(now)), rate, burst, Ns(later))
  {
    var elapsed := Ns(later) - Ns(now);
    var need := (1.0 - tokens) / rate;
    assert need * rate == 1.0 - tokens;
    assert elapsed == Ns(later - now) && elapsed >= need;
    InflowAdds(need, elapsed - need, rate);
    InflowNonNegative(elapsed - need, rate);
  }

  lemma TruncationHarmless(tokens: real, z: int, m: int, rate: real, odd: int)
    requires rate > 0.0 && 0.0 <= tokens < 1.0 && tokens == z as real + Inflow(Ns(m), rate)
    requires rate >= 1.0 || WholeGap(rate)
    ensures Wait(tokens, rate, odd) as real >= (1.0 - tokens) / rate * (Second as real)
    ensures rate >= 1.0 ==> Wait(tokens, rate, odd) == Second
  {
    var ns, g := (1.0 - tokens) / rate * (Second as real), Gap(rate);
    assert ns == (1.0 - tokens) * g;
    assert 0.0 <= ns <= g;
    if rate >= 1.0 {
      assert g * rate == Second as real;
      assert g <= Second as real;
    } else {
      WaitInNs(tokens, z, m, rate);
      assert ns == ((1 - z) * g.Floor - m) as real;
    }
  }

  lemma WaitEnough(rate: real, burst: int, times: seq<nat>, now: nat, later: int, odd: int)
    requires rate > 0.0 && burst >= 1 && InTime(times, now) && (rate >= 1.0 || WholeGap(rate))
    ensures Kept(rate, burst, times, now, later, ToldWait(rate, burst, times, now, odd))
    ensures rate >= 1.0 ==> Kept(rate, burst, times, now, later, ToldHeader(rate, burst, times, now, odd))
  {
    var b := BucketAt(rate, burst, times);
    if !Passes(b, rate, burst, Ns(now)) {
      var tokens := Refill(b, rate, burst, Ns(now));
      var z, m := Found(rate, burst, times, now);
      TruncationHarmless(tokens, z, m, rate, odd);
      if later >= now + Wait(tokens, rate, odd) {
        LongEnough(tokens, rate, burst, now, later, Wait(tokens, rate, odd));
      }
    }
  }

  /** More than a second is never asked for in vain: a nanosecond earlier the request is still refused. */
  lemma WaitIsLeast(rate: real, burst: int, times: seq<nat>, now: nat, odd: int)
    requires rate > 0.0 && burst >= 1 && InTime(times, now)
    requires var tokens := Refill(BucketAt(rate, burst, times), rate, burst, Ns(now));
             tokens < 1.0 && Fits64((1.0 - tokens) / rate * (Second as real))
    requires ToldWait(rate, burst, times, now, odd) > Second
    ensures var b := AfterRequest(BucketAt(rate, burst, times), rate, burst, Ns(now));
            !Passes(b, rate, burst, Ns(now + ToldWait(rate, burst, times, now, odd) - 1))
  {
    var tokens := Refill(BucketAt(rate, burst, times), rate, burst, Ns(now));
    NotYet(tokens, rate, burst, now, now + ToldWait(rate, burst, times, now, odd) - 1);
  }

  lemma NotYet(tokens: real, rate: real, burst: int, now: nat, later: int)
    requires rate > 0.0 && tokens < 1.0 && (later - now) as real < (1.0 - tokens) / rate * (Second as real)
    ensures !Passes(Bucket(tokens, Ns(now)), rate, burst, Ns(later))
  {
    var elapsed, need := Ns(later) - Ns(now), (1.0 - tokens) / rate;
    assert need * rate == 1.0 - tokens;
    assert elapsed == Ns(later - now) && elapsed < need;
    InflowAdds(elapsed, need - elapsed, rate);
    assert (need - elapsed) * rate > 0.0;
  }

  // ---------- Waiting as told is not always enough ----------

  function Zeros(n: nat): seq<nat> {
    if n == 0 then [] else [0] + Zeros(n - 1)
  }

  /** A burst at time 0 empties the bucket. */
  lemma {:induction false} Drained(rate: real, burst: int, n: nat)
    requires n <= burst
    ensures Served(Bucket(n as real, Ns(0)), rate, burst, Clock(Zeros(n))) == Bucket(0.0, Ns(0))
    ensures forall i :: 0 <= i < |Zeros(n)| ==> Zeros(n)[i] == 0
  {
    if n > 0 {
      assert Clock(Zeros(n))[1..] == Clock(Zeros(n - 1));
      assert Inflow(Ns(0) - Ns(0), rate) == 0.0;
      assert AfterRequest(Bucket(n as real, Ns(0)), rate, burst, Ns(0)) == Bucket((n - 1) as real, Ns(0));
      Drained(rate, burst, n - 1);
    }
  }

  lemma EmptyAt(rate: real, burst: int, e: nat)
    requires rate > 0.0 && burst >= 1 && (e as real) < Gap(rate)
    ensures InTime(Zeros(burst), e) && BucketAt(rate, burst, Zeros(burst)) == Bucket(0.0, Ns(0))
    ensures Refill(Bucket(0.0, Ns(0)), rate, burst, Ns(e)) == Inflow(Ns(e), rate) < 1.0
    ensures (1.0 - Inflow(Ns(e), rate)) / rate * (Second as real) == Gap(rate) - e as real
  {
    Drained(rate, burst, burst);
    InflowReaches(e, rate);
    WaitInNs(Inflow(Ns(e), rate), 0, e, rate);
  }

  /** After a burst at time 0 and a refusal at time e, a request before the gap is over is refused. */
  lemma TooEarly(rate: real, burst: int, e: nat, wait: nat)
    requires rate > 0.0 && burst >= 1 && ((e + wait) as real) < Gap(rate)
    ensures InTime(Zeros(burst), e) && !Kept(rate, burst, Zeros(burst), e, e + wait, wait)
  {
    EmptyAt(rate, burst, e);
    InflowReaches(e + wait, rate);
    InflowAdds(Ns(e), Ns(e + wait) - Ns(e), rate);
  }

  lemma WaitTooShort(rate: real, burst: int)
    requires rate > 0.0 && burst >= 1 && rate < 1.0 && !WholeGap(rate)
    ensures !WaitSuffices(rate, burst)
  {
    var g := Gap(rate);
    assert g * rate == Second as real;
    assert g > Second as real;
    EmptyAt(rate, burst, 0);
    var wait := ToldWait(rate, burst, Zeros(burst), 0, 0);
    assert wait == if Fits64(g) then g.Floor else Second;
    TooEarly(rate, burst, 0, wait);
  }

  lemma HeaderTooShort(rate: real, burst: int)
    requires rate > 0.0 && burst >= 1 && rate < 1.0
    ensures !HeaderSuffices(rate, burst)
  {
    var g := Gap(rate);
    assert g * rate == Second as real;
    assert g > Second as real;
    var e: nat := if Fits64(g) then -((-g).Floor) - 1 - Second else 0;
    EmptyAt(rate, burst, e);
    var wait := ToldWait(rate, burst, Zeros(burst), e, 0);
    assert Second <= wait <= Second + 1;
    assert ToldHeader(rate, burst, Zeros(burst), e, 0) == Second;
    TooEarly(rate, burst, e, Second);
  }

  /**
   * Over all runs on a nanosecond clock: waiting for the returned duration is always enough if and only if a token
   * takes at most a second, or a whole number of nanoseconds.
   */
  lemma RetryAfterSufficesIff(rate: real, burst: int)
    requires rate > 0.0 && burst >= 1
    ensures WaitSuffices(rate, burst) <==> rate >= 1.0 || WholeGap(rate)
  {
    if rate >= 1.0 || WholeGap(rate) {
      forall times, now, later, odd | InTime(times, now)
        ensures Kept(rate, burst, times, now, later, ToldWait(rate, burst, times, now, odd))
      {
        WaitEnough(rate, burst, times, now, later, odd);
      }
    } else {
      WaitTooShort(rate, burst);
    }
  }

  /** Waiting for the seconds in the header is always enough if and only if a token takes at most a second. */
  lemma HeaderSufficesIff(rate: real, burst: int)
    requires rate > 0.0 && burst >= 1
    ensures HeaderSuffices(rate, burst) <==> rate >= 1.0
  {
    if rate >= 1.0 {
      forall times, now, later, odd | InTime(times, now)
        ensures Kept(rate, burst, times, now, later, ToldHeader(rate, burst, times, now, odd))
      {
        WaitEnough(rate, burst, times, now, later, odd);
      }
    } else {
      HeaderTooShort(rate, burst);
    }
  }

  // ---------- Many keys ----------

  type Buckets = map<string, Bucket>

  /** A request for a key; created is the time at which its bucket would be created. */
  datatype Request = Request(key: string, created: real, now: real)

  function BucketOf(m: Buckets, burst: int, r: Request): Bucket {
    if r.key in m then m[r.key] else Full(burst, r.created)
  }

  function AfterKey(m: Buckets, rate: real, burst: int, r: Request): Buckets {
    m[r.key := AfterRequest(BucketOf(m, burst, r), rate, burst, r.now)]
  }

  class RateLimiter {
    var buckets: map<string, TokenBucket>
    const rate: real
    const burst: int

    constructor (rate: real, burst: int)
      ensures Valid() && State() == map[] && this.rate == rate && this.burst == burst
    {
      this.buckets, this.rate, this.burst := map[], rate, burst;
    }

    /** Every key has a bucket of its own. */
    ghost predicate Valid()
      reads this, buckets.Values
    {
      && (forall k :: k in buckets ==> buckets[k].rate == rate && buckets[k].burst == burst)
      && (forall j, k :: j in buckets && k in buckets && j != k ==> buckets[j] != buckets[k])
    }

    ghost function State(): Buckets
      reads this, buckets.Values
    {
      map k | k in buckets :: buckets[k].State()
    }

    method Allow(key: string, created: real, now: real, odd: int) returns (d: Decision)
      requires Valid()
      modifies this, buckets.Values
      ensures Valid() && fresh(buckets.Values - old(buckets.Values))
      ensures State() == AfterKey(old(State()), rate, burst, Request(key, created, now))
      ensures d == Decide(BucketOf(old(State()), burst, Request(key, created, now)), rate, burst, now, odd)
    {
      if key !in buckets {
        var bucket := new TokenBucket(rate, burst, created);
        buckets := buckets[key := bucket];
      }
      d := buckets[key].Allow(now, odd);
    }
  }

  /** The limiter's state after a run. */
  function AfterAll(m: Buckets, rate: real, burst: int, reqs: seq<Request>): Buckets
    decreases |reqs|
  {
    if reqs == [] then m else AfterAll(AfterKey(m, rate, burst, reqs[0]), rate, burst, reqs[1..])
  }

  /** How many requests for the key are allowed in a run. */
  function KeyGrants(m: Buckets, rate: real, burst: int, reqs: seq<Request>, key: string): nat
    decreases |reqs|
  {
    if reqs == [] then 0
    else
      var r := reqs[0];
      (if r.key == key && Passes(BucketOf(m, burst, r), rate, burst, r.now) then 1 else 0)
      + KeyGrants(AfterKey(m, rate, burst, r), rate, burst, reqs[1..], key)
  }

  function TimesOf(reqs: seq<Request>, key: string): seq<real> {
    if reqs == [] then []
    else (if reqs[0].key == key then [reqs[0].now] else []) + TimesOf(reqs[1..], key)
  }

  /** Other keys' traffic changes neither a key's bucket nor its decisions. */
  lemma {:induction false} KeysAreIsolated(m: Buckets, rate: real, burst: int, reqs: seq<Request>, key: string)
    requires key in m
    ensures KeyGrants(m, rate, burst, reqs, key) == Grants(m[key], rate, burst, TimesOf(reqs, key))
    ensures key in AfterAll(m, rate, burst, reqs)
    ensures AfterAll(m, rate, burst, reqs)[key] == Served(m[key], rate, burst, TimesOf(reqs, key))
    decreases |reqs|
  {
    if reqs != [] {
      var rest := TimesOf(reqs[1..], key);
      assert ([reqs[0].now] + rest)[1..] == rest;
      assert [] + rest == rest;
      KeysAreIsolated(AfterKey(m, rate, burst, reqs[0]), rate, burst, reqs[1..], key);
    }
  }

  /** Before a key's first request its bucket does not exist; that request finds it full. */
  lemma {:induction false} FirstRequestFindsFull(m: Buckets, rate: real, burst: int, reqs: seq<Request>, key: string)
    returns (created: real)
    requires key !in m && forall i :: 0 <= i < |reqs| ==> reqs[i].created <= reqs[i].now
    ensures KeyGrants(m, rate, burst, reqs, key) == Grants(Full(burst, created), rate, burst, TimesOf(reqs, key))
    ensures TimesOf(reqs, key) != [] ==>
              && created <= TimesOf(reqs, key)[0] && key in AfterAll(m, rate, burst, reqs)
              && AfterAll(m, rate, burst, reqs)[key] == Served(Full(burst, created), rate, burst, TimesOf(reqs, key))
    ensures TimesOf(reqs, key) == [] ==> key !in AfterAll(m, rate, burst, reqs)
    decreases |reqs|
  {
    created := 0.0;
    if reqs != [] {
      var r, rest := reqs[0], TimesOf(reqs[1..], key);
      assert ([r.now] + rest)[1..] == rest;
      assert [] + rest == rest;
      if r.key == key {
        created := r.created;
        KeysAreIsolated(AfterKey(m, rate, burst, r), rate, burst, reqs[1..], key);
      } else {
        created := FirstRequestFindsFull(AfterKey(m, rate, burst, r), rate, burst, reqs[1..], key);
      }
    }
  }

  /** The clock is read after the bucket is found or created. */
  predicate InOrder(reqs: seq<Request>) {
    forall i :: 0 <= i < |reqs| ==> reqs[i].created <= reqs[i].now
  }

  /** The most that a window with these times may let through. */
  function Allowance(rate: real, burst: int, times: seq<real>): real
    requires times != []
  {
    burst as real + Inflow(times[|times| - 1] - times[0], rate)
  }

  lemma KnownKeyBound(m: Buckets, rate: real, burst: int, created: real, earlier: seq<real>, window: seq<Request>,
                      key: string)
    requires rate >= 0.0 && burst >= 0 && key in m && m[key] == Served(Full(burst, created), rate, burst, earlier)
    requires Sorted(earlier + TimesOf(window, key)) && TimesOf(window, key) != []
    requires earlier != [] && created <= earlier[0]
    ensures KeyGrants(m, rate, burst, window, key) as real <= Allowance(rate, burst, TimesOf(window, key))
  {
    KeysAreIsolated(m, rate, burst, window, key);
    WindowBound(rate, burst, created, earlier, TimesOf(window, key));
  }

  lemma NewKeyBound(m: Buckets, rate: real, burst: int, window: seq<Request>, key: string)
    requires rate >= 0.0 && burst >= 0 && key !in m && InOrder(window)
    requires Sorted(TimesOf(window, key)) && TimesOf(window, key) != []
    ensures KeyGrants(m, rate, burst, window, key) as real <= Allowance(rate, burst, TimesOf(window, key))
  {
    var times := TimesOf(window, key);
    var created := FirstRequestFindsFull(m, rate, burst, window, key);
    GrantsArePaidFor(Full(burst, created), rate, burst, times);
    RefillBounds(Full(burst, created), rate, burst, times[0]);
  }

  /**
   * Whatever all the other keys do, before and during the window: one key is allowed at most
   * burst + rate * (length of the window) requests in it.
   */
  lemma KeyWindowBound(rate: real, burst: int, before: seq<Request>, window: seq<Request>, key: string)
    requires rate >= 0.0 && burst >= 0 && InOrder(before) && InOrder(window)
    requires Sorted(TimesOf(before, key) + TimesOf(window, key)) && TimesOf(window, key) != []
    ensures KeyGrants(AfterAll(map[], rate, burst, before), rate, burst, window, key) as real <=
            Allowance(rate, burst, TimesOf(window, key))
  {
    var earlier, times := TimesOf(before, key), TimesOf(window, key);
    var m := AfterAll(map[], rate, burst, before);
    var created := FirstRequestFindsFull(map[], rate, burst, before, key);
    if earlier != [] {
      KnownKeyBound(m, rate, burst, created, earlier, window, key);
    } else {
      assert [] + times == times;
      NewKeyBound(m, rate, burst, window, key);
    }
  }
}
