// Retry with exponential backoff and compensation around an operation that may fail.
module Saga {
  import opened Wrappers
  import opened Arithmetic
  import opened Errors

  const Conflict := Error(Some(SerializationConflict), None, "SERIALIZATION_CONFLICT: Silakan coba lagi")

  const Cancelled := Error(None, None, "context canceled")

  predicate MatchesAt(text: string, part: string, i: nat) {
    i + |part| <= |text| && text[i..i + |part|] == part
  }

  predicate Contains(text: string, part: string) {
    exists i :: 0 <= i <= |text| && MatchesAt(text, part, i)
  }

  predicate IsTransient(e: Error) {
    || (e.sqlState.Some? && (e.sqlState.value == "40001" || e.sqlState.value == "40P01"))
    || Contains(e.text, "connection") || Contains(e.text, "connect")
  }

  /** What one call of the operation left behind. */
  datatype Tried<S> = Tried(state: S, error: Option<Error>)

  /** How an execution ended, and what it took. */
  datatype Report<S> = Report(state: S, error: Option<Error>, calls: nat, compensations: nat, waited: nat)

  /** The state after k calls of the operation. */
  ghost function After<S>(op: (S, nat) -> Tried<S>, start: S, k: nat): S {
    if k == 0 then start else op(After(op, start, k - 1), k - 1).state
  }

  ghost function ErrorOf<S>(op: (S, nat) -> Tried<S>, start: S, i: nat): Option<Error> {
    op(After(op, start, i), i).error
  }

  /** Call i failed in a way that is worth retrying. */
  ghost predicate Retryable<S>(op: (S, nat) -> Tried<S>, start: S, i: nat) {
    var error := ErrorOf(op, start, i);
    error.Some? && error.value.domain == None && IsTransient(error.value)
  }

  /** Calls 0 to n - 1 were all retryable, and no wait between them was cut short. */
  ghost predicate AllRetried<S>(op: (S, nat) -> Tried<S>, cancel: nat -> Option<nat>, start: S, n: nat) {
    && (forall i: nat :: i < n ==> Retryable(op, start, i))
    && (forall i: nat :: i + 1 < n ==> cancel(i) == None)
  }

  /** What the caller sees when call n - 1 was the last one and the retries were not exhausted. */
  ghost function Verdict<S>(op: (S, nat) -> Tried<S>, start: S, n: nat): Option<Error> {
    if n == 0 then None
    else
      match ErrorOf(op, start, n - 1)
      case None => None
      case Some(e) =>
        if e.domain.Some? then Some(Error(e.domain, None, e.text))
        else if IsTransient(e) then Some(Cancelled)
        else Some(e)
  }

  function Pow2(n: nat): (r: nat)
    ensures r >= 1
  {
    if n == 0 then 1 else 2 * Pow2(n - 1)
  }

  function AsNat(n: int): nat {
    if n < 0 then 0 else n
  }

  /** The wait after call i. */
  function Wait(backoff: nat, i: nat): nat {
    MulNonNegative(backoff, Pow2(i));
    backoff * Pow2(i)
  }

  function TotalWait(backoff: nat, n: nat): nat {
    if n == 0 then 0 else TotalWait(backoff, n - 1) + Wait(backoff, n - 1)
  }

  lemma {:induction false} TotalWaitClosed(backoff: nat, n: nat)
    ensures TotalWait(backoff, n) == backoff * (Pow2(n) - 1)
  {
    if n > 0 {
      TotalWaitClosed(backoff, n - 1);
      assert backoff * (2 * Pow2(n - 1) - 1) == backoff * (Pow2(n - 1) - 1) + backoff * Pow2(n - 1);
    }
  }

  lemma {:induction false} TotalWaitGrows(backoff: nat, i: nat, n: nat)
    requires i < n
    ensures TotalWait(backoff, i) + Wait(backoff, i) <= TotalWait(backoff, n)
    decreases n
  {
    if i + 1 < n {
      TotalWaitGrows(backoff, i, n - 1);
    }
  }

  /**
   * What remains to be done from call i on, from state s. cancel(i) is how long the wait after call i had
   * lasted when the context was cancelled, if it was.
   */
  function Retry<S>(op: (S, nat) -> Tried<S>, cancel: nat -> Option<nat>, compensate: S -> S,
                    maxRetries: int, backoff: nat, s: S, i: nat, waited: nat): Report<S>
    decreases maxRetries - i
  {
    if i >= maxRetries then Report(compensate(s), Some(Conflict), i, 1, waited)
    else
      var tried := op(s, i);
      if tried.error == None then Report(tried.state, None, i + 1, 0, waited)
      else
        var e := tried.error.value;
        if e.domain.Some? then Report(tried.state, Some(Error(e.domain, None, e.text)), i + 1, 0, waited)
        else if !IsTransient(e) then Report(tried.state, Some(e), i + 1, 0, waited)
        else if i >= maxRetries - 1 then
          Retry(op, cancel, compensate, maxRetries, backoff, tried.state, i + 1, waited)
        else if cancel(i).Some? then
          Report(tried.state, Some(Cancelled), i + 1, 0, waited + Least(cancel(i).value, Wait(backoff, i)))
        else Retry(op, cancel, compensate, maxRetries, backoff, tried.state, i + 1, waited + Wait(backoff, i))
  }

  function Least(a: nat, b: nat): nat {
    if a < b then a else b
  }

  const DefaultMaxRetries := 3

  /** 100 milliseconds, in nanoseconds. */
  const DefaultBackoff := 100_000_000

  class SagaCoordinator {
    const maxRetries: int
    const backoff: nat

    constructor ()
      ensures maxRetries == DefaultMaxRetries == 3 && backoff == DefaultBackoff == 100_000_000
    {
      maxRetries := DefaultMaxRetries;
      backoff := DefaultBackoff;
    }

    method Execute<S>(start: S, op: (S, nat) -> Tried<S>, cancel: nat -> Option<nat>, compensate: S -> S)
      returns (report: Report<S>)
      ensures report == Retry(op, cancel, compensate, maxRetries, backoff, start, 0, 0)
    {
      var state, i := start, 0;
      var waited: nat := 0;
      while i < maxRetries
        invariant Retry(op, cancel, compensate, maxRetries, backoff, start, 0, 0) ==
                  Retry(op, cancel, compensate, maxRetries, backoff, state, i, waited)
      {
        var tried := op(state, i);
        state := tried.state;
        if tried.error == None {
          return Report(state, None, i + 1, 0, waited);
        }
        var e := tried.error.value;
        if e.domain.Some? {
          return Report(state, Some(Error(e.domain, None, e.text)), i + 1, 0, waited);
        }
        if !IsTransient(e) {
          return Report(state, Some(e), i + 1, 0, waited);
        }
        if i < maxRetries - 1 {
          if cancel(i).Some? {
            return Report(state, Some(Cancelled), i + 1, 0, waited + Least(cancel(i).value, Wait(backoff, i)));
          }
          waited := waited + Wait(backoff, i);
        }
        i := i + 1;
      }
      return Report(compensate(state), Some(Conflict), i, 1, waited);
    }
  }

  /**
   * The operation is called at most maxRetries times and never again after a success, a permanent error or
   * a cancelled wait. The compensation runs exactly once when all maxRetries calls were transient
   * and uncancelled, and otherwise not at all; then the last call decides the error.
   */
  ghost predicate Accounted<S>(op: (S, nat) -> Tried<S>, cancel: nat -> Option<nat>, compensate: S -> S,
                               maxRetries: int, start: S, r: Report<S>) {
    && r.calls <= AsNat(maxRetries)
    && (r.calls > 0 ==> AllRetried(op, cancel, start, r.calls - 1) && (r.calls > 1 ==> cancel(r.calls - 2) == None))
    && r.compensations == (if r.calls == AsNat(maxRetries) && AllRetried(op, cancel, start, r.calls) then 1 else 0)
    && (r.compensations == 1 ==> r.state == compensate(After(op, start, r.calls)) && r.error == Some(Conflict))
    && (r.compensations == 0 ==>
          && r.calls > 0 && r.state == After(op, start, r.calls) && r.error == Verdict(op, start, r.calls)
          && (Retryable(op, start, r.calls - 1) ==> r.calls < maxRetries && cancel(r.calls - 1).Some?))
  }

  lemma RetryOutcome<S>(op: (S, nat) -> Tried<S>, cancel: nat -> Option<nat>, compensate: S -> S,
                        maxRetries: int, backoff: nat, start: S)
    ensures Accounted(op, cancel, compensate, maxRetries, start,
                      Retry(op, cancel, compensate, maxRetries, backoff, start, 0, 0))
  {
    RetryFrom(op, cancel, compensate, maxRetries, backoff, start, 0, 0);
  }

  /** The same from any point of the loop. */
  lemma {:induction false} RetryFrom<S>(op: (S, nat) -> Tried<S>, cancel: nat -> Option<nat>, compensate: S -> S,
                                        maxRetries: int, backoff: nat, start: S, i: nat, waited: nat)
    requires i <= AsNat(maxRetries) && AllRetried(op, cancel, start, i)
    requires 0 < i < maxRetries ==> cancel(i - 1) == None
    ensures var r := Retry(op, cancel, compensate, maxRetries, backoff, After(op, start, i), i, waited);
            i <= r.calls && Accounted(op, cancel, compensate, maxRetries, start, r)
    decreases maxRetries - i
  {
    if i < maxRetries {
      assert Retryable(op, start, i) <==> AllRetried(op, cancel, start, i + 1);
      if Retryable(op, start, i) && (i >= maxRetries - 1 || cancel(i) == None) {
        RetryFrom(op, cancel, compensate, maxRetries, backoff, start, i + 1,
                  if i >= maxRetries - 1 then waited else waited + Wait(backoff, i));
      }
    }
  }

  /** All waits together last at most backoff * (2^(maxRetries - 1) - 1). */
  lemma WaitBound<S>(op: (S, nat) -> Tried<S>, cancel: nat -> Option<nat>, compensate: S -> S,
                     maxRetries: int, backoff: nat, start: S)
    ensures Retry(op, cancel, compensate, maxRetries, backoff, start, 0, 0).waited <=
            backoff * (Pow2(AsNat(maxRetries - 1)) - 1)
  {
    WaitFrom(op, cancel, compensate, maxRetries, backoff, start, 0, 0);
    TotalWaitClosed(backoff, AsNat(maxRetries - 1));
  }

  lemma {:induction false} WaitFrom<S>(op: (S, nat) -> Tried<S>, cancel: nat -> Option<nat>, compensate: S -> S,
                                       maxRetries: int, backoff: nat, s: S, i: nat, waited: nat)
    requires waited == TotalWait(backoff, if i < maxRetries then i else AsNat(maxRetries - 1))
    ensures Retry(op, cancel, compensate, maxRetries, backoff, s, i, waited).waited <=
            TotalWait(backoff, AsNat(maxRetries - 1))
    decreases maxRetries - i
  {
    if i < maxRetries {
      if i < maxRetries - 1 {
        TotalWaitGrows(backoff, i, maxRetries - 1);
        WaitFrom(op, cancel, compensate, maxRetries, backoff, op(s, i).state, i + 1, waited + Wait(backoff, i));
      } else {
        WaitFrom(op, cancel, compensate, maxRetries, backoff, op(s, i).state, i + 1, waited);
      }
    }
  }

  /** With the coordinator's own settings a request waits at most 300 milliseconds in all. */
  lemma DefaultWait<S>(op: (S, nat) -> Tried<S>, cancel: nat -> Option<nat>, compensate: S -> S, start: S)
    ensures Retry(op, cancel, compensate, DefaultMaxRetries, DefaultBackoff, start, 0, 0).waited <= 300_000_000
  {
    WaitBound(op, cancel, compensate, DefaultMaxRetries, DefaultBackoff, start);
    assert Pow2(2) == 2 * Pow2(1) && Pow2(1) == 2 * Pow2(0);
  }

  // ---------- Which call decides ----------

  /** The first call that is not worth retrying is the last one, and decides the error; nothing is compensated. */
  lemma FirstConclusive<S>(op: (S, nat) -> Tried<S>, cancel: nat -> Option<nat>, compensate: S -> S,
                           maxRetries: int, backoff: nat, start: S, n: nat)
    requires n < maxRetries && AllRetried(op, cancel, start, n) && !Retryable(op, start, n)
    requires n > 0 ==> cancel(n - 1) == None
    ensures var r := Retry(op, cancel, compensate, maxRetries, backoff, start, 0, 0);
            var tried := op(After(op, start, n), n);
            && r.calls == n + 1 && r.compensations == 0 && r.state == tried.state
            && match tried.error
               case None => r.error == None
               case Some(e) => r.error == Some(if e.domain.Some? then Error(e.domain, None, e.text) else e)
  {
    RetryOutcome(op, cancel, compensate, maxRetries, backoff, start);
    var r := Retry(op, cancel, compensate, maxRetries, backoff, start, 0, 0);
    assert n + 1 < r.calls ==> Retryable(op, start, n);
    assert forall k: nat :: k + 1 == r.calls && k < n ==> Retryable(op, start, k);
  }

  /** When every call is worth retrying and no wait is cut short, all of them are made and then compensated once. */
  lemma Exhausted<S>(op: (S, nat) -> Tried<S>, cancel: nat -> Option<nat>, compensate: S -> S,
                     maxRetries: nat, backoff: nat, start: S)
    requires AllRetried(op, cancel, start, maxRetries)
    ensures var r := Retry(op, cancel, compensate, maxRetries, backoff, start, 0, 0);
            && r.calls == maxRetries && r.compensations == 1 && r.error == Some(Conflict)
            && r.state == compensate(After(op, start, maxRetries))
  {
    RetryOutcome(op, cancel, compensate, maxRetries, backoff, start);
    var r := Retry(op, cancel, compensate, maxRetries, backoff, start, 0, 0);
    assert forall k: nat :: k + 1 == r.calls && k < maxRetries ==> Retryable(op, start, k);
  }

  /** The waits before the first conclusive call are backoff, twice backoff, and so on, and no other. */
  lemma {:induction false} WaitsDouble<S>(op: (S, nat) -> Tried<S>, cancel: nat -> Option<nat>, compensate: S -> S,
                                          maxRetries: int, backoff: nat, start: S, n: nat)
    requires n < maxRetries && AllRetried(op, cancel, start, n) && !Retryable(op, start, n)
    requires n > 0 ==> cancel(n - 1) == None
    ensures Retry(op, cancel, compensate, maxRetries, backoff, start, 0, 0).waited == backoff * (Pow2(n) - 1)
  {
    WaitsFrom(op, cancel, compensate, maxRetries, backoff, start, n, 0, 0);
    TotalWaitClosed(backoff, n);
  }

  lemma {:induction false} WaitsFrom<S>(op: (S, nat) -> Tried<S>, cancel: nat -> Option<nat>, compensate: S -> S,
                                        maxRetries: int, backoff: nat, start: S, n: nat, i: nat, waited: nat)
    requires i <= n < maxRetries && AllRetried(op, cancel, start, n) && !Retryable(op, start, n)
    requires (n > 0 ==> cancel(n - 1) == None) && waited == TotalWait(backoff, i)
    ensures Retry(op, cancel, compensate, maxRetries, backoff, After(op, start, i), i, waited).waited ==
            TotalWait(backoff, n)
    decreases n - i
  {
    if i < n {
      assert Retryable(op, start, i);
      WaitsFrom(op, cancel, compensate, maxRetries, backoff, start, n, i + 1, waited + Wait(backoff, i));
    }
  }

  /** A wait that is cut short ends the execution; it lasts until then, and the earlier ones in full. */
  lemma CutShort<S>(op: (S, nat) -> Tried<S>, cancel: nat -> Option<nat>, compensate: S -> S,
                    maxRetries: int, backoff: nat, start: S, n: nat)
    requires n + 1 < maxRetries && AllRetried(op, cancel, start, n + 1) && cancel(n).Some?
    ensures var r := Retry(op, cancel, compensate, maxRetries, backoff, start, 0, 0);
            && r.calls == n + 1 && r.compensations == 0 && r.error == Some(Cancelled)
            && r.state == After(op, start, n + 1)
            && r.waited == backoff * (Pow2(n) - 1) + Least(cancel(n).value, Wait(backoff, n))
  {
    CutFrom(op, cancel, compensate, maxRetries, backoff, start, n, 0, 0);
    TotalWaitClosed(backoff, n);
  }

  lemma {:induction false} CutFrom<S>(op: (S, nat) -> Tried<S>, cancel: nat -> Option<nat>, compensate: S -> S,
                                      maxRetries: int, backoff: nat, start: S, n: nat, i: nat, waited: nat)
    requires i <= n && n + 1 < maxRetries && AllRetried(op, cancel, start, n + 1) && cancel(n).Some?
    requires waited == TotalWait(backoff, i)
    ensures Retry(op, cancel, compensate, maxRetries, backoff, After(op, start, i), i, waited) ==
            Report(After(op, start, n + 1), Some(Cancelled), n + 1, 0,
                   TotalWait(backoff, n) + Least(cancel(n).value, Wait(backoff, n)))
    decreases n - i
  {
    assert Retryable(op, start, i);
    if i < n {
      CutFrom(op, cancel, compensate, maxRetries, backoff, start, n, i + 1, waited + Wait(backoff, i));
    }
  }

  // ---------- Which errors are transient ----------

  lemma ContainsMeaning(text: string, part: string)
    ensures Contains(text, part) <==> exists a: string, b: string :: text == a + part + b
  {
    if Contains(text, part) {
      var i :| 0 <= i <= |text| && MatchesAt(text, part, i);
      assert text == text[..i] + part + text[i + |part|..];
    }
    if exists a: string, b: string :: text == a + part + b {
      var a: string, b: string :| text == a + part + b;
      assert text[|a|..|a| + |part|] == part;
      assert MatchesAt(text, part, |a|);
    }
  }

  /** Serialization failures and deadlocks are retried, and every error whose text mentions "connect"; no other is. */
  lemma TransientMeaning(e: Error)
    ensures IsTransient(e) <==>
              || e.sqlState == Some("40001") || e.sqlState == Some("40P01")
              || exists a: string, b: string :: e.text == a + "connect" + b
  {
    ContainsMeaning(e.text, "connect");
    if Contains(e.text, "connection") {
      LongerMatches(e.text);
    }
  }

  lemma LongerMatches(text: string)
    requires Contains(text, "connection")
    ensures Contains(text, "connect")
  {
    var i :| 0 <= i <= |text| && MatchesAt(text, "connection", i);
    assert text[i..i + 7] == text[i..i + 10][..7] == "connect";
    assert MatchesAt(text, "connect", i);
  }
}
