// Single-use refresh tokens, with a sweep that forgets old ones. Times are in nanoseconds.
module TokenStore {

  const Day := 24 * 3600 * 1_000_000_000

  const TokenCleanupThreshold := 8 * Day

  const RefreshTokenDuration := 7 * Day

  type Used = map<string, int>

  function Kept(used: Used, now: int): Used {
    map k | k in used && used[k] >= now - TokenCleanupThreshold :: used[k]
  }

  class TokenStore {
    var used: Used

    constructor ()
      ensures used == map[]
    {
      used := map[];
    }

    /** True when the token was already used; otherwise it is marked now. */
    method MarkUsed(jti: string, now: int) returns (already: bool)
      modifies this
      ensures already <==> jti in old(used)
      ensures used == if already then old(used) else old(used)[jti := now]
    {
      if jti in used {
        return true;
      }
      used := used[jti := now];
      return false;
    }

    /** One tick of the cleanup loop. */
    method Sweep(now: int)
      modifies this
      ensures used == Kept(old(used), now)
    {
      var threshold := now - TokenCleanupThreshold;
      var todo := used.Keys;
      ghost var before := used;
      while todo != {}
        invariant todo <= before.Keys
        invariant forall k :: k in used <==> k in before && (k in todo || before[k] >= threshold)
        invariant forall k :: k in used ==> used[k] == before[k]
        decreases |todo|
      {
        var key :| key in todo;
        todo := todo - {key};
        if used[key] < threshold {
          used := used - {key};
        }
      }
    }
  }

  // ---------- Runs ----------

  /** A refresh token: expiry is checked when it is validated. */
  datatype Token = Token(jti: string, issued: int, expires: int)

  datatype Event =
    | Refresh(token: Token, validated: int, marked: int)
    | Cleanup(at: int)

  function At(e: Event): int {
    match e
    case Refresh(_, _, marked) => marked
    case Cleanup(at) => at
  }

  /** The signature is taken as good; what is left is the expiry. */
  predicate Valid(e: Event) {
    e.Refresh? && e.validated < e.token.expires
  }

  predicate Accepted(used: Used, e: Event) {
    Valid(e) && e.token.jti !in used
  }

  function After(used: Used, e: Event): Used {
    match e
    case Refresh(token, _, marked) => if Accepted(used, e) then used[token.jti := marked] else used
    case Cleanup(at) => Kept(used, at)
  }

  class Handler {
    const tokenStore: TokenStore

    constructor (tokenStore: TokenStore)
      ensures this.tokenStore == tokenStore
    {
      this.tokenStore := tokenStore;
    }

    /** Validates at one time and marks at a later one; new tokens are issued only when this succeeds. */
    method Refresh(token: Token, validated: int, marked: int) returns (ok: bool)
      modifies tokenStore
      ensures ok <==> validated < token.expires && token.jti !in old(tokenStore.used)
      ensures ok <==> Accepted(old(tokenStore.used), Event.Refresh(token, validated, marked))
      ensures tokenStore.used == if ok then old(tokenStore.used)[token.jti := marked] else old(tokenStore.used)
      ensures tokenStore.used == After(old(tokenStore.used), Event.Refresh(token, validated, marked))
    {
      if validated >= token.expires {
        return false;
      }
      var already := tokenStore.MarkUsed(token.jti, marked);
      return !already;
    }
  }

  function UsedAfter(events: seq<Event>): Used {
    if events == [] then map[] else After(UsedAfter(events[..|events| - 1]), events[|events| - 1])
  }

  /** Event i of the run is an accepted refresh of this token. */
  predicate AcceptedAt(events: seq<Event>, i: nat, jti: string)
    requires i < |events|
  {
    events[i].Refresh? && events[i].token.jti == jti && Accepted(UsedAfter(events[..i]), events[i])
  }

  predicate SameJti(e: Event, f: Event) {
    e.Refresh? && f.Refresh? && e.token.jti == f.token.jti
  }

  /**
   * The events in the order in which they take effect; a token is validated after it was issued and
   * before it is marked, lives 7 days at most, and has an id of its own.
   */
  ghost predicate Proper(events: seq<Event>) {
    && (forall i, j :: 0 <= i < j < |events| ==> At(events[i]) <= At(events[j]))
    && (forall i :: 0 <= i < |events| && events[i].Refresh? ==>
          && events[i].token.issued <= events[i].validated <= events[i].marked
          && events[i].token.expires <= events[i].token.issued + RefreshTokenDuration)
    && (forall i, j :: 0 <= i < |events| && 0 <= j < |events| && SameJti(events[i], events[j]) ==>
          events[i].token == events[j].token)
  }

  lemma {:induction false} KnownWasPresented(events: seq<Event>, jti: string)
    requires jti in UsedAfter(events)
    ensures exists i :: 0 <= i < |events| && events[i].Refresh? && events[i].token.jti == jti
  {
    var n := |events| - 1;
    if jti in UsedAfter(events[..n]) {
      KnownWasPresented(events[..n], jti);
      var i :| 0 <= i < |events[..n]| && events[..n][i].Refresh? && events[..n][i].token.jti == jti;
      assert events[i].Refresh? && events[i].token.jti == jti;
    } else {
      assert events[n].Refresh? && events[n].token.jti == jti;
    }
  }

  /**
   * Whatever other tokens do, a token that is presented for the first time is accepted if and only if it has not
   * expired.
   */
  lemma FirstUseAccepted(events: seq<Event>, i: nat)
    requires i < |events| && events[i].Refresh?
    requires forall j :: 0 <= j < i ==> !SameJti(events[j], events[i])
    ensures AcceptedAt(events, i, events[i].token.jti) <==> events[i].validated < events[i].token.expires
  {
    if events[i].token.jti in UsedAfter(events[..i]) {
      KnownWasPresented(events[..i], events[i].token.jti);
      var j :| 0 <= j < |events[..i]| && events[..i][j].Refresh? && events[..i][j].token.jti == events[i].token.jti;
      assert SameJti(events[j], events[i]);
    }
  }

  /** Once accepted a token stays known until more than 8 days after it was marked. */
  lemma {:induction false} RememberedForEightDays(events: seq<Event>, i: nat, n: nat, jti: string)
    requires Proper(events) && i < n <= |events| && AcceptedAt(events, i, jti)
    requires At(events[n - 1]) <= events[i].marked + TokenCleanupThreshold
    ensures jti in UsedAfter(events[..n]) && UsedAfter(events[..n])[jti] == events[i].marked
    decreases n
  {
    assert events[..n][..n - 1] == events[..n - 1];
    if n > i + 1 {
      assert At(events[n - 2]) <= At(events[n - 1]);
      RememberedForEightDays(events, i, n - 1, jti);
    }
  }

  /** A second acceptance of a token needs over a day between its validation and its marking. */
  lemma SecondAcceptanceIsSlow(events: seq<Event>, i: nat, j: nat, jti: string)
    requires Proper(events) && i < j < |events| && AcceptedAt(events, i, jti) && AcceptedAt(events, j, jti)
    ensures events[j].marked - events[j].validated >= Day + 2
  {
    assert events[i].token == events[j].token;
    if events[j].marked <= events[i].marked + TokenCleanupThreshold {
      assert At(events[j - 1]) <= At(events[j]);
      RememberedForEightDays(events, i, j, jti);
    }
  }

  /** No validation is more than delay away from its marking. */
  predicate Prompt(events: seq<Event>, delay: int) {
    forall i :: 0 <= i < |events| && events[i].Refresh? ==> events[i].marked - events[i].validated <= delay
  }

  /** Every token is accepted at most once, in every run with this delay. */
  ghost predicate SingleUse(delay: int) {
    forall events: seq<Event>, i: nat, j: nat, jti: string ::
      Proper(events) && Prompt(events, delay) && i < j < |events| && AcceptedAt(events, i, jti) ==>
        !AcceptedAt(events, j, jti)
  }

  /** Used, forgotten at the first moment the sweep allows, and used again by a request validated just before expiry. */
  function Replay(t: Token): seq<Event> {
    [Refresh(t, t.issued, t.issued), Cleanup(t.issued + TokenCleanupThreshold + 1),
     Refresh(t, t.expires - 1, t.issued + TokenCleanupThreshold + 1)]
  }

  lemma ReplayAcceptsTwice(t: Token)
    requires t.expires == t.issued + RefreshTokenDuration
    ensures Proper(Replay(t)) && Prompt(Replay(t), Day + 2)
    ensures AcceptedAt(Replay(t), 0, t.jti) && AcceptedAt(Replay(t), 2, t.jti)
  {
    var events := Replay(t);
    assert events[..1][..0] == [] && events[..2][..1] == events[..1] && events[..0] == [];
    assert UsedAfter(events[..1]) == map[t.jti := t.issued];
    assert t.jti !in UsedAfter(events[..2]);
  }

  /**
   * Tokens are single-use over their whole life exactly when validation and marking are less than a day and 2 ns
   * apart.
   */
  lemma SingleUseIffPrompt(delay: int)
    ensures SingleUse(delay) <==> delay < Day + 2
  {
    if delay < Day + 2 {
      forall events: seq<Event>, i: nat, j: nat, jti: string |
        Proper(events) && Prompt(events, delay) && i < j < |events| && AcceptedAt(events, i, jti)
        ensures !AcceptedAt(events, j, jti)
      {
        if AcceptedAt(events, j, jti) {
          SecondAcceptanceIsSlow(events, i, j, jti);
        }
      }
    } else {
      var t := Token("id", 0, RefreshTokenDuration);
      ReplayAcceptsTwice(t);
      assert Prompt(Replay(t), delay);
    }
  }
}
