/**
  The in-memory sliding-window rate limiter and the authentication step that
  every protected route depends on. The store maps a client key to the times
  of its recent admitted requests. The clock (`now`), the settings
  `RATE_LIMIT_REQUESTS` (`limit`) and `RATE_LIMIT_PERIOD` (`period`, seconds)
  are parameters; token decoding is left to the caller, which passes its result.
*/
module RateLimit {
  import opened Wrappers
  import opened Errors

  /** The peer address of a request, when the server knows it. */
  datatype Client = Client(host: string)

  /** `get_rate_limit_key`: the client's host, or "unknown" without a client. */
  function RateLimitKey(client: Option<Client>): string {
    if client.Some? then client.value.host else "unknown"
  }

  /** Requests without a client share one bucket with a client whose host is literally "unknown"; distinct hosts never share one. */
  lemma KeySharing(a: Option<Client>, b: Option<Client>)
    ensures RateLimitKey(None) == RateLimitKey(Some(Client("unknown")))
    ensures a.Some? && b.Some? ==> (RateLimitKey(a) == RateLimitKey(b) <==> a == b)
  {
  }

  /** The timestamps still inside the window at `now`, in their original order. */
  function Prune(ts: seq<real>, now: real, period: int): (r: seq<real>)
    ensures |r| <= |ts|
    ensures forall t :: t in r <==> t in ts && now - t < period as real
  {
    if ts == [] then []
    else (if now - ts[0] < period as real then [ts[0]] else []) + Prune(ts[1..], now, period)
  }

  /** Pruning is a filter: it distributes over concatenation, so it keeps order. */
  lemma {:induction false} PruneAppend(a: seq<real>, b: seq<real>, now: real, period: int)
    ensures Prune(a + b, now, period) == Prune(a, now, period) + Prune(b, now, period)
    decreases |a|
  {
    if a == [] {
      assert a + b == b;
    } else {
      assert (a + b)[1..] == a[1..] + b;
      PruneAppend(a[1..], b, now, period);
    }
  }

  /** A list pruned at some time loses nothing more when pruned again at a later time than pruning once at that later time. */
  lemma {:induction false} PruneLater(ts: seq<real>, earlier: real, later: real, period: int)
    requires earlier <= later
    ensures Prune(Prune(ts, earlier, period), later, period) == Prune(ts, later, period)
    decreases |ts|
  {
    if ts != [] {
      PruneLater(ts[1..], earlier, later, period);
      var head := if earlier - ts[0] < period as real then [ts[0]] else [];
      PruneAppend(head, Prune(ts[1..], earlier, period), later, period);
    }
  }

  /** Pruning twice at the same instant is pruning once. */
  lemma PruneIdempotent(ts: seq<real>, now: real, period: int)
    ensures Prune(Prune(ts, now, period), now, period) == Prune(ts, now, period)
  {
    PruneLater(ts, now, now, period);
  }

  /** The verdict on one request and the store after it. */
  datatype Decision = Decision(outcome: Outcome<ApiError>, store: map<string, seq<real>>)

  /** `check_rate_limit` on a store: create, reject (keeping the pruning) or append. */
  function Check(store: map<string, seq<real>>, key: string, now: real, limit: int, period: int): Decision {
    if key in store then
      var kept := Prune(store[key], now, period);
      if |kept| >= limit then Decision(Fail(RateLimitException()), store[key := kept])
      else Decision(Pass, store[key := kept + [now]])
    else Decision(Pass, store[key := [now]])
  }

  /**
    The verdict: a first request always passes, whatever the limit; a known
    key passes exactly when fewer than `limit` of its stored times are inside
    the window; a rejection is the 429 rate-limit error. The key's new list is
    the pruned list, followed by `now` when the request passed, and no other
    key's entry changes.
  */
  lemma CheckContract(store: map<string, seq<real>>, key: string, now: real, limit: int, period: int)
    ensures var d := Check(store, key, now, limit, period);
      && (d.outcome.Pass? <==> key !in store || |Prune(store[key], now, period)| < limit)
      && (d.outcome.Fail? ==> d.outcome.error == ApiError(429, "Rate limit exceeded", "RATE_LIMIT_ERROR"))
      && d.store.Keys == store.Keys + {key}
      && (key !in store ==> d.store[key] == [now])
      && (key in store && d.outcome.Pass? ==> d.store[key] == Prune(store[key], now, period) + [now])
      && (key in store && d.outcome.Fail? ==> d.store[key] == Prune(store[key], now, period))
      && (forall k :: k in store && k != key ==> d.store[k] == store[k])
  {
  }

  /** Every key holds at most `limit` timestamps. */
  predicate Bounded(store: map<string, seq<real>>, limit: int) {
    forall k :: k in store ==> |store[k]| <= limit
  }

  /** With a limit of at least one, no key ever holds more than `limit` timestamps. */
  lemma CheckKeepsBound(store: map<string, seq<real>>, key: string, now: real, limit: int, period: int)
    requires limit >= 1 && Bounded(store, limit)
    ensures Bounded(Check(store, key, now, limit, period).store, limit)
  {
  }

  /**
    After an admitted request the key's list ends with `now`, and every earlier
    entry is inside the window at `now`.
  */
  lemma AdmittedWindow(store: map<string, seq<real>>, key: string, now: real, limit: int, period: int)
    requires Check(store, key, now, limit, period).outcome.Pass?
    ensures var ts := Check(store, key, now, limit, period).store[key];
      && |ts| >= 1 && ts[|ts| - 1] == now
      && forall i :: 0 <= i < |ts| - 1 ==> now - ts[i] < period as real
  {
    var ts := Check(store, key, now, limit, period).store[key];
    if key in store {
      var kept := Prune(store[key], now, period);
      assert ts[..|ts| - 1] == kept;
      forall i | 0 <= i < |ts| - 1
        ensures now - ts[i] < period as real
      {
        assert ts[i] in kept;
      }
    }
  }

  /** A decoded access token: its `sub` claim, if present; `Invalid` for a token that fails verification. */
  datatype Token = Invalid | Decoded(subject: Option<string>)

  /** `get_current_user`: the subject of a valid token; a 401 error otherwise. */
  function CurrentUser(token: Token): (r: Result<string, ApiError>)
    ensures r.Success? <==> token.Decoded? && token.subject.Some?
    ensures r.Success? ==> r.value == token.subject.value
    ensures r.Failure? ==> r.error == ApiError(401, "Not authenticated", "AUTH_ERROR")
  {
    if token.Decoded? && token.subject.Some? then Success(token.subject.value)
    else Failure(AuthenticationException())
  }

  /** The verdict on a request to a protected route and the store after it. */
  datatype Admission = Admission(user: Result<string, ApiError>, store: map<string, seq<real>>)

  /**
    A request to a protected route: the middleware checks the limit; the token
    is then verified; `common_params` checks the limit a second time. The two
    checks read the clock separately, at `first` and `second`.
  */
  function Admit(store: map<string, seq<real>>, client: Option<Client>, token: Token,
                 first: real, second: real, limit: int, period: int): Admission
  {
    var key := RateLimitKey(client);
    var d1 := Check(store, key, first, limit, period);
    if d1.outcome.Fail? then Admission(Failure(d1.outcome.error), d1.store)
    else
      var user := CurrentUser(token);
      if user.Failure? then Admission(user, d1.store)
      else
        var d2 := Check(d1.store, key, second, limit, period);
        if d2.outcome.Fail? then Admission(Failure(d2.outcome.error), d2.store)
        else Admission(user, d2.store)
  }

  /**
    Each admitted request to a protected route takes two places in the
    client's window: a new client's first such request leaves `[first, second]`
    when the limit is at least two, and is rejected with 429 when the limit is one.
  */
  lemma ProtectedRequestCountsTwice(store: map<string, seq<real>>, client: Option<Client>, user: string,
                                    first: real, second: real, limit: int, period: int)
    requires RateLimitKey(client) !in store
    requires first <= second < first + period as real
    ensures var a := Admit(store, client, Decoded(Some(user)), first, second, limit, period);
      && (limit >= 2 ==> a.user == Success(user) && a.store[RateLimitKey(client)] == [first, second])
      && (limit == 1 ==> a.user == Failure(RateLimitException()) && a.store[RateLimitKey(client)] == [first])
  {
    var key := RateLimitKey(client);
    var d1 := Check(store, key, first, limit, period);
    assert d1.store[key] == [first];
    assert Prune([first], second, period) == [first];
  }

  /** An unauthenticated request still takes a place in the client's window, through the middleware's check. */
  lemma RejectedTokenStillCounts(store: map<string, seq<real>>, client: Option<Client>, token: Token,
                                 first: real, second: real, limit: int, period: int)
    requires CurrentUser(token).Failure?
    ensures var a := Admit(store, client, token, first, second, limit, period);
      && a.user.Failure?
      && a.store == Check(store, RateLimitKey(client), first, limit, period).store
  {
  }

  /** The module-level `rate_limit_store`, one list of request times per key. */
  class RateLimiter {
    var store: map<string, seq<real>>

    constructor ()
      ensures store == map[]
    {
      store := map[];
    }

    /** `check_rate_limit`: the verdict and the new store are those of `Check`. */
    method CheckRateLimit(client: Option<Client>, now: real, limit: int := 100, period: int := 3600)
      returns (r: Outcome<ApiError>)
      modifies this
      ensures Decision(r, store) == Check(old(store), RateLimitKey(client), now, limit, period)
    {
      var key := RateLimitKey(client);
      if key in store {
        store := store[key := Prune(store[key], now, period)];
        if |store[key]| >= limit {
          return Fail(RateLimitException());
        }
        store := store[key := store[key] + [now]];
      } else {
        store := store[key := [now]];
      }
      return Pass;
    }

    /** The middleware's check, `get_current_user`, then `common_params`'s check: the user id and new store of `Admit`. */
    method CommonParams(client: Option<Client>, token: Token, first: real, second: real,
                        limit: int := 100, period: int := 3600)
      returns (r: Result<string, ApiError>)
      modifies this
      ensures Admission(r, store) == Admit(old(store), client, token, first, second, limit, period)
    {
      var outcome := CheckRateLimit(client, first, limit, period);
      if outcome.Fail? {
        return Failure(outcome.error);
      }
      r := CurrentUser(token);
      if r.Failure? {
        return;
      }
      outcome := CheckRateLimit(client, second, limit, period);
      if outcome.Fail? {
        return Failure(outcome.error);
      }
    }
  }
}
