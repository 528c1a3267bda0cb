/** The login-rate and session store of internal/store/store.go, over the
    memory cache: a failed-login counter per (user type, account) that blocks
    logins once it exceeds five, and a session marker that saves re-checking
    a session against its provider for six hours. Durations are nanoseconds. */
module Store {
  import opened Wrappers
  import opened Decimal
  import opened MemoryCache
  import GoDuration

  /** `10 * time.Minute`, the life of a login counter after each attempt. */
  const LoginWindow: int := 10 * 60 * 1_000_000_000
  /** `6 * time.Hour`, the life of a session marker. */
  const SessionLifetime: int := 6 * 60 * 60 * 1_000_000_000
  /** More than this many recorded attempts block further logins. */
  const MaxAttempts: int := 5

  /** `UserLoginRateKey` formatted with the user type and the account. */
  function LoginRateKey(userType: string, account: string): (k: string)
    ensures k == "secure-proxy:user:" + userType + ":" + account + ":login-count"
  {
    "secure-proxy:user:" + userType + ":" + account + ":login-count"
  }

  function SessionKey(sessionID: string): (k: string)
    ensures k == "secure-proxy:session:" + sessionID
  {
    "secure-proxy:session:" + sessionID
  }

  /** The errors of `UserCanLogin` and `UserLoginAttempt`: too many attempts,
      carrying the time left before the counter expires, or the counter's
      value failing to parse as a number. */
  datatype StoreError =
    | TooManyAttempts(retryAfter: int)
    | CounterError(cause: NumError)

  /** The text of the too-many-attempts error, naming the time left. */
  function RefusalText(retryAfter: int): string
  {
    "尝试次数过多，请 " + GoDuration.DurationString(retryAfter) + " 后再试"
  }

  /** What `UserCanLogin` answers against the cache contents `m` at time `now`. */
  function CanLogin(m: Store, userType: string, account: string, now: int): (r: Outcome<StoreError>)
    ensures r.Fail? ==> r.error == TooManyAttempts(RemainingTtl(m, LoginRateKey(userType, account), now))
  {
    var attempt := Lookup(m, LoginRateKey(userType, account), now);
    if attempt == "" then Pass
    else if AtoiValue(attempt) > MaxAttempts then
      Fail(TooManyAttempts(RemainingTtl(m, LoginRateKey(userType, account), now)))
    else Pass
  }

  /** The cache contents after `UserLoginAttempt`: the counter is incremented
      and, only if that succeeded, its expiry is reset to a full window. */
  function Attempted(m: Store, userType: string, account: string, now: int): (r: Result<Store, NumError>)
    ensures Incremented(m, LoginRateKey(userType, account)).Err? ==>
              r == Err(Incremented(m, LoginRateKey(userType, account)).error)
    ensures r.Ok? ==> r.value.Keys == m.Keys + {LoginRateKey(userType, account)}
    ensures r.Ok? ==> RemainingTtl(r.value, LoginRateKey(userType, account), now) == LoginWindow
  {
    var key := LoginRateKey(userType, account);
    match Incremented(m, key)
    case Err(e) => Err(e)
    case Ok(m') => Ok(WithExpiry(m', key, LoginWindow, now))
  }

  /** What `UserSessionValidate` answers against the cache contents `m`, given
      what the callback would answer; the callback's answer matters only when
      no marker is cached. */
  function SessionValid<E>(m: Store, sessionID: string, callback: Result<bool, E>, now: int): (r: Result<bool, E>)
    ensures Lookup(m, SessionKey(sessionID), now) != "" ==> r == Ok(true)
    ensures Lookup(m, SessionKey(sessionID), now) == "" ==> r == callback
  {
    if Lookup(m, SessionKey(sessionID), now) == "" then callback else Ok(true)
  }

  /** The cache contents after `UserSessionValidate`: a marker holding `stamp`
      is stored for six hours exactly when the callback was asked and said yes. */
  function SessionStored<E>(m: Store, sessionID: string, callback: Result<bool, E>, stamp: string, now: int): (r: Store)
    ensures Lookup(m, SessionKey(sessionID), now) == "" && callback == Ok(true) ==>
              r == WithExpiry(Stored(m, SessionKey(sessionID), stamp), SessionKey(sessionID), SessionLifetime, now)
    ensures Lookup(m, SessionKey(sessionID), now) != "" || callback != Ok(true) ==> r == m
  {
    var key := SessionKey(sessionID);
    if Lookup(m, key, now) == "" && callback == Ok(true) then
      WithExpiry(Stored(m, key, stamp), key, SessionLifetime, now)
    else m
  }

  /** A login is refused exactly when the live counter reads more than five;
      an absent, expired or unparsable counter never refuses. */
  lemma CanLoginIff(m: Store, userType: string, account: string, now: int)
    ensures CanLogin(m, userType, account, now).Fail?
            <==> AtoiValue(Lookup(m, LoginRateKey(userType, account), now)) > MaxAttempts
  {
    assert Atoi("") == Err(ErrSyntax);
  }

  /** One attempt on a counter reading n (absent counts as 0) leaves it
      reading n + 1, alive for the full window from `now`. */
  lemma AttemptCounts(m: Store, userType: string, account: string, n: nat, now: int)
    requires n < MaxInt64
    requires var key := LoginRateKey(userType, account);
             if n == 0 then key !in m else key in m && m[key].value == Itoa(n)
    ensures Attempted(m, userType, account, now).Ok?
    ensures var m' := Attempted(m, userType, account, now).value;
            var key := LoginRateKey(userType, account);
            key in m' && m'[key] == Entry(Itoa(n + 1), Some(now + LoginWindow))
  {
    var key := LoginRateKey(userType, account);
    if n > 0 {
      IncrCounter(m, key, n);
    }
  }

  /** The cache after `k` failed attempts at the same instant. */
  function Attempts(m: Store, userType: string, account: string, k: nat, now: int): Store
    decreases k
  {
    if k == 0 then m
    else match Attempted(Attempts(m, userType, account, k - 1, now), userType, account, now)
      case Ok(m') => m'
      case Err(_) => Attempts(m, userType, account, k - 1, now)
  }

  /** Starting without a counter, k attempts leave it reading k. */
  lemma {:induction false} AttemptsFromNothing(m: Store, userType: string, account: string, k: nat, now: int)
    requires LoginRateKey(userType, account) !in m
    requires k < MaxInt64
    ensures k == 0 ==> Attempts(m, userType, account, k, now) == m
    ensures k > 0 ==> var key := LoginRateKey(userType, account);
                      key in Attempts(m, userType, account, k, now)
                      && Attempts(m, userType, account, k, now)[key] == Entry(Itoa(k), Some(now + LoginWindow))
    decreases k
  {
    if k > 0 {
      AttemptsFromNothing(m, userType, account, k - 1, now);
      AttemptCounts(Attempts(m, userType, account, k - 1, now), userType, account, k - 1, now);
    }
  }

  /** The threshold: within the window, a login is still allowed after five
      failed attempts and refused after six, with the full window to wait. */
  lemma SixthFailureLocksOut(m: Store, userType: string, account: string, now: int)
    requires LoginRateKey(userType, account) !in m
    ensures CanLogin(Attempts(m, userType, account, 5, now), userType, account, now) == Pass
    ensures CanLogin(Attempts(m, userType, account, 6, now), userType, account, now)
            == Fail(TooManyAttempts(LoginWindow))
  {
    var key := LoginRateKey(userType, account);
    AttemptsFromNothing(m, userType, account, 5, now);
    AttemptsFromNothing(m, userType, account, 6, now);
    AtoiValueItoa(5);
    AtoiValueItoa(6);
    assert Lookup(Attempts(m, userType, account, 5, now), key, now) == Itoa(5);
    assert Lookup(Attempts(m, userType, account, 6, now), key, now) == Itoa(6);
  }

  /** With the memory cache, a counter whose window has passed but which the
      sweeper has not yet removed is resumed rather than restarted: one more
      failure from a locked-out count keeps the account locked out. */
  lemma StaleCounterResumes(m: Store, userType: string, account: string, n: nat, now: int)
    requires MaxAttempts <= n < MaxInt64
    requires var key := LoginRateKey(userType, account);
             key in m && m[key].value == Itoa(n) && Expired(m[key], now)
    ensures CanLogin(m, userType, account, now) == Pass
    ensures Attempted(m, userType, account, now).Ok?
    ensures CanLogin(Attempted(m, userType, account, now).value, userType, account, now)
            == Fail(TooManyAttempts(LoginWindow))
  {
    AttemptCounts(m, userType, account, n, now);
    AtoiItoa(n + 1);
  }

  /** Once a session has been validated, a later call within six hours answers
      yes from the cache, whatever the callback would now say. */
  lemma ValidatedSessionIsCached<E>(m: Store, sessionID: string, stamp: string, now: int,
                                    later: int, callback: Result<bool, E>)
    requires stamp != ""
    requires Lookup(m, SessionKey(sessionID), now) == ""
    requires now <= later <= now + SessionLifetime
    ensures var yes: Result<bool, E> := Ok(true);
            SessionValid(SessionStored(m, sessionID, yes, stamp, now), sessionID, callback, later) == yes
  {
  }

  /** A callback that answers no or fails leaves no marker behind. */
  lemma RejectedSessionIsNotCached<E>(m: Store, sessionID: string, callback: Result<bool, E>,
                                      stamp: string, now: int)
    requires Lookup(m, SessionKey(sessionID), now) == ""
    requires callback != Ok(true)
    ensures SessionValid(m, sessionID, callback, now) == callback
    ensures SessionStored(m, sessionID, callback, stamp, now) == m
  {
  }

  /** `defaultStore`: the store operations over one cache. */
  class DefaultStore {
    const cacheDriver: Cache

    constructor (cacheDriver: Cache)
      ensures this.cacheDriver == cacheDriver
    {
      this.cacheDriver := cacheDriver;
    }

    /** `UserCanLogin`. */
    method UserCanLogin(userType: string, account: string, now: int) returns (err: Outcome<StoreError>)
      ensures err == CanLogin(cacheDriver.data, userType, account, now)
    {
      var attempt := cacheDriver.Get(LoginRateKey(userType, account), now);
      if attempt == "" {
        return Pass;
      }
      if AtoiValue(attempt) > MaxAttempts {
        var ttl := cacheDriver.TTL(LoginRateKey(userType, account), now);
        return Fail(TooManyAttempts(ttl));
      }
      return Pass;
    }

    /** `UserLoginAttempt`. */
    method UserLoginAttempt(userType: string, account: string, now: int) returns (err: Outcome<StoreError>)
      modifies cacheDriver
      ensures Attempted(old(cacheDriver.data), userType, account, now).Ok? ==>
                err == Pass && cacheDriver.data == Attempted(old(cacheDriver.data), userType, account, now).value
      ensures Attempted(old(cacheDriver.data), userType, account, now).Err? ==>
                err == Fail(CounterError(Attempted(old(cacheDriver.data), userType, account, now).error))
                && cacheDriver.data == old(cacheDriver.data)
    {
      var incr := cacheDriver.Incr(LoginRateKey(userType, account));
      if incr.Fail? {
        return Fail(CounterError(incr.error));
      }
      cacheDriver.Expire(LoginRateKey(userType, account), LoginWindow, now);
      return Pass;
    }

    /** `UserSessionValidate`; `cb` is the callback and `stamp` the formatted
        current time stored as the marker. `consulted` tells whether the
        callback was invoked. */
    method UserSessionValidate<E>(sessionID: string, cb: () -> Result<bool, E>, stamp: string, now: int)
      returns (valid: Result<bool, E>, ghost consulted: bool)
      modifies cacheDriver
      ensures consulted <==> Lookup(old(cacheDriver.data), SessionKey(sessionID), now) == ""
      ensures valid == SessionValid(old(cacheDriver.data), sessionID, cb(), now)
      ensures cacheDriver.data == SessionStored(old(cacheDriver.data), sessionID, cb(), stamp, now)
    {
      var cacheKey := SessionKey(sessionID);
      var val := cacheDriver.Get(cacheKey, now);
      if val == "" {
        consulted := true;
        var res := cb();
        if res.Err? {
          return Err(res.error), consulted;
        }
        if res.value {
          cacheDriver.Set(cacheKey, stamp);
          cacheDriver.Expire(cacheKey, SessionLifetime, now);
        }
        return Ok(res.value), consulted;
      }
      return Ok(true), false;
    }
  }
}
