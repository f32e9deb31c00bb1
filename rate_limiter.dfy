/**
 * `RateLimitingService`: a fixed-window request counter per client. The window is the current
 * epoch minute; the counter lives in the store under `rate_limit:<client>:<minute>`, is
 * incremented once per request, and gets an expiry when it is created. Any store error during
 * admission lets the request through.
 */
module RateLimiting {
  import opened Wrappers
  import opened Redis
  import Text

  const DefaultLimit: int := 100
  /** `DEFAULT_WINDOW`, one minute, in seconds. */
  const DefaultWindow: int := 60
  const KeyPrefix: string := "rate_limit:"

  /** The limiter's share of the store plus the "rate limit exceeded" metric. */
  datatype Limiter = Limiter(counters: map<string, int>, expiries: map<string, int>, exceeded: nat)

  /** What one admission did: the new state and the answer given to the caller. */
  datatype Admission = Admission(state: Limiter, allowed: bool)

  /** `RateLimitInfo`; times are epoch seconds. */
  datatype RateLimitInfo = RateLimitInfo(clientId: string, currentRequests: int, remainingRequests: int,
                                         limit: int, windowMinutes: int, resetTime: int)

  predicate ColonFree(s: string) {
    forall i :: 0 <= i < |s| ==> s[i] != ':'
  }

  /** `getCurrentWindowKey`: the decimal epoch minute. */
  function WindowKey(now: nat): (w: string)
    ensures |w| >= 1 && ColonFree(w)
  {
    Text.NatToString(now / 60)
  }

  function CounterKey(clientId: string, now: nat): (k: string)
    ensures |k| > |KeyPrefix| && k[..|KeyPrefix|] == KeyPrefix
    ensures var w := WindowKey(now); |k| > |w| && k[|k| - |w| - 1] == ':' && k[|k| - |w|..] == w
  {
    KeyPrefix + clientId + ":" + WindowKey(now)
  }

  function Count(s: Limiter, key: string): int {
    if key in s.counters then s.counters[key] else 0
  }

  function Max0(x: int): (m: int)
    ensures m >= 0 && m >= x && (m == 0 || m == x)
  {
    if x > 0 then x else 0
  }

  /**
   * One admission under `key`: an increment that raises lets the request through and changes
   * nothing; otherwise the counter goes up by one, a new counter gets the expiry `now + window`
   * when EXPIRE answers true, an EXPIRE that raises lets the request through, and otherwise the
   * request is allowed exactly when the new count is within the limit, a refusal being counted
   * in the metric.
   */
  function Admit(s: Limiter, key: string, limit: int, window: int, now: int,
                 incr: StoreCall, expire: ExpireReply): (a: Admission)
    ensures incr.Raises? ==> a == Admission(s, true)
    ensures incr.Answers? ==> a.state.counters == s.counters[key := Count(s, key) + 1]
    ensures a.allowed <==> (incr.Raises? || (Count(s, key) == 0 && expire.ExpireRaises?) || Count(s, key) + 1 <= limit)
    ensures a.state.exceeded == if a.allowed then s.exceeded else s.exceeded + 1
    ensures Count(s, key) != 0 || !expire.ExpireTrue? || incr.Raises? ==> a.state.expiries == s.expiries
    ensures Count(s, key) == 0 && expire.ExpireTrue? && incr.Answers? ==> a.state.expiries == s.expiries[key := now + window]
  {
    if incr.Raises? then Admission(s, true)
    else
      var count := Count(s, key) + 1;
      var counters := s.counters[key := count];
      if count == 1 && expire.ExpireRaises? then Admission(Limiter(counters, s.expiries, s.exceeded), true)
      else
        var expiries := if count == 1 && expire.ExpireTrue? then s.expiries[key := now + window] else s.expiries;
        var allowed := count <= limit;
        Admission(Limiter(counters, expiries, if allowed then s.exceeded else s.exceeded + 1), allowed)
  }

  /** `getRemainingRequests` on an answering store: the limit when no counter exists. */
  function Remaining(s: Limiter, key: string, limit: int): (r: int)
    ensures key !in s.counters ==> r == limit
    ensures key in s.counters ==> r >= 0 && (r == 0 || r == limit - s.counters[key]) && r >= limit - s.counters[key]
  {
    if key in s.counters then Max0(limit - s.counters[key]) else limit
  }

  /** The reset time reported by `getRateLimitInfo`. */
  function ResetTime(now: nat): int {
    now + (60 - now % 60)
  }

  class RateLimitingService {
    var counters: map<string, int>
    var expiries: map<string, int>
    var exceededEvents: nat

    function State(): Limiter
      reads this
    {
      Limiter(counters, expiries, exceededEvents)
    }

    constructor()
      ensures counters == map[] && expiries == map[] && exceededEvents == 0
    {
      counters := map[];
      expiries := map[];
      exceededEvents := 0;
    }

    /** `isAllowed(clientId, limit, window)`. */
    method IsAllowed(clientId: string, limit: int, window: int, now: nat,
                     incr: StoreCall, expire: ExpireReply) returns (allowed: bool)
      modifies this
      ensures Admission(State(), allowed) ==
              Admit(old(State()), CounterKey(clientId, now), limit, window, now, incr, expire)
    {
      var key := CounterKey(clientId, now);
      if incr.Raises? {
        return true;
      }
      var count := Count(State(), key) + 1;
      counters := counters[key := count];
      if count == 1 {
        match expire
        case ExpireRaises => return true;
        case ExpireTrue => expiries := expiries[key := now + window];
        case ExpireFalse =>
      }
      allowed := count <= limit;
      if !allowed {
        exceededEvents := exceededEvents + 1;
      }
    }

    /** `isAllowed(clientId)`: 100 requests per one-minute window. */
    method IsAllowedDefault(clientId: string, now: nat, incr: StoreCall, expire: ExpireReply)
      returns (allowed: bool)
      modifies this
      ensures Admission(State(), allowed) ==
              Admit(old(State()), CounterKey(clientId, now), DefaultLimit, DefaultWindow, now, incr, expire)
    {
      allowed := IsAllowed(clientId, DefaultLimit, DefaultWindow, now, incr, expire);
    }

    /** `getRemainingRequests(clientId, limit, window)`: a store error is passed on. */
    function GetRemainingRequests(clientId: string, limit: int, read: StoreCall, now: nat)
      : (r: Result<int, StoreFailure>)
      reads this
      ensures r.Failure? <==> read.Raises?
      ensures r.Success? ==> r.value == Remaining(State(), CounterKey(clientId, now), limit)
    {
      match read
      case Raises => Failure(StoreError)
      case Answers => Success(Remaining(State(), CounterKey(clientId, now), limit))
    }

    /** `getRemainingRequests(clientId)`: against the default limit of 100. */
    function GetRemainingRequestsDefault(clientId: string, read: StoreCall, now: nat)
      : (r: Result<int, StoreFailure>)
      reads this
      ensures r.Failure? <==> read.Raises?
      ensures r.Success? ==> 0 <= r.value
      ensures r.Success? ==> r.value == Remaining(State(), CounterKey(clientId, now), DefaultLimit)
      ensures r.Success? && CounterKey(clientId, now) in counters &&
              counters[CounterKey(clientId, now)] >= DefaultLimit ==>
              r.value == 0
      ensures r.Success? && CounterKey(clientId, now) in counters &&
              0 <= counters[CounterKey(clientId, now)] <= DefaultLimit ==>
              r.value + counters[CounterKey(clientId, now)] == DefaultLimit
      ensures r.Success? && CounterKey(clientId, now) !in counters ==> r.value == DefaultLimit
    {
      GetRemainingRequests(clientId, DefaultLimit, read, now)
    }

    /** `getCurrentRequestCount`: zero when no counter exists; a store error is passed on. */
    function GetCurrentRequestCount(clientId: string, read: StoreCall, now: nat)
      : (r: Result<int, StoreFailure>)
      reads this
      ensures r.Failure? <==> read.Raises?
      ensures r.Success? ==> r.value == Count(State(), CounterKey(clientId, now))
    {
      match read
      case Raises => Failure(StoreError)
      case Answers => Success(Count(State(), CounterKey(clientId, now)))
    }

    /** `resetRateLimit`: deletes the current window's counter; true when one existed. */
    method ResetRateLimit(clientId: string, del: StoreCall, now: nat) returns (r: Result<bool, StoreFailure>)
      modifies this
      ensures var key := CounterKey(clientId, now);
        match del
        case Raises => r == Failure(StoreError) && State() == old(State())
        case Answers =>
          && r == Success(key in old(counters))
          && counters == old(counters) - {key} && expiries == old(expiries) - {key}
          && exceededEvents == old(exceededEvents)
    {
      var key := CounterKey(clientId, now);
      if del.Raises? {
        return Failure(StoreError);
      }
      r := Success(key in counters);
      counters := counters - {key};
      expiries := expiries - {key};
    }

    /** `getRateLimitInfo`: always against the defaults; a store error is passed on. */
    function GetRateLimitInfo(clientId: string, read: StoreCall, now: nat)
      : (r: Result<RateLimitInfo, StoreFailure>)
      reads this
      ensures r.Failure? <==> read.Raises?
      ensures r.Success? ==>
        var info := r.value;
        && info.clientId == clientId
        && info.currentRequests == Count(State(), CounterKey(clientId, now))
        && info.remainingRequests == Max0(DefaultLimit - info.currentRequests)
        && info.limit == DefaultLimit && info.windowMinutes == 1
        && info.resetTime == ResetTime(now)
    {
      match GetCurrentRequestCount(clientId, read, now)
      case Failure(e) => Failure(e)
      case Success(current) =>
        Success(RateLimitInfo(clientId, current, Max0(DefaultLimit - current), DefaultLimit,
                              DefaultWindow / 60, ResetTime(now)))
    }
  }

  // ---------------------------------------------------------------- window keys

  /** The number of characters after the last colon. */
  function TrailingRun(s: string): nat {
    if s == [] || s[|s| - 1] == ':' then 0 else 1 + TrailingRun(s[..|s| - 1])
  }

  lemma {:induction false} TrailingRunOf(x: string, d: string)
    requires ColonFree(d)
    ensures TrailingRun(x + ":" + d) == |d|
    decreases |d|
  {
    var s := x + ":" + d;
    if d != [] {
      assert s[..|s| - 1] == x + ":" + d[..|d| - 1];
      TrailingRunOf(x, d[..|d| - 1]);
    } else {
      assert s[|s| - 1] == ':';
    }
  }

  /** Splitting at the last colon is unambiguous when the tail has no colon. */
  lemma SplitAtLastColon(a: string, d1: string, b: string, d2: string)
    requires ColonFree(d1) && ColonFree(d2)
    requires a + ":" + d1 == b + ":" + d2
    ensures a == b && d1 == d2
  {
    TrailingRunOf(a, d1);
    TrailingRunOf(b, d2);
    var s := a + ":" + d1;
    assert d1 == s[|s| - |d1|..];
    assert d2 == s[|s| - |d2|..];
    assert a == s[..|a|];
    assert b == s[..|b|];
  }

  /**
   * A counter key names exactly one client and one minute, even for client ids that contain
   * colons, so requests in different minutes or from different clients never share a counter.
   */
  lemma CounterKeyInjective(c1: string, now1: nat, c2: string, now2: nat)
    requires CounterKey(c1, now1) == CounterKey(c2, now2)
    ensures c1 == c2 && now1 / 60 == now2 / 60
  {
    SplitAtLastColon(KeyPrefix + c1, WindowKey(now1), KeyPrefix + c2, WindowKey(now2));
    assert c1 == (KeyPrefix + c1)[|KeyPrefix|..];
    assert c2 == (KeyPrefix + c2)[|KeyPrefix|..];
    Text.NatToStringInjective(now1 / 60, now2 / 60);
  }

  /** Instants of the same minute share the counter key. */
  lemma SameMinuteSameKey(clientId: string, now1: nat, now2: nat)
    requires now1 / 60 == now2 / 60
    ensures CounterKey(clientId, now1) == CounterKey(clientId, now2)
  {
  }

  /** The reported reset time is the first second of the next window. */
  lemma ResetTimeIsNextWindow(now: nat)
    ensures var t := ResetTime(now);
      now < t <= now + 60 && t % 60 == 0 && t / 60 == now / 60 + 1
  {
  }

  // ---------------------------------------------------------------- admissions

  /** A request is admitted on a healthy store exactly when a request was remaining before it. */
  lemma AdmittedIffRemaining(s: Limiter, key: string, limit: int, window: int, now: int)
    requires key in s.counters ==> s.counters[key] >= 1
    ensures Admit(s, key, limit, window, now, Answers, ExpireTrue).allowed <==> Remaining(s, key, limit) >= 1
  {
  }

  /** Every admission on an answering store counts, whether it is allowed or refused. */
  lemma RefusedRequestsStillCount(s: Limiter, key: string, limit: int, window: int, now: int,
                                  expire: ExpireReply)
    ensures var a := Admit(s, key, limit, window, now, Answers, expire);
      Count(a.state, key) == Count(s, key) + 1 &&
      (forall k :: k in s.counters && k != key ==> k in a.state.counters && a.state.counters[k] == s.counters[k])
  {
  }

  /** A failing increment fails open, whatever the counters hold: the request is let through. */
  lemma StoreErrorsFailOpen(s: Limiter, key: string, limit: int, window: int, now: int, expire: ExpireReply)
    ensures Admit(s, key, limit, window, now, Raises, expire).allowed
  {
  }

  /** A failing EXPIRE on a window's first request fails open too, whatever the limit. */
  lemma FirstExpireFailsOpen(s: Limiter, key: string, limit: int, window: int, now: int)
    requires key !in s.counters
    ensures Admit(s, key, limit, window, now, Answers, ExpireRaises).allowed
  {
  }

  /** `n` admissions in one window on a healthy store. */
  function AdmitTimes(s: Limiter, key: string, limit: int, window: int, now: int, n: nat): Limiter
    decreases n
  {
    if n == 0 then s
    else Admit(AdmitTimes(s, key, limit, window, now, n - 1), key, limit, window, now, Answers, ExpireTrue).state
  }

  /** How many of the counts 1..n exceed the limit. */
  function Overflow(n: nat, limit: int): nat {
    if limit <= 0 then n else if limit >= n then 0 else n - limit
  }

  /**
   * Starting from a window without counter, after `n` requests the counter is `n`, the expiry set
   * by the first request is in place, the metric recorded exactly the requests beyond the limit, and
   * the `n`-th request is allowed exactly when `n` is within the limit.
   */
  lemma {:induction false} WindowRun(s: Limiter, key: string, limit: int, window: int, now: int, n: nat)
    requires key !in s.counters
    requires n >= 1
    ensures var t := AdmitTimes(s, key, limit, window, now, n);
      && key in t.counters && t.counters[key] == n
      && key in t.expiries && t.expiries[key] == now + window
      && t.exceeded == s.exceeded + Overflow(n, limit)
    ensures Admit(AdmitTimes(s, key, limit, window, now, n - 1), key, limit, window, now, Answers, ExpireTrue).allowed
            <==> n <= limit
    decreases n
  {
    var prev := AdmitTimes(s, key, limit, window, now, n - 1);
    if n == 1 {
      assert prev == s;
    } else {
      WindowRun(s, key, limit, window, now, n - 1);
    }
  }
}
