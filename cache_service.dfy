/**
 * `WeatherCacheService`: a two-tier cache of weather snapshots. The distributed tier is the
 * Redis store, the local tier an in-memory map that is written alongside it and read only when
 * the store raises. The two tiers are the fields of `WeatherCache`; the pure functions over a
 * `Tiers` value say what each operation does to them.
 */
module CacheService {
  import opened Wrappers
  import opened Model
  import opened Redis
  import opened KeyGenerator
  import DataTransformer

  /** The contents of the two tiers, by cache key. */
  datatype Tiers = Tiers(store: map<string, WeatherResponse>, memory: map<string, WeatherResponse>)

  /** What a put did: the new tiers and the Boolean it returned. */
  datatype Written = Written(tiers: Tiers, ok: bool)

  /** A call that either returns or throws a `NullPointerException`. */
  datatype Call<T> = Returned(value: T) | ThrewNullPointer

  /** `isCacheValid`: the snapshot's expiry is strictly after now. */
  predicate IsCacheValid(response: WeatherResponse, now: Instant) {
    response.cachedUntil.Some? && response.cachedUntil.value > now
  }

  /** `getCacheTtl`, in seconds: 10 minutes for OpenWeatherMap, 30 for the others, 15 unpinned. */
  function GetCacheTtl(request: WeatherRequest): (ttl: int)
    ensures request.provider == Some(OpenWeatherMap) ==> ttl == 600
    ensures request.provider == Some(WeatherApi) || request.provider == Some(AccuWeather) ==> ttl == 1800
    ensures request.provider.None? ==> ttl == 900
  {
    match request.provider
    case Some(OpenWeatherMap) => 10 * 60
    case Some(WeatherApi) => 30 * 60
    case Some(AccuWeather) => 30 * 60
    case None => 15 * 60
  }

  /** The copy a put stores: location, current, forecast and source kept, expiry replaced. */
  function WithExpiry(response: WeatherResponse, until: Instant): (r: WeatherResponse)
    ensures r.location == response.location && r.current == response.current
    ensures r.forecast == response.forecast && r.source == response.source
    ensures r.cachedUntil == Some(until)
  {
    WeatherResponse(response.location, response.current, response.forecast, response.source, Some(until))
  }

  /**
   * The read of `getCachedWeather` for one key: the store's entry as it is when the store
   * answers, otherwise the memory entry if it is still valid.
   */
  function Lookup(t: Tiers, key: string, read: StoreCall, now: Instant): (r: Option<WeatherResponse>)
    ensures read.Answers? ==> (r.Some? <==> key in t.store) && (r.Some? ==> r.value == t.store[key])
    ensures read.Raises? ==> (r.Some? <==> key in t.memory && IsCacheValid(t.memory[key], now))
    ensures read.Raises? && r.Some? ==> r.value == t.memory[key]
  {
    match read
    case Answers => if key in t.store then Some(t.store[key]) else None
    case Raises => if key in t.memory && IsCacheValid(t.memory[key], now) then Some(t.memory[key]) else None
  }

  /**
   * The write of `cacheWeatherData` for one key: memory mirrors the entry when the store's set
   * answers true or raises; a raising set still reports success; a false answer changes nothing.
   */
  function Put(t: Tiers, key: string, entry: WeatherResponse, reply: SetReply): (w: Written)
    ensures w.ok <==> !reply.SetFalse?
    ensures w.ok ==> key in w.tiers.memory && w.tiers.memory[key] == entry
    ensures reply.SetTrue? ==> key in w.tiers.store && w.tiers.store[key] == entry
    ensures !reply.SetTrue? ==> w.tiers.store == t.store
  {
    match reply
    case SetTrue => Written(Tiers(t.store[key := entry], t.memory[key := entry]), true)
    case SetFalse => Written(t, false)
    case SetRaises => Written(Tiers(t.store, t.memory[key := entry]), true)
  }

  /**
   * `evictWeatherData` for one key: memory always loses the key; the result is whether the
   * store deleted something, or true when the store raised.
   */
  function Evict(t: Tiers, key: string, reply: StoreCall): (w: Written)
    ensures key !in w.tiers.memory
    ensures reply.Answers? ==> key !in w.tiers.store && (w.ok <==> key in t.store)
    ensures reply.Raises? ==> w.ok && w.tiers.store == t.store
  {
    match reply
    case Answers => Written(Tiers(t.store - {key}, t.memory - {key}), key in t.store)
    case Raises => Written(Tiers(t.store, t.memory - {key}), true)
  }

  class WeatherCache {
    const formats: Formats
    var store: map<string, WeatherResponse>
    var memory: map<string, WeatherResponse>

    function State(): Tiers
      reads this
    {
      Tiers(store, memory)
    }

    constructor(formats: Formats)
      ensures this.formats == formats && store == map[] && memory == map[]
    {
      this.formats := formats;
      store := map[];
      memory := map[];
    }

    /** `getCachedWeather`: a null request reads as empty; otherwise the lookup under its key. */
    function GetCachedWeather(request: Option<WeatherRequest>, read: StoreCall, now: Instant)
      : (r: Option<WeatherResponse>)
      reads this
      ensures request.None? ==> r.None?
      ensures request.Some? ==> r == Lookup(State(), CacheKey(formats, request), read, now)
    {
      if request.None? then None else Lookup(State(), CacheKey(formats, request), read, now)
    }

    /** `cacheWeatherData(request, response, ttl)`. */
    method CacheWeatherData(request: Option<WeatherRequest>, response: Option<WeatherResponse>,
                            ttl: int, reply: SetReply, now: Instant) returns (ok: bool)
      modifies this
      ensures request.None? || response.None? ==>
        !ok && store == old(store) && memory == old(memory)
      ensures request.Some? && response.Some? ==>
        Written(State(), ok) ==
        Put(old(State()), CacheKey(formats, request), WithExpiry(response.value, now + ttl), reply)
    {
      if request.None? || response.None? {
        return false;
      }
      var key := CacheKey(formats, request);
      var updated := WithExpiry(response.value, now + ttl);
      match reply
      case SetTrue =>
        store := store[key := updated];
        memory := memory[key := updated];
        ok := true;
      case SetFalse =>
        ok := false;
      case SetRaises =>
        memory := memory[key := updated];
        ok := true;
    }

    /**
     * `cacheWeatherData(request, response)`: the TTL is computed from the request before the
     * null check, so a null request throws instead of returning false.
     */
    method CacheWeatherDataDefaultTtl(request: Option<WeatherRequest>, response: Option<WeatherResponse>,
                                      reply: SetReply, now: Instant) returns (r: Call<bool>)
      modifies this
      ensures request.None? ==> r == ThrewNullPointer && store == old(store) && memory == old(memory)
      ensures request.Some? && response.None? ==>
        r == Returned(false) && store == old(store) && memory == old(memory)
      ensures request.Some? && response.Some? ==>
        && r.Returned?
        && Written(State(), r.value) ==
           Put(old(State()), CacheKey(formats, request),
               WithExpiry(response.value, now + GetCacheTtl(request.value)), reply)
    {
      if request.None? {
        return ThrewNullPointer;
      }
      var ok := CacheWeatherData(request, response, GetCacheTtl(request.value), reply, now);
      r := Returned(ok);
    }

    /** `evictWeatherData`: a null request returns false and touches nothing. */
    method EvictWeatherData(request: Option<WeatherRequest>, reply: StoreCall) returns (removed: bool)
      modifies this
      ensures request.None? ==> !removed && store == old(store) && memory == old(memory)
      ensures request.Some? ==>
        Written(State(), removed) == Evict(old(State()), CacheKey(formats, request), reply)
    {
      if request.None? {
        return false;
      }
      var key := CacheKey(formats, request);
      match reply
      case Answers =>
        removed := key in store;
        store := store - {key};
        memory := memory - {key};
      case Raises =>
        memory := memory - {key};
        removed := true;
    }
  }

  // ---------------------------------------------------------------- properties

  /** Only the memory fallback is checked for validity: a hit from it is never stale. */
  lemma FallbackNeverStale(t: Tiers, key: string, now: Instant)
    ensures var r := Lookup(t, key, Raises, now);
      r.Some? ==> IsCacheValid(r.value, now) && key in t.memory && r.value == t.memory[key]
  {
  }

  /** A store hit is served as it is, even when its expiry has passed. */
  lemma StoreHitNotChecked(t: Tiers, key: string, now: Instant)
    requires key in t.store && !IsCacheValid(t.store[key], now)
    ensures Lookup(t, key, Answers, now) == Some(t.store[key])
  {
  }

  /** With a healthy store, a put followed by a get of the same key returns the stored copy. */
  lemma PutThenGet(t: Tiers, key: string, v: WeatherResponse, ttl: int, now: Instant, later: Instant)
    ensures var w := Put(t, key, WithExpiry(v, now + ttl), SetTrue);
      w.ok && Lookup(w.tiers, key, Answers, later) == Some(WithExpiry(v, now + ttl))
  {
  }

  /**
   * After a put that answered true or raised, the memory tier serves the copy while the store is
   * down, exactly until its expiry `now + ttl`.
   */
  lemma PutThenFallback(t: Tiers, key: string, v: WeatherResponse, ttl: int, now: Instant, later: Instant,
                        reply: SetReply)
    requires reply != SetFalse
    ensures var w := Put(t, key, WithExpiry(v, now + ttl), reply);
      w.ok && key in w.tiers.memory &&
      Lookup(w.tiers, key, Raises, later) == (if later < now + ttl then Some(WithExpiry(v, now + ttl)) else None)
  {
  }

  /** A put whose set answers false reports failure and writes nothing. */
  lemma PutFalseWritesNothing(t: Tiers, key: string, entry: WeatherResponse)
    ensures Put(t, key, entry, SetFalse) == Written(t, false)
  {
  }

  /** Puts and evictions leave every other key as it was, in both tiers. */
  lemma OtherKeysUntouched(t: Tiers, key: string, other: string, entry: WeatherResponse,
                           write: SetReply, del: StoreCall, read: StoreCall, now: Instant)
    requires other != key
    ensures Lookup(Put(t, key, entry, write).tiers, other, read, now) == Lookup(t, other, read, now)
    ensures Lookup(Evict(t, key, del).tiers, other, read, now) == Lookup(t, other, read, now)
  {
  }

  /** After an eviction the memory tier no longer has the key, so a fallback read misses. */
  lemma EvictThenFallbackMisses(t: Tiers, key: string, del: StoreCall, now: Instant)
    ensures var w := Evict(t, key, del);
      key !in w.tiers.memory && Lookup(w.tiers, key, Raises, now).None? &&
      w.ok == (del.Raises? || key in t.store)
  {
  }

  /** The cache TTL of a pinned provider is the same validity the transformer stamps. */
  lemma TtlAgreesWithTransformer(request: WeatherRequest, now: Instant)
    requires request.provider.Some?
    ensures DataTransformer.CalculateCacheExpiry(request.provider.value, now) == now + GetCacheTtl(request)
  {
  }
}
