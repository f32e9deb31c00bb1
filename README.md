# Weather service core, modelled in Dafny

The service answers weather requests for a city or a coordinate pair from one of three providers
(OpenWeatherMap, WeatherAPI, AccuWeather), behind a two-tier cache: a Redis store plus an
in-memory map. The model covers:

- the orchestration of a request: cache, then provider selection, then provider call, then cache
  write, then fallbacks and the error handler;
- the aggregation of all real providers into averages and advice;
- the cache and its key derivation;
- the per-minute rate limiter;
- the normaliser of provider snapshots;
- the location search with its own cache;
- the small value operations of the request and the aggregate.

Every external call (Redis read, set, expire, increment, delete; a provider client's answer) is a
parameter giving its outcome, and the clock is a `now` parameter, so each operation is a
deterministic function of its inputs. Where the source updates state (the cache tiers, the
limiter's counters, the search store) the model is a class whose methods are proved equal to pure
specification functions. The lemmas state the cache, fallback, counting and ordering properties
about those functions.

Modules, one per source file plus helpers:

| module | file | models |
|---|---|---|
| `Wrappers` | wrappers.dfy | `Option` and `Result` |
| `Redis` | redis.dfy | outcomes of single store calls |
| `Text` | text.dfy | ASCII `toLowerCase`, `replaceAll("\\s+", "_")`, `trim`, decimal rendering, `String.compareTo` |
| `Model` | model.dfy | request, snapshot and location values; `WeatherRequest.copyWithProvider` |
| `AggregatedWeather` | aggregated_response.dfy | `AggregatedWeatherResponse.generateRecommendation` |
| `KeyGenerator` | key_generator.dfy | `WeatherKeyGenerator` |
| `DataTransformer` | transformer.dfy | `WeatherDataTransformer` |
| `ErrorHandler` | error_handler.dfy | `WeatherErrorHandler` |
| `CacheService` | cache_service.dfy | `WeatherCacheService` (class `WeatherCache`) |
| `RateLimiting` | rate_limiter.dfy | `RateLimitingService` (class `RateLimitingService`) |
| `LocationSearch` | location_search.dfy | `LocationSearchService` (class `LocationSearchService`) |
| `WeatherService` | facade.dfy | `WeatherServiceFacade` (class `WeatherServiceFacade`) |

Java `LocalDateTime` values are integer seconds. `Double` values are `real`. A Java reference that
may be null is an `Option`.

## Model

| member | source | states |
|---|---|---|
| Model.CopyWithProvider | src/main/java/com/weatherservice/model/WeatherRequest.java:21-31 | the copy carries the given provider and the original's city, country, coordinates, units and language |
| Model.CopyWithProviderIdempotent | src/main/java/com/weatherservice/model/WeatherRequest.java:21-31 | copying twice with the same provider equals copying once |
| Model.CopyWithOwnProvider | src/main/java/com/weatherservice/model/WeatherRequest.java:8-31 | copying with the request's own provider gives an equal request (field-wise equality) |
| Model.CopyWithProviderOverrides | src/main/java/com/weatherservice/model/WeatherRequest.java:21-31 | only the provider of the latest copy is visible |
| AggregatedWeather.GenerateRecommendation | src/main/java/com/weatherservice/model/AggregatedWeatherResponse.java:28-42 | each of the six advice texts is given exactly on its band: none, >30, (20,30], (10,20], (0,10], <=0 |
| AggregatedWeather.RecommendationTotal | src/main/java/com/weatherservice/model/AggregatedWeatherResponse.java:28-42 | every response, with or without temperature, gets one of the six texts |
| AggregatedWeather.RecommendationMonotone | src/main/java/com/weatherservice/model/AggregatedWeatherResponse.java:31-41 | a warmer temperature never gets cooler advice |
| KeyGenerator.CacheKey | src/main/java/com/weatherservice/util/WeatherKeyGenerator.java:14-48 | a null request maps to `weather:null`; every other key starts with `weather:` |
| KeyGenerator.HashKey | src/main/java/com/weatherservice/util/WeatherKeyGenerator.java:50-65 | `weather:hash:` followed by the first 16 characters of the Base64 SHA-256 digest of the hash input, 29 characters in all |
| KeyGenerator.LowerNameIsLowerCase | src/main/java/com/weatherservice/util/WeatherKeyGenerator.java:22 | the provider segment is the ASCII lower-cased enum name |
| KeyGenerator.ReadableKeyShape | src/main/java/com/weatherservice/util/WeatherKeyGenerator.java:19-25 | a readable key is `weather:` + lower-cased provider name or `default` + `:` |
| KeyGenerator.CityAndCountryWin | src/main/java/com/weatherservice/util/WeatherKeyGenerator.java:27-45 | with city and country present the key is built from both lower-cased, then `:units` and `:language` when present, whatever the coordinates |
| KeyGenerator.CoordinatesKey | src/main/java/com/weatherservice/util/WeatherKeyGenerator.java:31-33 | otherwise full coordinates give the two formatted coordinates joined by `:` |
| KeyGenerator.HashKeyIgnoresProvider | src/main/java/com/weatherservice/util/WeatherKeyGenerator.java:34-61 | a partial request gets `weather:hash:` + 16 digest characters (29 in all), independent of the provider |
| KeyGenerator.CityCaseInsensitive | src/main/java/com/weatherservice/util/WeatherKeyGenerator.java:27-30 | requests differing only in the letter case of city and country share their key |
| KeyGenerator.ReadableMark | src/main/java/com/weatherservice/util/WeatherKeyGenerator.java:19-25 | the character after `weather:` of a readable key identifies the provider segment |
| KeyGenerator.HashMark | src/main/java/com/weatherservice/util/WeatherKeyGenerator.java:61 | the character after `weather:` of a hash key is `h` |
| KeyGenerator.KeyFamiliesDisjoint | src/main/java/com/weatherservice/util/WeatherKeyGenerator.java:14-65 | readable keys are never the null key or a hash key, and readable keys of different providers differ |
| DataTransformer.NormalizeWindSpeed | src/main/java/com/weatherservice/service/WeatherDataTransformer.java:68-83 | null stays null; km/h of WeatherAPI and AccuWeather is divided by 3.6; OpenWeatherMap is unchanged |
| DataTransformer.NormalizeDescription | src/main/java/com/weatherservice/service/WeatherDataTransformer.java:96-99 | the definition: `Unknown` for a null description, else the trimmed text; `DefaultsFilled` and `DescriptionStable` state it and its idempotence |
| DataTransformer.NormalizeIcon | src/main/java/com/weatherservice/service/WeatherDataTransformer.java:104-107 | the definition: the icon, or `01d` when null; stated by `DefaultsFilled` |
| DataTransformer.EnsureTimestamp | src/main/java/com/weatherservice/service/WeatherDataTransformer.java:112-114 | the definition: the timestamp, or now when null; stated by `DefaultsFilled` |
| DataTransformer.CalculateCacheExpiry | src/main/java/com/weatherservice/service/WeatherDataTransformer.java:119-130 | expiry is now + 10 minutes for OpenWeatherMap and now + 30 minutes for the others |
| DataTransformer.NormalizeWeatherData | src/main/java/com/weatherservice/service/WeatherDataTransformer.java:18-42 | fails, always with the same outer message, exactly when the response, its current block or the provider is null; otherwise keeps location and forecast and sets source and expiry |
| DataTransformer.NormalizeCurrentWeather | src/main/java/com/weatherservice/service/WeatherDataTransformer.java:39-55 | the measurements pass through, description, icon and timestamp are always present, and wind speed is null exactly when the input's is |
| DataTransformer.IsValidTransformedData | src/main/java/com/weatherservice/service/WeatherDataTransformer.java:135-141 | the predicate: a response, a current block, a temperature, a timestamp and a provider are all present |
| DataTransformer.MeasurementsPassThrough | src/main/java/com/weatherservice/service/WeatherDataTransformer.java:39-55 | temperature, feels-like, humidity, pressure and wind direction pass through unchanged, nulls included, and the wind speed is the converted one |
| DataTransformer.WindConversion | src/main/java/com/weatherservice/service/WeatherDataTransformer.java:68-83 | after conversion 3.6 times the result is the km/h input |
| DataTransformer.DefaultsFilled | src/main/java/com/weatherservice/service/WeatherDataTransformer.java:96-114 | description is trimmed or `Unknown`, icon kept or `01d`, timestamp kept or now |
| DataTransformer.DescriptionStable | src/main/java/com/weatherservice/service/WeatherDataTransformer.java:96-99 | normalising a normalised description changes nothing |
| DataTransformer.NormalizedValidIffTemperature | src/main/java/com/weatherservice/service/WeatherDataTransformer.java:135-141 | a normalised snapshot is valid exactly when the provider gave a temperature |
| ErrorHandler.Classify | src/main/java/com/weatherservice/resilience/WeatherErrorHandler.java:23-34 | only not-found propagates; every other kind takes the cached-fallback route |
| ErrorHandler.CachedWeatherFallback | src/main/java/com/weatherservice/resilience/WeatherErrorHandler.java:56-67 | the cached value when there is one, else ServiceUnavailable with `No cached data available: ` + the cause's message |
| ErrorHandler.FallbackCauseMessage | src/main/java/com/weatherservice/resilience/WeatherErrorHandler.java:37-66 | the definition: rate-limit, unavailable and timeout errors substitute their fixed texts, any other error keeps its message (`null` when it has none); `InfrastructureWithoutCache` and `TimeoutLikeGeneric` state it |
| ErrorHandler.HandleProviderError | src/main/java/com/weatherservice/resilience/WeatherErrorHandler.java:20-35 | a success is always the cached value; the handler never yields an invalid-argument error |
| ErrorHandler.NotFoundBypassesCache | src/main/java/com/weatherservice/resilience/WeatherErrorHandler.java:25-27 | a not-found error yields LocationNotFound naming the city whatever the cache holds |
| ErrorHandler.InfrastructureServedFromCache | src/main/java/com/weatherservice/resilience/WeatherErrorHandler.java:23-54 | rate-limit, timeout, unavailable and other errors are answered from the cache when it holds an entry |
| ErrorHandler.InfrastructureWithoutCache | src/main/java/com/weatherservice/resilience/WeatherErrorHandler.java:37-66 | without a cached entry they become ServiceUnavailable carrying the substituted message |
| ErrorHandler.OutcomeIsOneOfThree | src/main/java/com/weatherservice/resilience/WeatherErrorHandler.java:20-67 | every outcome is exactly one of cached value, LocationNotFound, ServiceUnavailable |
| ErrorHandler.TimeoutLikeGeneric | src/main/java/com/weatherservice/resilience/WeatherErrorHandler.java:49-54 | a timeout tries no other provider and differs from the generic case only in its message |
| CacheService.GetCacheTtl | src/main/java/com/weatherservice/service/WeatherCacheService.java:112-126 | 10 minutes for OpenWeatherMap, 30 for WeatherAPI and AccuWeather, 15 when no provider is pinned |
| CacheService.WithExpiry | src/main/java/com/weatherservice/service/WeatherCacheService.java:58-64 | the stored copy keeps location, current, forecast and source and expires at the given time |
| CacheService.IsCacheValid | src/main/java/com/weatherservice/service/WeatherCacheService.java:106-110 | the predicate: an expiry is present and lies strictly after now |
| CacheService.Lookup | src/main/java/com/weatherservice/service/WeatherCacheService.java:26-45 | an answering store gives exactly its entry, unchecked; a raising store gives the memory entry exactly when it is still valid |
| CacheService.Put | src/main/java/com/weatherservice/service/WeatherCacheService.java:51-81 | reports success unless the set answers false; on success memory holds the entry; only a set answering true writes the store |
| CacheService.Evict | src/main/java/com/weatherservice/service/WeatherCacheService.java:83-104 | memory always loses the key; an answering store loses it and the result is whether it was there; a raising store is untouched and the result is true |
| CacheService.WeatherCache.constructor | src/main/java/com/weatherservice/service/WeatherCacheService.java:20-24 | both tiers start empty |
| CacheService.WeatherCache.GetCachedWeather | src/main/java/com/weatherservice/service/WeatherCacheService.java:26-45 | a null request reads as empty; otherwise the lookup of the request's key |
| CacheService.WeatherCache.CacheWeatherData | src/main/java/com/weatherservice/service/WeatherCacheService.java:51-81 | a null request or response returns false and writes nothing; otherwise the tiers change as `Put` of the copy expiring at now + ttl |
| CacheService.WeatherCache.CacheWeatherDataDefaultTtl | src/main/java/com/weatherservice/service/WeatherCacheService.java:47-49 | the TTL comes from the request before the null check, so a null request throws; otherwise as the three-argument put |
| CacheService.WeatherCache.EvictWeatherData | src/main/java/com/weatherservice/service/WeatherCacheService.java:83-104 | a null request returns false; otherwise the tiers change as `Evict` of the request's key |
| CacheService.FallbackNeverStale | src/main/java/com/weatherservice/service/WeatherCacheService.java:35-110 | a hit from memory, served when the store raises, always expires strictly after now |
| CacheService.StoreHitNotChecked | src/main/java/com/weatherservice/service/WeatherCacheService.java:33-34 | a store hit is served even when its expiry has passed |
| CacheService.PutThenGet | src/main/java/com/weatherservice/service/WeatherCacheService.java:33-73 | with a store answering true, a put then a get of that key returns the stored copy |
| CacheService.PutThenFallback | src/main/java/com/weatherservice/service/WeatherCacheService.java:66-110 | after a put answered true or raising, memory serves the copy while the store is down, exactly until now + ttl |
| CacheService.PutFalseWritesNothing | src/main/java/com/weatherservice/service/WeatherCacheService.java:66-74 | a set answering false returns false and leaves both tiers untouched |
| CacheService.OtherKeysUntouched | src/main/java/com/weatherservice/service/WeatherCacheService.java:51-104 | puts and evictions leave every other key as it was in both tiers |
| CacheService.EvictThenFallbackMisses | src/main/java/com/weatherservice/service/WeatherCacheService.java:90-103 | eviction always removes the memory entry and returns whether the store had it, or true when the store raised |
| CacheService.TtlAgreesWithTransformer | src/main/java/com/weatherservice/service/WeatherCacheService.java:112-126 | for a pinned provider the cache TTL matches the expiry the transformer stamps |
| RateLimiting.WindowKey | src/main/java/com/weatherservice/service/RateLimitingService.java:104-107 | the window key is the decimal epoch minute and holds no colon |
| RateLimiting.CounterKey | src/main/java/com/weatherservice/service/RateLimitingService.java:28 | `rate_limit:` then the client id, a colon and the window key |
| RateLimiting.Admit | src/main/java/com/weatherservice/service/RateLimitingService.java:27-49 | a raising increment allows and changes nothing; otherwise the counter rises by one, the expiry is set only for a new counter whose EXPIRE answered true, and the request is allowed iff the EXPIRE of a new counter raised or the count is within the limit; the metric counts exactly the refusals |
| RateLimiting.Remaining | src/main/java/com/weatherservice/service/RateLimitingService.java:55-63 | the limit when no counter exists, else max(0, limit - count) |
| RateLimiting.ResetTime | src/main/java/com/weatherservice/service/RateLimitingService.java:91 | the definition: now plus the seconds left in the current minute; `ResetTimeIsNextWindow` states it is the next minute boundary |
| RateLimiting.RateLimitingService.constructor | src/main/java/com/weatherservice/service/RateLimitingService.java:17-18 | no counters and no refusals recorded |
| RateLimiting.RateLimitingService.IsAllowed | src/main/java/com/weatherservice/service/RateLimitingService.java:27-49 | the state changes as `Admit` under `rate_limit:<client>:<minute>`, whatever the window argument |
| RateLimiting.RateLimitingService.IsAllowedDefault | src/main/java/com/weatherservice/service/RateLimitingService.java:20-25 | as `IsAllowed` with limit 100 and a one-minute window |
| RateLimiting.RateLimitingService.GetRemainingRequests | src/main/java/com/weatherservice/service/RateLimitingService.java:55-63 | a store error is passed on; otherwise `Remaining` of the current window's counter |
| RateLimiting.RateLimitingService.GetRemainingRequestsDefault | src/main/java/com/weatherservice/service/RateLimitingService.java:51-63 | against the limit 100: `Remaining` of the current window's counter, so never negative, 100 without a counter, 100 minus the count up to 100, and 0 from 100 on |
| RateLimiting.RateLimitingService.GetCurrentRequestCount | src/main/java/com/weatherservice/service/RateLimitingService.java:77-83 | a store error is passed on; otherwise the current window's count, 0 when absent |
| RateLimiting.RateLimitingService.ResetRateLimit | src/main/java/com/weatherservice/service/RateLimitingService.java:68-72 | deletes only the current window's counter and returns whether it existed; a store error changes nothing |
| RateLimiting.RateLimitingService.GetRateLimitInfo | src/main/java/com/weatherservice/service/RateLimitingService.java:88-102 | the current count, max(0, 100 - count), limit 100, window 1 minute and reset time now + 60 - now mod 60 |
| RateLimiting.SplitAtLastColon | src/main/java/com/weatherservice/service/RateLimitingService.java:28 | a key ending in `:` + colon-free text splits uniquely |
| RateLimiting.CounterKeyInjective | src/main/java/com/weatherservice/service/RateLimitingService.java:104-107 | one counter key names exactly one client and one minute, even for client ids with colons |
| RateLimiting.SameMinuteSameKey | src/main/java/com/weatherservice/service/RateLimitingService.java:104-107 | instants of the same minute share the counter |
| RateLimiting.ResetTimeIsNextWindow | src/main/java/com/weatherservice/service/RateLimitingService.java:91 | the reset time is the first second of the next minute |
| RateLimiting.AdmittedIffRemaining | src/main/java/com/weatherservice/service/RateLimitingService.java:40-63 | on a healthy store a request is admitted exactly when at least one request remained before it |
| RateLimiting.RefusedRequestsStillCount | src/main/java/com/weatherservice/service/RateLimitingService.java:30-31 | every admission on an answering store increments its own counter by exactly one and no other |
| RateLimiting.StoreErrorsFailOpen | src/main/java/com/weatherservice/service/RateLimitingService.java:30-48 | a raising increment lets the request through, whatever the counters hold |
| RateLimiting.FirstExpireFailsOpen | src/main/java/com/weatherservice/service/RateLimitingService.java:33-48 | a raising EXPIRE on a window's first request lets it through, whatever the limit |
| RateLimiting.WindowRun | src/main/java/com/weatherservice/service/RateLimitingService.java:27-49 | n requests in one window from no counter leave count n, the expiry set by the first, refusals recorded for exactly the counts beyond the limit, and the n-th allowed iff n <= limit |
| LocationSearch.SearchKeyNormalises | src/main/java/com/weatherservice/service/LocationSearchService.java:76-79 | queries differing in letter case share their key, and normalising a normalised query keeps the key |
| LocationSearch.SearchKeyNotWeatherKey | src/main/java/com/weatherservice/service/LocationSearchService.java:26 | a search key never equals a weather snapshot key |
| LocationSearch.SearchKey | src/main/java/com/weatherservice/service/LocationSearchService.java:76-79 | the normalised query holds no whitespace, then `_`, then the language or `en` |
| LocationSearch.Search | src/main/java/com/weatherservice/service/LocationSearchService.java:25-74 | a null query is exactly the `NullQuery` failure; clients are asked only for a present query on an answering store; a failure leaves the store as it was; the store changes only when clients were asked and the set answered true |
| LocationSearch.Fetch | src/main/java/com/weatherservice/service/LocationSearchService.java:47-56 | every fetched location is in some client's list |
| LocationSearch.FetchWithoutFailures | src/main/java/com/weatherservice/service/LocationSearchService.java:47-56 | without failing clients all lists are concatenated in client order |
| LocationSearch.FetchStopsAtFailure | src/main/java/com/weatherservice/service/LocationSearchService.java:51-54 | a failing client discards the answers of every client after it |
| LocationSearch.Distinct | src/main/java/com/weatherservice/service/LocationSearchService.java:43 | output keys `name:country` are pairwise distinct, come from the input, and cover every input key |
| LocationSearch.DistinctKeepsFirst | src/main/java/com/weatherservice/service/LocationSearchService.java:43 | the first location of each key is kept |
| LocationSearch.DistinctAppend | src/main/java/com/weatherservice/service/LocationSearchService.java:43 | de-duplication runs left to right: a later part keeps what the keys of every earlier part did not already pass |
| LocationSearch.Take | src/main/java/com/weatherservice/service/LocationSearchService.java:44 | at most n, a prefix, exactly n when enough are available |
| LocationSearch.InsertByName | src/main/java/com/weatherservice/service/LocationSearchService.java:63-65 | insertion keeps the multiset, adding the one element |
| LocationSearch.SortByName | src/main/java/com/weatherservice/service/LocationSearchService.java:63-65 | the sort is a permutation |
| LocationSearch.InsertKeepsOrder | src/main/java/com/weatherservice/service/LocationSearchService.java:63-65 | insertion keeps a list ordered by name |
| LocationSearch.SortOrders | src/main/java/com/weatherservice/service/LocationSearchService.java:63-65 | the sorted list is ordered by name |
| LocationSearch.InsertStable | src/main/java/com/weatherservice/service/LocationSearchService.java:63-65 | insertion places the element first among those of equal name, leaving their order as it was |
| LocationSearch.SortStable | src/main/java/com/weatherservice/service/LocationSearchService.java:63-65 | the sort is stable: locations of one name keep their relative order |
| LocationSearch.DistinctKeepsOrder | src/main/java/com/weatherservice/service/LocationSearchService.java:43 | de-duplication keeps a name-ordered list ordered |
| LocationSearch.LocationSearchService.constructor | src/main/java/com/weatherservice/service/LocationSearchService.java:22-23 | the store starts empty |
| LocationSearch.LocationSearchService.SearchLocations | src/main/java/com/weatherservice/service/LocationSearchService.java:25-74 | the result, the new store and whether clients were asked are those of `Search` |
| LocationSearch.SearchFailures | src/main/java/com/weatherservice/service/LocationSearchService.java:26-68 | a search fails with a null query, a negative limit, or a store error on the read or on the write of a non-empty miss, and only then |
| LocationSearch.SearchBounded | src/main/java/com/weatherservice/service/LocationSearchService.java:43-44 | a successful result has at most limit (default 5) locations, distinct by name and country |
| LocationSearch.CachedSearchSkipsClients | src/main/java/com/weatherservice/service/LocationSearchService.java:28-36 | a non-empty cached list is served de-duplicated and cut, without any client call or write |
| LocationSearch.SearchWritesOnlyItsKey | src/main/java/com/weatherservice/service/LocationSearchService.java:58-68 | a search writes nothing, or exactly the sorted fetched list under its own key |
| LocationSearch.EmptyAnswerNotCached | src/main/java/com/weatherservice/service/LocationSearchService.java:58-61 | an empty fetch is not written |
| LocationSearch.MissServesFetchOrder | src/main/java/com/weatherservice/service/LocationSearchService.java:38-44 | on a miss the caller gets the fetched list in fetch order |
| LocationSearch.RepeatSearchServedSorted | src/main/java/com/weatherservice/service/LocationSearchService.java:40-68 | a repeated search after a cached miss is served from the cache, in name order, with the same keys |
| WeatherService.FirstWhere | src/main/java/com/weatherservice/service/WeatherServiceFacade.java:160-174 | the first non-null client satisfying the test, or none when no client does |
| WeatherService.SelectProviderClient | src/main/java/com/weatherservice/service/WeatherServiceFacade.java:156-174 | the chosen client supports the pinned provider or is real; none only when no client is real or a supporter |
| WeatherService.DefaultProvider | src/main/java/com/weatherservice/service/WeatherServiceFacade.java:169-174 | a real client, and none exactly when no present client is real |
| WeatherService.SupporterSelected | src/main/java/com/weatherservice/service/WeatherServiceFacade.java:159-163 | with a pinned provider the first supporter is chosen |
| WeatherService.DefaultSelected | src/main/java/com/weatherservice/service/WeatherServiceFacade.java:163-174 | without a supporter the first real client is chosen |
| WeatherService.CachedFallback | src/main/java/com/weatherservice/service/WeatherServiceFacade.java:129-134 | the cached value, else ServiceUnavailable with `Service unavailable and no cached data for: ` + city |
| WeatherService.HandleWeatherError | src/main/java/com/weatherservice/service/WeatherServiceFacade.java:136-154 | a success is the handler's or the last cache read; a cached entry at the handler's read is served; every failure is ServiceUnavailable naming the city |
| WeatherService.Retrieve | src/main/java/com/weatherservice/service/WeatherServiceFacade.java:28-154 | a null request fails with the invalid-argument message and changes nothing; a client is asked only for a request, and it is the selected one |
| WeatherService.WeatherServiceFacade.constructor | src/main/java/com/weatherservice/service/WeatherServiceFacade.java:23-26 | the facade holds the given cache |
| WeatherService.WeatherServiceFacade.GetWeather | src/main/java/com/weatherservice/service/WeatherServiceFacade.java:28-211 | result, new cache state and asked client are those of `Retrieve` |
| WeatherService.NullRequestRefused | src/main/java/com/weatherservice/service/WeatherServiceFacade.java:28-31 | a null request is an invalid-argument error before any cache or client call |
| WeatherService.CacheFirst | src/main/java/com/weatherservice/service/WeatherServiceFacade.java:36-94 | a cache hit is returned unchanged with no client asked and no write |
| WeatherService.ProviderAnswerCached | src/main/java/com/weatherservice/service/WeatherServiceFacade.java:109-211 | after a miss the selected client's answer is returned unchanged whatever the write; a successful write serves the next request the copy stamped one TTL later |
| WeatherService.FailuresOfGetWeather | src/main/java/com/weatherservice/service/WeatherServiceFacade.java:28-154 | every failure is the null-request error or ServiceUnavailable naming the city, never LocationNotFound |
| WeatherService.SuccessHasASource | src/main/java/com/weatherservice/service/WeatherServiceFacade.java:36-154 | a success is a client's answer or the result of one of the four cache reads |
| WeatherService.MissCauseIrrelevant | src/main/java/com/weatherservice/service/WeatherServiceFacade.java:75-94 | a cache read that raises and finds nothing valid in memory proceeds exactly like an empty read |
| WeatherService.FallbacksCannotRescueConsistentStore | src/main/java/com/weatherservice/service/WeatherServiceFacade.java:119-154 | with a store answering every read alike, a miss and a failing or empty client end in ServiceUnavailable |
| WeatherService.GetWeatherWritesOnlyItsKey | src/main/java/com/weatherservice/service/WeatherServiceFacade.java:109-211 | getWeather writes nothing, or the asked client's answer under the request's key |
| WeatherService.RealProviders | src/main/java/com/weatherservice/service/WeatherServiceFacade.java:176-180 | every real non-null client is kept and nothing else is |
| WeatherService.RealProvidersAppend | src/main/java/com/weatherservice/service/WeatherServiceFacade.java:176-180 | the selection is a filter: it distributes over concatenation, so order and repetitions are kept |
| WeatherService.RealProvidersOne | src/main/java/com/weatherservice/service/WeatherServiceFacade.java:176-180 | one client is kept exactly when it is present and real |
| WeatherService.Responses | src/main/java/com/weatherservice/service/WeatherServiceFacade.java:182-197 | every value some client answered is kept and nothing else; errors and empty answers are dropped |
| WeatherService.ResponsesAppend | src/main/java/com/weatherservice/service/WeatherServiceFacade.java:182-197 | collecting answers distributes over concatenation, so each answering client adds its own answer, in client order |
| WeatherService.ResponsesOne | src/main/java/com/weatherservice/service/WeatherServiceFacade.java:182-197 | one client contributes its answer exactly when it answered with a value |
| WeatherService.Column | src/main/java/com/weatherservice/service/WeatherServiceFacade.java:245-307 | the column holds only values some answer has in the field, and every such value |
| WeatherService.ColumnAppend | src/main/java/com/weatherservice/service/WeatherServiceFacade.java:245-307 | a column distributes over concatenation, so equal readings of different answers are all averaged |
| WeatherService.ColumnOne | src/main/java/com/weatherservice/service/WeatherServiceFacade.java:245-307 | one answer contributes its value exactly when the field is non-null |
| WeatherService.ColumnAllPresent | src/main/java/com/weatherservice/service/WeatherServiceFacade.java:226-239 | when no answer lacks the field the column has one value per answer, in answer order |
| WeatherService.MostFrequent | src/main/java/com/weatherservice/service/WeatherServiceFacade.java:309-318 | a candidate of maximal count |
| WeatherService.MostCommon | src/main/java/com/weatherservice/service/WeatherServiceFacade.java:309-318 | `Unknown` for no descriptions, else a description of maximal count |
| WeatherService.CreateAggregatedResponse | src/main/java/com/weatherservice/service/WeatherServiceFacade.java:213-243 | location of the first answer, sources count, timestamp now, all averages present, and advice computed from the aggregate, never `Check weather conditions` |
| WeatherService.Mean | src/main/java/com/weatherservice/service/WeatherServiceFacade.java:245-259 | 0.0 for no values; otherwise the count times the mean is the sum |
| WeatherService.RoundedMean | src/main/java/com/weatherservice/service/WeatherServiceFacade.java:261-291 | the definition: 0 for no values, else the average rounded half up; `RoundedMeanNearest` states the nearest-integer property |
| WeatherService.AggregateRealDefaults | src/main/java/com/weatherservice/service/WeatherServiceFacade.java:251-301 | temperature and wind speed are 0.0 when no answer reports them |
| WeatherService.AggregateIntegerDefaults | src/main/java/com/weatherservice/service/WeatherServiceFacade.java:267-285 | humidity and pressure are 0 when no answer reports them |
| WeatherService.AggregateDescriptionDefault | src/main/java/com/weatherservice/service/WeatherServiceFacade.java:309-318 | the description is `Unknown` when no answer reports one |
| WeatherService.AggregatedTemperature | src/main/java/com/weatherservice/service/WeatherServiceFacade.java:245-259 | the aggregate temperature is the mean of the reported temperatures |
| WeatherService.AggregatedWindSpeed | src/main/java/com/weatherservice/service/WeatherServiceFacade.java:293-307 | the aggregate wind speed is the mean of the reported wind speeds |
| WeatherService.AggregatedDescription | src/main/java/com/weatherservice/service/WeatherServiceFacade.java:309-318 | the aggregate description is a reported one whenever any is reported, and no description is reported more often |
| WeatherService.GetAggregatedWeather | src/main/java/com/weatherservice/service/WeatherServiceFacade.java:50-73 | null request, no real client and no answering client are the three errors; a request some real client answers succeeds with the aggregate of exactly those answers |
| WeatherService.SumBounds | src/main/java/com/weatherservice/service/WeatherServiceFacade.java:255-258 | n * lo <= sum <= n * hi |
| WeatherService.MeanWithinBounds | src/main/java/com/weatherservice/service/WeatherServiceFacade.java:245-307 | an average lies between the least and greatest value |
| WeatherService.RoundedMeanNearest | src/main/java/com/weatherservice/service/WeatherServiceFacade.java:261-291 | the integer average is the nearest integer, halves rounded up |
| WeatherService.MajorityDescriptionWins | src/main/java/com/weatherservice/service/WeatherServiceFacade.java:309-318 | a description held by more than half is chosen |
| WeatherService.CountsShareLength | src/main/java/com/weatherservice/service/WeatherServiceFacade.java:313 | counts of two distinct descriptions add up to at most the total |
| WeatherService.ColumnMeanWithin | src/main/java/com/weatherservice/service/WeatherServiceFacade.java:245-259 | the mean of a field lies between the least and greatest value the answers report for it |
| WeatherService.AggregateWithinReadings | src/main/java/com/weatherservice/service/WeatherServiceFacade.java:226-239 | the aggregate temperature and wind speed lie within the range of the answers' readings |
| WeatherService.AggregateRounding | src/main/java/com/weatherservice/service/WeatherServiceFacade.java:261-291 | aggregate humidity and pressure are the nearest integers, halves up, to the exact averages of the non-null readings |
| WeatherService.AggregateProvidersInOrder | src/main/java/com/weatherservice/service/WeatherServiceFacade.java:233-236 | when every answer names its provider, the aggregate lists one provider per answer, in order |
| WeatherService.TwoProviderAverages | src/main/java/com/weatherservice/service/WeatherServiceFacade.java:213-307 | 15/17, 60/70, 1010/1015 and 3/4 aggregate to 16.0, 65, 1013, 3.5 with two sources |
| WeatherService.TwoProvidersAggregated | src/test/java/com/weatherservice/service/WeatherServiceFacadeExtendedTest.java:81-102 | getAggregatedWeather with exactly the test's two real clients gives 16.0, 65, 1013 and 3.5 with two sources |
| WeatherService.TwoClientsAnswers | src/main/java/com/weatherservice/service/WeatherServiceFacade.java:176-197 | two answering real clients contribute both answers, in order |
| WeatherService.TwoOfThreeProvidersAggregated | src/main/java/com/weatherservice/service/WeatherServiceFacade.java:50-73 | beyond the test's setting: the test's two answers plus a third real client that fails or answers empty give 16.0, 65, 1013 and 3.5 from two sources, listed in provider order |
| WeatherService.ThreeClientsAnswers | src/main/java/com/weatherservice/service/WeatherServiceFacade.java:176-197 | of three real clients whose last does not answer, the first two answers are the ones aggregated, in order |
| WeatherService.ThreeRealProviders | src/main/java/com/weatherservice/service/WeatherServiceFacade.java:176-180 | three present real clients are all kept, in order |
| WeatherService.ThreeResponses | src/main/java/com/weatherservice/service/WeatherServiceFacade.java:182-197 | of three clients whose last does not answer, the first two answers are collected, in order |
| Text.Lower | src/main/java/com/weatherservice/util/WeatherKeyGenerator.java:28-30 | ASCII lower-casing keeps length and maps each character |
| Text.CollapseSpaces | src/main/java/com/weatherservice/service/LocationSearchService.java:77 | the `\\s+` to `_` rewrite; `CollapseSpaceFree` and `CollapseChars` show that no whitespace survives and every other character comes from the input |
| Text.Trim | src/main/java/com/weatherservice/service/WeatherDataTransformer.java:98 | the definition strips characters up to U+0020 at both ends; `TrimShape` shows the result is a piece of the input with non-blank ends |
| Text.LexLess | src/main/java/com/weatherservice/service/LocationSearchService.java:63-65 | the definition orders strings lexicographically; its lemmas show a strict total order (irreflexive, asymmetric, transitive, total) |
| Text.NatToString | src/main/java/com/weatherservice/service/RateLimitingService.java:104-107 | at least one character, all decimal digits |
| Text.CollapseIdempotent | src/main/java/com/weatherservice/service/LocationSearchService.java:77 | `replaceAll("\\s+", "_")` applied twice is applied once |
| Text.TrimIdempotent | src/main/java/com/weatherservice/service/WeatherDataTransformer.java:98 | `trim` applied twice is applied once |
| Text.NatToStringInjective | src/main/java/com/weatherservice/service/RateLimitingService.java:106 | distinct minutes render as distinct decimal strings |

## Left out

- HTTP provider clients and their JSON mapping: a client is only its `isRealProvider` flag, the provider names it supports, and the outcome of its call (a value, empty, or an error).
- Metrics and logging are side effects without influence on results. The one exception is the limiter's exceeded counter, kept as `exceededEvents`.
- Reactive concurrency:
  - The aggregation and the search fan-out are modelled as waiting for every client, in client order. `Flux.merge` and `flatMap` deliver in completion order.
  - The number of averaged values and the `distinct` and limit properties do not depend on that order.
  - `Fetch` keeps what came before the first failing client in client order; under concurrency that prefix depends on timing.
- Redis time-to-live: the store deletes nothing by itself in the model.
  - Weather entries stay in the store past their TTL. A store hit is served regardless of expiry, as in the code.
  - Rate-limit counters record their expiry, but nothing deletes them when it passes. The window argument can be shorter than the rest of the current minute, or zero. Then Redis deletes the counter inside the minute, and the next request starts again at 1 under the same key. The model keeps counting.
  - The 30-minute TTL of cached searches is not modelled.
- Clock reads: the model uses one `now` for each operation.
  - `Instant.now()` is read twice in `getRateLimitInfo` and again for the window key.
  - `normalizeWeatherData` reads `LocalDateTime.now()` once for a missing timestamp and once more in `calculateCacheExpiry`.
- Floating point: averages and the 3.6 wind conversion use exact `real` arithmetic. `String.format("%.4f")`, `Double.toString` and SHA-256 with Base64 are uninterpreted functions in `KeyGenerator.Formats`.
- Text is handled character by character, with no Unicode beyond what these operations need:
  - lower-casing is ASCII only;
  - `String.compareTo` compares UTF-16 code units, while `Text.LexLess` compares Dafny characters;
  - `LocationInfo` name and country are non-null strings.
    - A null name throws only when the sort compares it: on a miss whose fetched list has at least two locations. Served results, cache hits and one-element lists never compare names.
    - A null country never throws. It reads `name:null` in the de-duplication key, the same as the text `null`.
    - With neither null modelled, the model cannot return a location that lacks a name or a country.
- Integer width: counters and sums are unbounded. Java's `long` counter and `int` casts of averages would wrap only beyond realistic values.
- Unreachable or reflective code:
  - the `NoSuchAlgorithmException` branch of `generateHashKey`;
  - `generate(Object, Method, Object...)`;
  - the null-response check after a provider call (Reactor never emits null);
  - a provider call returning a null `Mono`;
  - `createAggregatedResponse`'s own empty-list and null-element exceptions (its only caller filters these out, so the model requires a non-empty list);
  - a non-list object under a search key.
- The facade's error-to-miss guard around `getCachedWeather` (`getCachedWeatherSafe`): the modelled cache service never fails, because it turns a store error into a memory lookup. `MissCauseIrrelevant` states the resulting equivalence.
- The error handler is always present; the `errorHandler == null` branch of `handleWeatherError` is not modelled.
- WeatherService.MostCommon: breaks ties among descriptions of maximal count by first occurrence. The source's `HashMap` order is unspecified; the contract promises only a description of maximal count.
- `normalizeWeatherData` with a null provider: the 15-minute default of `calculateCacheExpiry` is unreachable for a non-null enum, and a null one throws, as modelled.
