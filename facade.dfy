/**
 * `WeatherServiceFacade`: the entry point for weather data. `getWeather` serves the cache first,
 * then one selected provider client (caching its answer), then the cache again, then the error
 * handler, then the cache one last time. `getAggregatedWeather` asks every real provider and
 * combines their answers into averages, a most common description and advice.
 */
module WeatherService {
  import opened Wrappers
  import opened Model
  import opened Redis
  import opened KeyGenerator
  import opened CacheService
  import opened AggregatedWeather
  import EH = ErrorHandler
  import DataTransformer

  // ---------------------------------------------------------------- provider clients

  /** What a client's `getCurrentWeather` produced: a response, nothing, or an error. */
  datatype Answer = Responds(response: WeatherResponse) | RespondsEmpty | Fails

  /** A provider client: `isRealProvider`, the provider names it supports, and its answer. */
  datatype Client = Client(isReal: bool, supported: set<string>, answer: Answer)

  predicate Supports(request: WeatherRequest, c: Client) {
    request.provider.Some? && ProviderName(request.provider.value) in c.supported
  }

  /** The index of the first non-null client satisfying `p`, in the client map's iteration order. */
  function FirstWhere(clients: seq<Option<Client>>, p: Client -> bool): (r: Option<nat>)
    ensures r.Some? ==> r.value < |clients| && clients[r.value].Some? && p(clients[r.value].value)
    ensures r.Some? ==> forall j :: 0 <= j < r.value && clients[j].Some? ==> !p(clients[j].value)
    ensures r.None? ==> forall j :: 0 <= j < |clients| && clients[j].Some? ==> !p(clients[j].value)
  {
    if clients == [] then None
    else if clients[0].Some? && p(clients[0].value) then Some(0)
    else
      match FirstWhere(clients[1..], p)
      case None => None
      case Some(i) => Some(i + 1)
  }

  /** `getDefaultProvider`: the first real client. */
  function DefaultProvider(clients: seq<Option<Client>>): (r: Option<nat>)
    ensures r.Some? ==> r.value < |clients| && clients[r.value].Some? && clients[r.value].value.isReal
    ensures r.None? <==> forall j :: 0 <= j < |clients| && clients[j].Some? ==> !clients[j].value.isReal
  {
    FirstWhere(clients, (c: Client) => c.isReal)
  }

  /**
   * `selectProviderClient`: with a pinned provider, the first client supporting its name, else
   * the default; without one, the default.
   */
  function SelectProviderClient(clients: seq<Option<Client>>, request: WeatherRequest): (r: Option<nat>)
    ensures r.Some? ==> r.value < |clients| && clients[r.value].Some?
    ensures r.Some? ==> Supports(request, clients[r.value].value) || clients[r.value].value.isReal
    ensures r.None? <==>
      forall i :: 0 <= i < |clients| && clients[i].Some? ==>
        !clients[i].value.isReal && !Supports(request, clients[i].value)
  {
    if request.provider.Some? then
      match FirstWhere(clients, (c: Client) => Supports(request, c))
      case Some(i) => Some(i)
      case None => DefaultProvider(clients)
    else DefaultProvider(clients)
  }

  /** A client supporting the pinned provider wins over every later client, real or not. */
  lemma SupporterSelected(clients: seq<Option<Client>>, request: WeatherRequest, i: nat)
    requires i < |clients| && clients[i].Some? && Supports(request, clients[i].value)
    requires forall j :: 0 <= j < i && clients[j].Some? ==> !Supports(request, clients[j].value)
    ensures SelectProviderClient(clients, request) == Some(i)
  {
    var r := FirstWhere(clients, (c: Client) => Supports(request, c));
    assert r.Some?;
  }

  /** Without a supporter, the first real client is chosen. */
  lemma DefaultSelected(clients: seq<Option<Client>>, request: WeatherRequest, i: nat)
    requires forall j :: 0 <= j < |clients| && clients[j].Some? ==> !Supports(request, clients[j].value)
    requires i < |clients| && clients[i].Some? && clients[i].value.isReal
    requires forall j :: 0 <= j < i && clients[j].Some? ==> !clients[j].value.isReal
    ensures SelectProviderClient(clients, request) == Some(i)
  {
    var r := DefaultProvider(clients);
    assert r.Some?;
  }

  // ---------------------------------------------------------------- getWeather

  /** The outcomes of the four cache reads of one `getWeather`, in the order they can happen. */
  datatype Reads = Reads(first: StoreCall, fallback: StoreCall, handler: StoreCall, last: StoreCall)

  /** What one `getWeather` did: its outcome, the cache tiers after it, and the client it asked. */
  datatype Retrieval = Retrieval(result: Result<WeatherResponse, EH.Failure>, tiers: Tiers, asked: Option<nat>)

  const NullRequestMessage := "WeatherRequest cannot be null"
  const NoSupportedProvider := "No supported weather provider found"
  const NoCachedDataFor := "Service unavailable and no cached data for: "

  /** `getCachedFallback`: the cache, or ServiceUnavailable naming the city. */
  function CachedFallback(t: Tiers, key: string, request: WeatherRequest, read: StoreCall, now: Instant)
    : (r: Result<WeatherResponse, EH.Failure>)
    ensures r.Success? <==> Lookup(t, key, read, now).Some?
    ensures r.Success? ==> r.value == Lookup(t, key, read, now).value
    ensures r.Failure? ==> r.error == EH.ServiceUnavailable(NoCachedDataFor + CityText(request))
  {
    match Lookup(t, key, read, now)
    case Some(v) => Success(v)
    case None => Failure(EH.ServiceUnavailable(NoCachedDataFor + CityText(request)))
  }

  /**
   * `handleWeatherError`: the error that reaches it is always the service's own
   * ServiceUnavailableException, which the handler treats as unclassified; whatever the handler
   * fails with is resumed by one more cached fallback.
   */
  function HandleWeatherError(t: Tiers, key: string, request: WeatherRequest, cause: string,
                              io: Reads, now: Instant): (r: Result<WeatherResponse, EH.Failure>)
    ensures r.Success? ==>
      Lookup(t, key, io.handler, now) == Some(r.value) || Lookup(t, key, io.last, now) == Some(r.value)
    ensures r.Failure? ==> r.error == EH.ServiceUnavailable(NoCachedDataFor + CityText(request))
    ensures Lookup(t, key, io.handler, now).Some? ==> r == Success(Lookup(t, key, io.handler, now).value)
  {
    var handled := EH.HandleProviderError(EH.ProviderError(EH.Unclassified, Some(cause)), request,
                                          Lookup(t, key, io.handler, now));
    if handled.Success? then handled else CachedFallback(t, key, request, io.last, now)
  }

  /** `getWeather`, given the outcome of every store call and every client's answer. */
  function Retrieve(t: Tiers, f: Formats, request: Option<WeatherRequest>, clients: seq<Option<Client>>,
                    io: Reads, write: SetReply, now: Instant): (run: Retrieval)
    ensures request.None? ==> run == Retrieval(Failure(EH.InvalidArgument(NullRequestMessage)), t, None)
    ensures run.asked.Some? ==> request.Some? && run.asked == SelectProviderClient(clients, request.value)
  {
    match request
    case None => Retrieval(Failure(EH.InvalidArgument(NullRequestMessage)), t, None)
    case Some(r) =>
      var key := CacheKey(f, request);
      match Lookup(t, key, io.first, now)
      case Some(v) => Retrieval(Success(v), t, None)
      case None =>
        match SelectProviderClient(clients, r)
        case None => Retrieval(HandleWeatherError(t, key, r, NoSupportedProvider, io, now), t, None)
        case Some(i) =>
          match clients[i].value.answer
          case Responds(resp) =>
            var w := Put(t, key, WithExpiry(resp, now + GetCacheTtl(r)), write);
            Retrieval(Success(resp), w.tiers, Some(i))
          case _ =>
            var fallback := CachedFallback(t, key, r, io.fallback, now);
            if fallback.Success? then Retrieval(fallback, t, Some(i))
            else Retrieval(HandleWeatherError(t, key, r, NoCachedDataFor + CityText(r), io, now), t, Some(i))
  }

  class WeatherServiceFacade {
    const cache: WeatherCache

    constructor(cache: WeatherCache)
      ensures this.cache == cache
    {
      this.cache := cache;
    }

    /** `getWeather`. */
    method GetWeather(request: Option<WeatherRequest>, clients: seq<Option<Client>>, io: Reads,
                      write: SetReply, now: Instant)
      returns (result: Result<WeatherResponse, EH.Failure>, asked: Option<nat>)
      modifies cache
      ensures Retrieval(result, cache.State(), asked) ==
              Retrieve(old(cache.State()), cache.formats, request, clients, io, write, now)
    {
      if request.None? {
        return Failure(EH.InvalidArgument(NullRequestMessage)), None;
      }
      var r := request.value;
      var key := CacheKey(cache.formats, request);
      var cached := cache.GetCachedWeather(request, io.first, now);
      if cached.Some? {
        return Success(cached.value), None;
      }
      var selected := SelectProviderClient(clients, r);
      if selected.None? {
        return HandleWeatherError(cache.State(), key, r, NoSupportedProvider, io, now), None;
      }
      asked := selected;
      var answer := clients[selected.value].value.answer;
      if answer.Responds? {
        var written := cache.CacheWeatherDataDefaultTtl(request, Some(answer.response), write, now);
        return Success(answer.response), asked;
      }
      result := CachedFallback(cache.State(), key, r, io.fallback, now);
      if result.Failure? {
        result := HandleWeatherError(cache.State(), key, r, NoCachedDataFor + CityText(r), io, now);
      }
    }
  }

  // ---------------------------------------------------------------- properties of getWeather

  /** A null request is refused before anything else happens. */
  lemma NullRequestRefused(t: Tiers, f: Formats, clients: seq<Option<Client>>, io: Reads,
                           write: SetReply, now: Instant)
    ensures Retrieve(t, f, None, clients, io, write, now)
         == Retrieval(Failure(EH.InvalidArgument(NullRequestMessage)), t, None)
  {
  }

  /** A cache hit answers without asking any client and without writing. */
  lemma CacheFirst(t: Tiers, f: Formats, r: WeatherRequest, clients: seq<Option<Client>>, io: Reads,
                   write: SetReply, now: Instant)
    requires Lookup(t, CacheKey(f, Some(r)), io.first, now).Some?
    ensures var run := Retrieve(t, f, Some(r), clients, io, write, now);
      run == Retrieval(Success(Lookup(t, CacheKey(f, Some(r)), io.first, now).value), t, None)
  {
  }

  /**
   * A fresh provider answer is returned as it came, however the write goes, and when the write
   * succeeds the next `getWeather` of the same request is answered from the cache with the copy
   * stamped to expire one TTL later.
   */
  lemma ProviderAnswerCached(t: Tiers, f: Formats, r: WeatherRequest, clients: seq<Option<Client>>,
                             io: Reads, write: SetReply, now: Instant, again: Reads, later: Instant)
    requires Lookup(t, CacheKey(f, Some(r)), io.first, now).None?
    requires var s := SelectProviderClient(clients, r); s.Some? && clients[s.value].value.answer.Responds?
    requires again.first == Answers
    ensures var s := SelectProviderClient(clients, r);
      var resp := clients[s.value].value.answer.response;
      var run := Retrieve(t, f, Some(r), clients, io, write, now);
      && run.result == Success(resp) && run.asked == s
      && (write == SetTrue ==>
            Retrieve(run.tiers, f, Some(r), clients, again, write, later).result
            == Success(WithExpiry(resp, now + GetCacheTtl(r))))
  {
  }

  /**
   * Every failure is either the null-request refusal or ServiceUnavailable naming the city; in
   * particular `getWeather` never fails with LocationNotFound.
   */
  lemma FailuresOfGetWeather(t: Tiers, f: Formats, request: Option<WeatherRequest>, clients: seq<Option<Client>>,
                             io: Reads, write: SetReply, now: Instant)
    ensures var run := Retrieve(t, f, request, clients, io, write, now);
      run.result.Failure? ==>
        || (request.None? && run.result.error == EH.InvalidArgument(NullRequestMessage))
        || (request.Some? && run.result.error == EH.ServiceUnavailable(NoCachedDataFor + CityText(request.value)))
  {
  }

  /** A successful answer is a provider's response or what one of the four cache reads returned. */
  lemma SuccessHasASource(t: Tiers, f: Formats, request: Option<WeatherRequest>, clients: seq<Option<Client>>,
                          io: Reads, write: SetReply, now: Instant)
    ensures var run := Retrieve(t, f, request, clients, io, write, now);
      run.result.Success? ==>
        && request.Some?
        && var key := CacheKey(f, request);
        || (exists i :: 0 <= i < |clients| && clients[i].Some? && clients[i].value.answer == Responds(run.result.value))
        || Lookup(t, key, io.first, now) == Some(run.result.value)
        || Lookup(t, key, io.fallback, now) == Some(run.result.value)
        || Lookup(t, key, io.handler, now) == Some(run.result.value)
        || Lookup(t, key, io.last, now) == Some(run.result.value)
  {
    var run := Retrieve(t, f, request, clients, io, write, now);
    if run.result.Success? && request.Some? {
      var s := SelectProviderClient(clients, request.value);
      if s.Some? && clients[s.value].value.answer.Responds? && Lookup(t, CacheKey(f, request), io.first, now).None? {
        assert clients[s.value].value.answer == Responds(run.result.value);
      }
    }
  }

  /**
   * Once the first read misses, why it missed (an empty answer, or a store error with nothing
   * valid in memory) makes no difference to the rest of `getWeather`.
   */
  lemma MissCauseIrrelevant(t: Tiers, f: Formats, r: WeatherRequest, clients: seq<Option<Client>>,
                            io: Reads, first: StoreCall, write: SetReply, now: Instant)
    requires Lookup(t, CacheKey(f, Some(r)), io.first, now).None?
    requires Lookup(t, CacheKey(f, Some(r)), first, now).None?
    ensures Retrieve(t, f, Some(r), clients, io, write, now)
         == Retrieve(t, f, Some(r), clients, io.(first := first), write, now)
  {
  }

  /**
   * With a store that answers every read the same way, the fallback reads see what the first read
   * saw: after a miss and a provider that fails or answers empty, `getWeather` fails.
   */
  lemma FallbacksCannotRescueConsistentStore(t: Tiers, f: Formats, r: WeatherRequest,
                                             clients: seq<Option<Client>>, read: StoreCall,
                                             write: SetReply, now: Instant)
    requires Lookup(t, CacheKey(f, Some(r)), read, now).None?
    requires var s := SelectProviderClient(clients, r); s.None? || !clients[s.value].value.answer.Responds?
    ensures Retrieve(t, f, Some(r), clients, Reads(read, read, read, read), write, now).result
         == Failure(EH.ServiceUnavailable(NoCachedDataFor + CityText(r)))
  {
  }

  /** `getWeather` writes at most the request's own key, and only a provider's answer. */
  lemma GetWeatherWritesOnlyItsKey(t: Tiers, f: Formats, request: Option<WeatherRequest>,
                                   clients: seq<Option<Client>>, io: Reads, write: SetReply, now: Instant)
    ensures var run := Retrieve(t, f, request, clients, io, write, now);
      || run.tiers == t
      || (&& request.Some? && run.asked.Some?
          && run.asked.value < |clients| && clients[run.asked.value].Some?
          && clients[run.asked.value].value.answer.Responds?
          && run.tiers == Put(t, CacheKey(f, request),
                              WithExpiry(clients[run.asked.value].value.answer.response,
                                         now + GetCacheTtl(request.value)), write).tiers)
  {
  }

  // ---------------------------------------------------------------- getAggregatedWeather

  const NoProviders := "No weather providers available"
  const AllProvidersFailed := "All weather providers failed"
  /** `getRealProviders`: the non-null real clients, in order. */
  function RealProviders(clients: seq<Option<Client>>): (r: seq<Client>)
    ensures forall c :: c in r ==> c.isReal && Some(c) in clients
    ensures forall i :: 0 <= i < |clients| && clients[i].Some? && clients[i].value.isReal ==> clients[i].value in r
  {
    if clients == [] then []
    else
      var rest := RealProviders(clients[1..]);
      assert forall i :: 1 <= i < |clients| ==> clients[i] == clients[1..][i - 1];
      if clients[0].Some? && clients[0].value.isReal then [clients[0].value] + rest else rest
  }

  /** The responses of the clients that answered with one; errors and empty answers are dropped. */
  function Responses(clients: seq<Client>): (r: seq<WeatherResponse>)
    ensures |r| <= |clients|
    ensures forall v :: v in r <==> exists c :: c in clients && c.answer == Responds(v)
  {
    if clients == [] then []
    else
      var rest := Responses(clients[1..]);
      assert forall c :: c in clients <==> c == clients[0] || c in clients[1..];
      if clients[0].answer.Responds? then [clients[0].answer.response] + rest else rest
  }

  function Sum(xs: seq<real>): real {
    if xs == [] then 0.0 else xs[0] + Sum(xs[1..])
  }

  function IntSum(xs: seq<int>): int {
    if xs == [] then 0 else xs[0] + IntSum(xs[1..])
  }

  /** `DoubleStream.average().orElse(0.0)`, with an empty list giving 0.0. */
  function Mean(xs: seq<real>): (m: real)
    ensures xs == [] ==> m == 0.0
    ensures xs != [] ==> |xs| as real * m == Sum(xs)
  {
    if xs == [] then 0.0 else Sum(xs) / |xs| as real
  }

  /** `(int) Math.round(IntStream.average())`: the mean rounded half up, 0 for no values. */
  function RoundedMean(xs: seq<int>): int {
    if xs == [] then 0 else (2 * IntSum(xs) + |xs|) / (2 * |xs|)
  }

  function CurrentOf(r: WeatherResponse): CurrentWeather {
    r.current.GetOr(CurrentWeather(None, None, None, None, None, None, None, None, None))
  }

  /** The values a field has in the answers, skipping answers where it is null, in order. */
  function Column<T(!new)>(rs: seq<WeatherResponse>, field: WeatherResponse -> Option<T>): (r: seq<T>)
    ensures |r| <= |rs|
    ensures forall v :: v in r <==> exists i :: 0 <= i < |rs| && field(rs[i]) == Some(v)
  {
    if rs == [] then []
    else
      var rest := Column(rs[1..], field);
      assert forall i :: 1 <= i < |rs| ==> rs[i] == rs[1..][i - 1];
      match field(rs[0])
      case Some(v) => [v] + rest
      case None => rest
  }

  function Temperatures(rs: seq<WeatherResponse>): seq<real> {
    Column(rs, (r: WeatherResponse) => CurrentOf(r).temperature)
  }

  function Humidities(rs: seq<WeatherResponse>): seq<int> {
    Column(rs, (r: WeatherResponse) => CurrentOf(r).humidity)
  }

  function Pressures(rs: seq<WeatherResponse>): seq<int> {
    Column(rs, (r: WeatherResponse) => CurrentOf(r).pressure)
  }

  function WindSpeeds(rs: seq<WeatherResponse>): seq<real> {
    Column(rs, (r: WeatherResponse) => CurrentOf(r).windSpeed)
  }

  function Descriptions(rs: seq<WeatherResponse>): seq<string> {
    Column(rs, (r: WeatherResponse) => CurrentOf(r).description)
  }

  function Sources(rs: seq<WeatherResponse>): seq<Provider> {
    Column(rs, (r: WeatherResponse) => r.source)
  }

  /** Among `candidates`, one that occurs most often in `xs`; the earliest on a tie. */
  function MostFrequent(xs: seq<string>, candidates: seq<string>): (r: string)
    requires |candidates| > 0
    ensures r in candidates
    ensures forall c :: c in candidates ==> multiset(xs)[c] <= multiset(xs)[r]
  {
    if |candidates| == 1 then candidates[0]
    else
      var best := MostFrequent(xs, candidates[1..]);
      if multiset(xs)[candidates[0]] >= multiset(xs)[best] then candidates[0] else best
  }

  /** `getMostCommonDescription`: a description of maximal count, "Unknown" when there is none. */
  function MostCommon(xs: seq<string>): (r: string)
    ensures xs == [] ==> r == DataTransformer.UnknownDescription
    ensures xs != [] ==> r in xs && forall d :: multiset(xs)[d] <= multiset(xs)[r]
  {
    if xs == [] then DataTransformer.UnknownDescription else MostFrequent(xs, xs)
  }

  /** `createAggregatedResponse`; the flux it runs on is never empty. */
  function CreateAggregatedResponse(rs: seq<WeatherResponse>, now: Instant): (a: AggregatedWeatherResponse)
    requires |rs| > 0
    ensures a.location == rs[0].location && a.sourcesCount == |rs| && a.timestamp == now
    ensures a.temperature.Some? && a.humidity.Some? && a.pressure.Some? && a.windSpeed.Some?
    ensures a.description.Some? && a.recommendation.Some?
    ensures a.recommendation.value != CheckConditions
    ensures a.recommendation == Some(GenerateRecommendation(a))
  {
    var base := AggregatedWeatherResponse(
      rs[0].location,
      Some(Mean(Temperatures(rs))),
      Some(RoundedMean(Humidities(rs))),
      Some(RoundedMean(Pressures(rs))),
      Some(Mean(WindSpeeds(rs))),
      Some(MostCommon(Descriptions(rs))),
      Sources(rs),
      |rs|,
      now,
      None);
    base.(recommendation := Some(GenerateRecommendation(base)))
  }

  /** `getAggregatedWeather`, given every client's answer (merged in client order). */
  function GetAggregatedWeather(request: Option<WeatherRequest>, clients: seq<Option<Client>>, now: Instant)
    : (r: Result<AggregatedWeatherResponse, EH.Failure>)
    ensures request.None? ==> r == Failure(EH.InvalidArgument(NullRequestMessage))
    ensures request.Some? && RealProviders(clients) == [] ==> r == Failure(EH.ServiceUnavailable(NoProviders))
    ensures request.Some? && RealProviders(clients) != [] && Responses(RealProviders(clients)) == [] ==>
      r == Failure(EH.ServiceUnavailable(AllProvidersFailed))
    ensures r.Success? ==> r.value.sourcesCount == |Responses(RealProviders(clients))| >= 1
    ensures request.Some? && Responses(RealProviders(clients)) != [] ==>
      r == Success(CreateAggregatedResponse(Responses(RealProviders(clients)), now))
  {
    if request.None? then Failure(EH.InvalidArgument(NullRequestMessage))
    else
      var providers := RealProviders(clients);
      if providers == [] then Failure(EH.ServiceUnavailable(NoProviders))
      else
        var rs := Responses(providers);
        if rs == [] then Failure(EH.ServiceUnavailable(AllProvidersFailed))
        else Success(CreateAggregatedResponse(rs, now))
  }

  // ---------------------------------------------------------------- the filters keep order and multiplicity

  lemma {:induction false} RealProvidersAppend(a: seq<Option<Client>>, b: seq<Option<Client>>)
    ensures RealProviders(a + b) == RealProviders(a) + RealProviders(b)
  {
    if a == [] {
      assert a + b == b;
    } else {
      assert (a + b)[0] == a[0];
      assert (a + b)[1..] == a[1..] + b;
      RealProvidersAppend(a[1..], b);
    }
  }

  lemma RealProvidersOne(c: Option<Client>)
    ensures RealProviders([c]) == if c.Some? && c.value.isReal then [c.value] else []
  {
    assert [c][1..] == [];
  }

  lemma {:induction false} ResponsesAppend(a: seq<Client>, b: seq<Client>)
    ensures Responses(a + b) == Responses(a) + Responses(b)
  {
    if a == [] {
      assert a + b == b;
    } else {
      assert (a + b)[0] == a[0];
      assert (a + b)[1..] == a[1..] + b;
      ResponsesAppend(a[1..], b);
    }
  }

  lemma ResponsesOne(c: Client)
    ensures Responses([c]) == if c.answer.Responds? then [c.answer.response] else []
  {
    assert [c][1..] == [];
  }

  lemma {:induction false} ColumnAppend<T(!new)>(a: seq<WeatherResponse>, b: seq<WeatherResponse>,
                                                 field: WeatherResponse -> Option<T>)
    ensures Column(a + b, field) == Column(a, field) + Column(b, field)
  {
    if a == [] {
      assert a + b == b;
    } else {
      assert (a + b)[0] == a[0];
      assert (a + b)[1..] == a[1..] + b;
      ColumnAppend(a[1..], b, field);
    }
  }

  lemma ColumnOne<T(!new)>(x: WeatherResponse, field: WeatherResponse -> Option<T>)
    ensures Column([x], field) == if field(x).Some? then [field(x).value] else []
  {
    assert [x][1..] == [];
  }

  /** When no answer lacks the field, the column holds one value per answer, in answer order. */
  lemma {:induction false} ColumnAllPresent<T(!new)>(rs: seq<WeatherResponse>, field: WeatherResponse -> Option<T>)
    requires forall i :: 0 <= i < |rs| ==> field(rs[i]).Some?
    ensures |Column(rs, field)| == |rs|
    ensures forall i :: 0 <= i < |rs| ==> Some(Column(rs, field)[i]) == field(rs[i])
  {
    if rs != [] {
      assert forall i :: 1 <= i < |rs| ==> rs[i] == rs[1..][i - 1];
      ColumnAllPresent(rs[1..], field);
    }
  }

  // ---------------------------------------------------------------- properties of the aggregation

  lemma {:induction false} SumBounds(xs: seq<real>, lo: real, hi: real)
    requires forall i :: 0 <= i < |xs| ==> lo <= xs[i] <= hi
    ensures |xs| as real * lo <= Sum(xs) <= |xs| as real * hi
  {
    if xs != [] {
      SumBounds(xs[1..], lo, hi);
    }
  }

  /** The average of reals lies between their least and greatest. */
  lemma MeanWithinBounds(xs: seq<real>, lo: real, hi: real)
    requires xs != []
    requires forall i :: 0 <= i < |xs| ==> lo <= xs[i] <= hi
    ensures lo <= Mean(xs) <= hi
  {
    SumBounds(xs, lo, hi);
    var n := |xs| as real;
    assert Sum(xs) / n * n == Sum(xs);
  }

  /** The rounded average is the nearest integer to the exact average, halves rounded up. */
  lemma RoundedMeanNearest(xs: seq<int>)
    requires xs != []
    ensures var n := |xs|; var r := RoundedMean(xs);
      2 * n * r - n <= 2 * IntSum(xs) < 2 * n * r + n
  {
    var n := |xs|;
    var a := 2 * IntSum(xs) + n;
    var q := a / (2 * n);
    assert a == (2 * n) * q + a % (2 * n);
  }

  /** A description reported by more than half of the answers is the one chosen. */
  lemma MajorityDescriptionWins(xs: seq<string>, d: string)
    requires 2 * multiset(xs)[d] > |xs|
    ensures MostCommon(xs) == d
  {
    assert d in xs;
    var r := MostCommon(xs);
    if r != d {
      CountsShareLength(xs, d, r);
    }
  }

  lemma {:induction false} CountsShareLength(xs: seq<string>, d: string, e: string)
    requires d != e
    ensures multiset(xs)[d] + multiset(xs)[e] <= |xs|
  {
    if xs != [] {
      CountsShareLength(xs[1..], d, e);
      assert xs == [xs[0]] + xs[1..];
      assert multiset(xs) == multiset{xs[0]} + multiset(xs[1..]);
    }
  }

  lemma ColumnOfTwo<T(!new)>(rs: seq<WeatherResponse>, field: WeatherResponse -> Option<T>, a: T, b: T)
    requires |rs| == 2 && field(rs[0]) == Some(a) && field(rs[1]) == Some(b)
    ensures Column(rs, field) == [a, b]
  {
    assert rs[1..][1..] == [];
  }

  lemma MeanOfTwo(a: real, b: real)
    ensures Mean([a, b]) == (a + b) / 2.0
  {
    assert [a, b][1..] == [b];
    assert [b][1..] == [];
    assert Sum([b]) == b;
    assert Sum([a, b]) == a + b;
  }

  lemma RoundedMeanOfTwo(a: int, b: int)
    ensures RoundedMean([a, b]) == (2 * (a + b) + 2) / 4
  {
    assert [a, b][1..] == [b];
    assert [b][1..] == [];
    assert IntSum([b]) == b;
    assert IntSum([a, b]) == a + b;
  }

  /** The mean of a field lies between the least and greatest value the answers give it. */
  lemma ColumnMeanWithin(rs: seq<WeatherResponse>, field: WeatherResponse -> Option<real>, lo: real, hi: real)
    requires exists i :: 0 <= i < |rs| && field(rs[i]).Some?
    requires forall i :: 0 <= i < |rs| && field(rs[i]).Some? ==> lo <= field(rs[i]).value <= hi
    ensures lo <= Mean(Column(rs, field)) <= hi
  {
    var xs := Column(rs, field);
    var k :| 0 <= k < |rs| && field(rs[k]).Some?;
    assert field(rs[k]).value in xs;
    forall j | 0 <= j < |xs|
      ensures lo <= xs[j] <= hi
    {
      assert xs[j] in xs;
    }
    MeanWithinBounds(xs, lo, hi);
  }

  /** The aggregate temperature and wind speed lie within the range of the answers' readings. */
  lemma AggregateWithinReadings(rs: seq<WeatherResponse>, now: Instant, lo: real, hi: real, wlo: real, whi: real)
    requires exists i :: 0 <= i < |rs| && CurrentOf(rs[i]).temperature.Some?
    requires forall i :: 0 <= i < |rs| && CurrentOf(rs[i]).temperature.Some? ==>
      lo <= CurrentOf(rs[i]).temperature.value <= hi
    requires exists i :: 0 <= i < |rs| && CurrentOf(rs[i]).windSpeed.Some?
    requires forall i :: 0 <= i < |rs| && CurrentOf(rs[i]).windSpeed.Some? ==>
      wlo <= CurrentOf(rs[i]).windSpeed.value <= whi
    ensures var a := CreateAggregatedResponse(rs, now);
      lo <= a.temperature.value <= hi && wlo <= a.windSpeed.value <= whi
  {
    ColumnMeanWithin(rs, (r: WeatherResponse) => CurrentOf(r).temperature, lo, hi);
    ColumnMeanWithin(rs, (r: WeatherResponse) => CurrentOf(r).windSpeed, wlo, whi);
  }

  /**
   * Humidity and pressure of the aggregate are the nearest integers (halves up) to the exact
   * averages of the answers' non-null readings.
   */
  lemma AggregateRounding(rs: seq<WeatherResponse>, now: Instant)
    requires |rs| > 0
    ensures var a := CreateAggregatedResponse(rs, now);
      var hs, ps := Humidities(rs), Pressures(rs);
      && (hs != [] ==> 2 * |hs| * a.humidity.value - |hs| <= 2 * IntSum(hs) < 2 * |hs| * a.humidity.value + |hs|)
      && (ps != [] ==> 2 * |ps| * a.pressure.value - |ps| <= 2 * IntSum(ps) < 2 * |ps| * a.pressure.value + |ps|)
  {
    var hs, ps := Humidities(rs), Pressures(rs);
    if hs != [] {
      RoundedMeanNearest(hs);
    }
    if ps != [] {
      RoundedMeanNearest(ps);
    }
  }

  /** When every answer names its provider, the aggregate lists them one per answer, in order. */
  lemma AggregateProvidersInOrder(rs: seq<WeatherResponse>, now: Instant)
    requires |rs| > 0
    requires forall i :: 0 <= i < |rs| ==> rs[i].source.Some?
    ensures var a := CreateAggregatedResponse(rs, now);
      |a.providersUsed| == |rs| && forall i :: 0 <= i < |rs| ==> Some(a.providersUsed[i]) == rs[i].source
  {
    ColumnAllPresent(rs, (r: WeatherResponse) => r.source);
  }

  /** Temperature and wind speed are 0.0 when no answer reports them. */
  lemma AggregateRealDefaults(rs: seq<WeatherResponse>, now: Instant)
    requires |rs| > 0
    ensures var a := CreateAggregatedResponse(rs, now);
      && (Temperatures(rs) == [] ==> a.temperature == Some(0.0))
      && (WindSpeeds(rs) == [] ==> a.windSpeed == Some(0.0))
  {
  }

  /**
   * The aggregate temperature is the mean of the reported temperatures: with `Mean`'s contract,
   * their count times it is their sum.
   */
  lemma AggregatedTemperature(rs: seq<WeatherResponse>, now: Instant)
    requires |rs| > 0
    ensures CreateAggregatedResponse(rs, now).temperature == Some(Mean(Temperatures(rs)))
  {
  }

  /** The aggregate wind speed is the mean of the reported wind speeds. */
  lemma AggregatedWindSpeed(rs: seq<WeatherResponse>, now: Instant)
    requires |rs| > 0
    ensures CreateAggregatedResponse(rs, now).windSpeed == Some(Mean(WindSpeeds(rs)))
  {
  }

  /** The aggregate description is a reported one of maximal count, whenever any is reported. */
  lemma AggregatedDescription(rs: seq<WeatherResponse>, now: Instant)
    requires |rs| > 0
    ensures var d, xs := CreateAggregatedResponse(rs, now).description.value, Descriptions(rs);
      && (xs != [] ==> d in xs)
      && forall e :: multiset(xs)[e] <= multiset(xs)[d]
  {
    var xs := Descriptions(rs);
    assert CreateAggregatedResponse(rs, now).description == Some(MostCommon(xs));
  }

  /** Humidity and pressure are 0 when no answer reports them. */
  lemma AggregateIntegerDefaults(rs: seq<WeatherResponse>, now: Instant)
    requires |rs| > 0
    ensures var a := CreateAggregatedResponse(rs, now);
      && (Humidities(rs) == [] ==> a.humidity == Some(0))
      && (Pressures(rs) == [] ==> a.pressure == Some(0))
  {
  }

  /** The description is "Unknown" when no answer reports one. */
  lemma AggregateDescriptionDefault(rs: seq<WeatherResponse>, now: Instant)
    requires |rs| > 0
    ensures Descriptions(rs) == [] ==> CreateAggregatedResponse(rs, now).description == Some(DataTransformer.UnknownDescription)
  {
  }

  lemma TwoProviderColumns(rs: seq<WeatherResponse>)
    requires |rs| == 2
    requires rs[0].source == Some(OpenWeatherMap) && rs[1].source == Some(WeatherApi)
    requires rs[0].current.Some? && rs[1].current.Some?
    requires var c1 := rs[0].current.value; var c2 := rs[1].current.value;
      && c1.temperature == Some(15.0) && c1.humidity == Some(60) && c1.pressure == Some(1010) && c1.windSpeed == Some(3.0)
      && c2.temperature == Some(17.0) && c2.humidity == Some(70) && c2.pressure == Some(1015) && c2.windSpeed == Some(4.0)
    ensures Temperatures(rs) == [15.0, 17.0] && Humidities(rs) == [60, 70] && Pressures(rs) == [1010, 1015]
    ensures WindSpeeds(rs) == [3.0, 4.0] && Sources(rs) == [OpenWeatherMap, WeatherApi]
  {
    ColumnOfTwo(rs, (r: WeatherResponse) => CurrentOf(r).temperature, 15.0, 17.0);
    ColumnOfTwo(rs, (r: WeatherResponse) => CurrentOf(r).humidity, 60, 70);
    ColumnOfTwo(rs, (r: WeatherResponse) => CurrentOf(r).pressure, 1010, 1015);
    ColumnOfTwo(rs, (r: WeatherResponse) => CurrentOf(r).windSpeed, 3.0, 4.0);
    ColumnOfTwo(rs, (r: WeatherResponse) => r.source, OpenWeatherMap, WeatherApi);
  }

  /** The aggregate of two answers whose columns are the test's readings. */
  lemma AggregateOfReadings(rs: seq<WeatherResponse>, now: Instant)
    requires |rs| == 2
    requires Temperatures(rs) == [15.0, 17.0] && Humidities(rs) == [60, 70] && Pressures(rs) == [1010, 1015]
    requires WindSpeeds(rs) == [3.0, 4.0] && Sources(rs) == [OpenWeatherMap, WeatherApi]
    ensures var a := CreateAggregatedResponse(rs, now);
      && a.temperature == Some(16.0) && a.humidity == Some(65) && a.pressure == Some(1013)
      && a.windSpeed == Some(3.5) && a.sourcesCount == 2 && a.providersUsed == [OpenWeatherMap, WeatherApi]
      && a.recommendation == Some(CoolDay)
  {
    Readings();
  }

  lemma Readings()
    ensures Mean([15.0, 17.0]) == 16.0 && Mean([3.0, 4.0]) == 3.5
    ensures RoundedMean([60, 70]) == 65 && RoundedMean([1010, 1015]) == 1013
  {
    MeanOfTwo(15.0, 17.0);
    MeanOfTwo(3.0, 4.0);
    RoundedMeanOfTwo(60, 70);
    RoundedMeanOfTwo(1010, 1015);
  }

  /** Two providers answering 15/17 degrees, 60/70 %, 1010/1015 hPa and 3/4 m/s. */
  lemma TwoProviderAverages(rs: seq<WeatherResponse>, now: Instant)
    requires |rs| == 2
    requires rs[0].source == Some(OpenWeatherMap) && rs[1].source == Some(WeatherApi)
    requires rs[0].current.Some? && rs[1].current.Some?
    requires var c1 := rs[0].current.value; var c2 := rs[1].current.value;
      && c1.temperature == Some(15.0) && c1.humidity == Some(60) && c1.pressure == Some(1010) && c1.windSpeed == Some(3.0)
      && c2.temperature == Some(17.0) && c2.humidity == Some(70) && c2.pressure == Some(1015) && c2.windSpeed == Some(4.0)
    ensures var a := CreateAggregatedResponse(rs, now);
      && a.temperature == Some(16.0) && a.humidity == Some(65) && a.pressure == Some(1013)
      && a.windSpeed == Some(3.5) && a.sourcesCount == 2 && a.providersUsed == [OpenWeatherMap, WeatherApi]
      && a.recommendation == Some(CoolDay)
  {
    TwoProviderColumns(rs);
    AggregateOfReadings(rs, now);
  }

  /** Two real clients answering the test's readings, end to end through `getAggregatedWeather`. */
  lemma TwoProvidersAggregated(request: WeatherRequest, c1: Client, c2: Client, now: Instant)
    requires c1.isReal && c2.isReal && c1.answer.Responds? && c2.answer.Responds?
    requires var r1, r2 := c1.answer.response, c2.answer.response;
      && r1.source == Some(OpenWeatherMap) && r2.source == Some(WeatherApi)
      && r1.current.Some? && r2.current.Some?
      && var w1, w2 := r1.current.value, r2.current.value;
      && w1.temperature == Some(15.0) && w1.humidity == Some(60) && w1.pressure == Some(1010) && w1.windSpeed == Some(3.0)
      && w2.temperature == Some(17.0) && w2.humidity == Some(70) && w2.pressure == Some(1015) && w2.windSpeed == Some(4.0)
    ensures var r := GetAggregatedWeather(Some(request), [Some(c1), Some(c2)], now);
      && r.Success?
      && r.value.temperature == Some(16.0) && r.value.humidity == Some(65) && r.value.pressure == Some(1013)
      && r.value.windSpeed == Some(3.5) && r.value.sourcesCount == 2
  {
    var rs := [c1.answer.response, c2.answer.response];
    TwoClientsAnswers(c1, c2);
    TwoProviderAverages(rs, now);
  }

  /** Of two answering real clients, both answers are aggregated, in order. */
  lemma TwoClientsAnswers(c1: Client, c2: Client)
    requires c1.isReal && c2.isReal && c1.answer.Responds? && c2.answer.Responds?
    ensures Responses(RealProviders([Some(c1), Some(c2)])) == [c1.answer.response, c2.answer.response]
  {
    assert [Some(c1), Some(c2)] == [Some(c1)] + [Some(c2)];
    RealProvidersAppend([Some(c1)], [Some(c2)]);
    RealProvidersOne(Some(c1));
    RealProvidersOne(Some(c2));
    assert [c1, c2] == [c1] + [c2];
    ResponsesAppend([c1], [c2]);
    ResponsesOne(c1);
    ResponsesOne(c2);
  }

  /**
   * The test's two answers with a third real client added that fails or answers empty: the third
   * client is dropped and the aggregate has two sources.
   */
  lemma TwoOfThreeProvidersAggregated(request: WeatherRequest, c1: Client, c2: Client, c3: Client, now: Instant)
    requires c1.isReal && c2.isReal && c3.isReal && !c3.answer.Responds?
    requires c1.answer.Responds? && c2.answer.Responds?
    requires var r1, r2 := c1.answer.response, c2.answer.response;
      && r1.source == Some(OpenWeatherMap) && r2.source == Some(WeatherApi)
      && r1.current.Some? && r2.current.Some?
      && var w1, w2 := r1.current.value, r2.current.value;
      && w1.temperature == Some(15.0) && w1.humidity == Some(60) && w1.pressure == Some(1010) && w1.windSpeed == Some(3.0)
      && w2.temperature == Some(17.0) && w2.humidity == Some(70) && w2.pressure == Some(1015) && w2.windSpeed == Some(4.0)
    ensures var r := GetAggregatedWeather(Some(request), [Some(c1), Some(c2), Some(c3)], now);
      && r.Success?
      && r.value.temperature == Some(16.0) && r.value.humidity == Some(65) && r.value.pressure == Some(1013)
      && r.value.windSpeed == Some(3.5) && r.value.sourcesCount == 2
      && r.value.providersUsed == [OpenWeatherMap, WeatherApi] && r.value.recommendation == Some(CoolDay)
  {
    var rs := [c1.answer.response, c2.answer.response];
    ThreeClientsAnswers(c1, c2, c3);
    TwoProviderAverages(rs, now);
  }

  /** Of three real clients of which the last does not answer, the first two answers are aggregated. */
  lemma ThreeClientsAnswers(c1: Client, c2: Client, c3: Client)
    requires c1.isReal && c2.isReal && c3.isReal && !c3.answer.Responds?
    requires c1.answer.Responds? && c2.answer.Responds?
    ensures Responses(RealProviders([Some(c1), Some(c2), Some(c3)])) == [c1.answer.response, c2.answer.response]
  {
    ThreeRealProviders(c1, c2, c3);
    ThreeResponses(c1, c2, c3);
  }

  lemma ThreeRealProviders(c1: Client, c2: Client, c3: Client)
    requires c1.isReal && c2.isReal && c3.isReal
    ensures RealProviders([Some(c1), Some(c2), Some(c3)]) == [c1, c2, c3]
  {
    assert [Some(c1), Some(c2), Some(c3)] == [Some(c1)] + ([Some(c2)] + [Some(c3)]);
    RealProvidersAppend([Some(c2)], [Some(c3)]);
    RealProvidersAppend([Some(c1)], [Some(c2)] + [Some(c3)]);
    RealProvidersOne(Some(c1));
    RealProvidersOne(Some(c2));
    RealProvidersOne(Some(c3));
  }

  lemma ThreeResponses(c1: Client, c2: Client, c3: Client)
    requires !c3.answer.Responds? && c1.answer.Responds? && c2.answer.Responds?
    ensures Responses([c1, c2, c3]) == [c1.answer.response, c2.answer.response]
  {
    assert [c1, c2, c3] == [c1] + ([c2] + [c3]);
    ResponsesAppend([c2], [c3]);
    ResponsesAppend([c1], [c2] + [c3]);
    ResponsesOne(c1);
    ResponsesOne(c2);
    ResponsesOne(c3);
  }
}
