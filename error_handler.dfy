/**
 * `WeatherErrorHandler.handleProviderError`: classifies a provider failure and either answers it
 * from the cache or turns it into the error the caller sees. The cache lookup it performs is
 * read-only and is passed in as its result.
 */
module ErrorHandler {
  import opened Wrappers
  import opened Model

  /**
   * The classes `handleProviderError` tells apart: WebClient's 429, 404 and 503 exceptions,
   * `TimeoutException`, and everything else (the service's own exceptions included).
   */
  datatype ErrorKind = TooManyRequests | NotFound | Timeout | UpstreamUnavailable | Unclassified

  /** A thrown error: its class and its (possibly null) message. */
  datatype ProviderError = ProviderError(kind: ErrorKind, message: Option<string>)

  /** The typed errors a caller of the service can see. */
  datatype Failure =
    | InvalidArgument(message: string)
    | ServiceUnavailable(message: string)
    | LocationNotFound(message: string)

  /** The recovery action for a failure kind. */
  datatype Action = ServeCachedOrUnavailable | PropagateNotFound

  function Classify(kind: ErrorKind): (a: Action)
    ensures a == PropagateNotFound <==> kind == NotFound
  {
    match kind
    case NotFound => PropagateNotFound
    case TooManyRequests => ServeCachedOrUnavailable
    case Timeout => ServeCachedOrUnavailable
    case UpstreamUnavailable => ServeCachedOrUnavailable
    case Unclassified => ServeCachedOrUnavailable
  }

  const NoCachedData := "No cached data available: "

  /**
   * The message of the error handed to the cached fallback: the three recognised infrastructure
   * failures substitute their own, anything else keeps its message ("null" when it has none).
   */
  function FallbackCauseMessage(error: ProviderError): string
    requires Classify(error.kind) == ServeCachedOrUnavailable
  {
    match error.kind
    case TooManyRequests => "Rate limit exceeded, using cached data"
    case UpstreamUnavailable => "Service unavailable, using cached data"
    case Timeout => "Timeout occurred, using cached data"
    case Unclassified => error.message.GetOr("null")
  }

  /** `getCachedWeatherFallback`, given what the cache lookup returned. */
  function CachedWeatherFallback(cached: Option<WeatherResponse>, cause: string): (r: Result<WeatherResponse, Failure>)
    ensures cached.Some? ==> r == Success(cached.value)
    ensures cached.None? ==> r == Failure(ServiceUnavailable(NoCachedData + cause))
  {
    match cached
    case Some(v) => Success(v)
    case None => Failure(ServiceUnavailable(NoCachedData + cause))
  }

  /** `handleProviderError`; `cached` is what `getCachedWeather(request)` would return. */
  function HandleProviderError(error: ProviderError, request: WeatherRequest, cached: Option<WeatherResponse>)
    : (r: Result<WeatherResponse, Failure>)
    ensures r.Success? ==> cached == Some(r.value)
    ensures r.Failure? ==> !r.error.InvalidArgument?
  {
    match Classify(error.kind)
    case PropagateNotFound => Failure(LocationNotFound("Location not found: " + CityText(request)))
    case ServeCachedOrUnavailable => CachedWeatherFallback(cached, FallbackCauseMessage(error))
  }

  // ---------------------------------------------------------------- properties

  /** A not-found error propagates as LocationNotFound whatever the cache holds. */
  lemma NotFoundBypassesCache(message: Option<string>, request: WeatherRequest, cached: Option<WeatherResponse>)
    ensures HandleProviderError(ProviderError(NotFound, message), request, cached)
         == Failure(LocationNotFound("Location not found: " + CityText(request)))
  {
  }

  /** Every other kind is answered from the cache when it holds an entry. */
  lemma InfrastructureServedFromCache(error: ProviderError, request: WeatherRequest, v: WeatherResponse)
    requires error.kind != NotFound
    ensures HandleProviderError(error, request, Some(v)) == Success(v)
  {
  }

  /** ... and becomes ServiceUnavailable, carrying the (possibly substituted) message, when it does not. */
  lemma InfrastructureWithoutCache(error: ProviderError, request: WeatherRequest)
    requires error.kind != NotFound
    ensures HandleProviderError(error, request, None)
         == Failure(ServiceUnavailable(NoCachedData + FallbackCauseMessage(error)))
  {
  }

  /** Every outcome is exactly one of: the cached value, LocationNotFound, ServiceUnavailable. */
  lemma OutcomeIsOneOfThree(error: ProviderError, request: WeatherRequest, cached: Option<WeatherResponse>)
    ensures var r := HandleProviderError(error, request, cached);
      (r.Success? && cached == Some(r.value)) ||
      (r.Failure? && r.error.LocationNotFound? && error.kind == NotFound) ||
      (r.Failure? && r.error.ServiceUnavailable? && error.kind != NotFound && cached.None?)
  {
  }

  /** A timeout does not try another provider: it differs from a generic error only in its message. */
  lemma TimeoutLikeGeneric(m: Option<string>, request: WeatherRequest, cached: Option<WeatherResponse>)
    ensures HandleProviderError(ProviderError(Timeout, m), request, cached)
         == HandleProviderError(ProviderError(Unclassified, Some("Timeout occurred, using cached data")), request, cached)
  {
  }
}
