/**
 * `WeatherDataTransformer`: normalises a provider's snapshot to the canonical form (wind in m/s,
 * trimmed description, default icon and timestamp, provider-dependent expiry) and checks it.
 */
module DataTransformer {
  import opened Wrappers
  import opened Model
  import Text

  const FailedToNormalize := "Failed to normalize weather data"
  const UnknownDescription := "Unknown"
  const DefaultIcon := "01d"

  /** What made the normalisation throw; the caller only sees it as the wrapped cause. */
  datatype Cause = NullResponse | NullCurrent | NullSource

  /** `WeatherDataTransformationException`, always with the outer message and the inner cause. */
  datatype TransformError = TransformError(message: string, cause: Cause)

  /** `normalizeWindSpeed`: km/h to m/s for the two providers that report km/h. */
  function NormalizeWindSpeed(windSpeed: Option<real>, source: Provider): (r: Option<real>)
    ensures windSpeed.None? <==> r.None?
    ensures windSpeed.Some? ==>
      r == Some(if source == OpenWeatherMap then windSpeed.value else windSpeed.value / 3.6)
  {
    match windSpeed
    case None => None
    case Some(w) =>
      match source
      case WeatherApi => Some(w / 3.6)
      case AccuWeather => Some(w / 3.6)
      case OpenWeatherMap => Some(w)
  }

  /** `normalizeDescription`. */
  function NormalizeDescription(description: Option<string>): string {
    match description
    case None => UnknownDescription
    case Some(d) => Text.Trim(d)
  }

  /** `normalizeIcon`. */
  function NormalizeIcon(icon: Option<string>): string {
    icon.GetOr(DefaultIcon)
  }

  /** `ensureTimestamp`. */
  function EnsureTimestamp(timestamp: Option<Instant>, now: Instant): Instant {
    timestamp.GetOr(now)
  }

  /** Minutes of validity a provider's data gets: 10 for OpenWeatherMap, 30 for the others. */
  function ExpiryMinutes(source: Provider): int {
    match source
    case OpenWeatherMap => 10
    case WeatherApi => 30
    case AccuWeather => 30
  }

  /** `calculateCacheExpiry`. */
  function CalculateCacheExpiry(source: Provider, now: Instant): (r: Instant)
    ensures r == now + 60 * ExpiryMinutes(source)
    ensures source == OpenWeatherMap ==> r == now + 600
    ensures source != OpenWeatherMap ==> r == now + 1800
  {
    now + 60 * ExpiryMinutes(source)
  }

  /** `normalizeCurrentWeather` for a present current block. */
  function NormalizeCurrentWeather(c: CurrentWeather, source: Provider, now: Instant): (n: CurrentWeather)
    ensures n.temperature == c.temperature && n.feelsLike == c.feelsLike
    ensures n.humidity == c.humidity && n.pressure == c.pressure && n.windDirection == c.windDirection
    ensures n.description.Some? && n.icon.Some? && n.timestamp.Some?
    ensures n.windSpeed.Some? <==> c.windSpeed.Some?
  {
    CurrentWeather(
      c.temperature, c.feelsLike, c.humidity, c.pressure,
      NormalizeWindSpeed(c.windSpeed, source),
      c.windDirection,
      Some(NormalizeDescription(c.description)),
      Some(NormalizeIcon(c.icon)),
      Some(EnsureTimestamp(c.timestamp, now)))
  }

  /**
   * `normalizeWeatherData`. A null response, a null current block or a null provider raises
   * inside the `try`, and every such failure comes out wrapped with the same outer message.
   */
  function NormalizeWeatherData(response: Option<WeatherResponse>, source: Option<Provider>, now: Instant)
    : (r: Result<WeatherResponse, TransformError>)
    ensures r.Failure? <==> response.None? || response.value.current.None? || source.None?
    ensures r.Failure? ==> r.error.message == FailedToNormalize
    ensures r.Failure? && response.Some? && response.value.current.None? ==> r.error.cause == NullCurrent
    ensures r.Success? ==>
      r.value.location == response.value.location && r.value.forecast == response.value.forecast &&
      r.value.source == source && r.value.cachedUntil == Some(CalculateCacheExpiry(source.value, now))
  {
    if response.None? then Failure(TransformError(FailedToNormalize, NullResponse))
    else if response.value.current.None? then Failure(TransformError(FailedToNormalize, NullCurrent))
    else if source.None? then Failure(TransformError(FailedToNormalize, NullSource))
    else
      var resp := response.value;
      Success(WeatherResponse(
        resp.location,
        Some(NormalizeCurrentWeather(resp.current.value, source.value, now)),
        resp.forecast,
        source,
        Some(CalculateCacheExpiry(source.value, now))))
  }

  /** `isValidTransformedData`. */
  predicate IsValidTransformedData(response: Option<WeatherResponse>) {
    response.Some? && response.value.current.Some? &&
    response.value.current.value.temperature.Some? &&
    response.value.current.value.timestamp.Some? &&
    response.value.source.Some?
  }

  // ---------------------------------------------------------------- properties

  /**
   * Temperature, feels-like, humidity, pressure and wind direction pass through unchanged, null
   * included, and the wind speed is the converted one.
   */
  lemma MeasurementsPassThrough(response: WeatherResponse, source: Provider, now: Instant)
    requires response.current.Some?
    ensures var r := NormalizeWeatherData(Some(response), Some(source), now);
      var c, n := response.current.value, r.value.current.value;
      r.Success? && r.value.current.Some? &&
      n.temperature == c.temperature && n.feelsLike == c.feelsLike &&
      n.humidity == c.humidity && n.pressure == c.pressure && n.windDirection == c.windDirection &&
      n.windSpeed == NormalizeWindSpeed(c.windSpeed, source)
  {
  }

  /** Wind is in m/s afterwards: km/h figures are divided by 3.6, so 3.6 times the result is the input. */
  lemma WindConversion(windSpeed: real, source: Provider)
    ensures var r := NormalizeWindSpeed(Some(windSpeed), source).value;
      (source == OpenWeatherMap ==> r == windSpeed) &&
      (source != OpenWeatherMap ==> r * 3.6 == windSpeed)
  {
  }

  /** Description, icon and timestamp always come out present: trimmed or "Unknown", "01d", now. */
  lemma DefaultsFilled(response: WeatherResponse, source: Provider, now: Instant)
    requires response.current.Some?
    ensures var r := NormalizeWeatherData(Some(response), Some(source), now);
      var c, n := response.current.value, r.value.current.value;
      r.Success? && r.value.current.Some? &&
      n.description == Some(if c.description.None? then UnknownDescription else Text.Trim(c.description.value)) &&
      n.icon == Some(if c.icon.None? then DefaultIcon else c.icon.value) &&
      n.timestamp == Some(if c.timestamp.None? then now else c.timestamp.value)
  {
  }

  /** A normalised description has no blank at either end, and normalising it again keeps it. */
  lemma DescriptionStable(description: Option<string>)
    ensures NormalizeDescription(Some(NormalizeDescription(description))) == NormalizeDescription(description)
  {
    if description.Some? {
      Text.TrimIdempotent(description.value);
    }
  }

  /** After normalising, the snapshot is valid exactly when the provider gave a temperature. */
  lemma NormalizedValidIffTemperature(response: WeatherResponse, source: Provider, now: Instant)
    requires response.current.Some?
    ensures IsValidTransformedData(NormalizeWeatherData(Some(response), Some(source), now).ToOption())
        <==> response.current.value.temperature.Some?
  {
  }
}
