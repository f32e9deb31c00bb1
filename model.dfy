/**
 * The value types of the service: the three providers, a weather request, the canonical weather
 * snapshot with its parts, and `WeatherRequest.copyWithProvider`. A Java field that may be null
 * is an `Option`; a `LocalDateTime` is an `int` count of seconds; a `Double` is a `real`.
 */
module Model {
  import opened Wrappers

  type Instant = int

  /** The `WeatherProvider` enumeration. */
  datatype Provider = OpenWeatherMap | WeatherApi | AccuWeather

  /** `provider.name()`. */
  function ProviderName(p: Provider): string {
    match p
    case OpenWeatherMap => "OPENWEATHER_MAP"
    case WeatherApi => "WEATHER_API"
    case AccuWeather => "ACCUWEATHER"
  }

  datatype WeatherRequest = WeatherRequest(
    city: Option<string>,
    countryCode: Option<string>,
    latitude: Option<real>,
    longitude: Option<real>,
    units: Option<string>,
    language: Option<string>,
    provider: Option<Provider>)

  /** `request.getCity()` as string concatenation renders it: a null city reads "null". */
  function CityText(r: WeatherRequest): string {
    r.city.GetOr("null")
  }

  datatype LocationInfo = LocationInfo(
    name: string,
    country: string,
    lat: Option<real>,
    lon: Option<real>,
    timezone: Option<string>)

  datatype CurrentWeather = CurrentWeather(
    temperature: Option<real>,
    feelsLike: Option<real>,
    humidity: Option<int>,
    pressure: Option<int>,
    windSpeed: Option<real>,
    windDirection: Option<string>,
    description: Option<string>,
    icon: Option<string>,
    timestamp: Option<Instant>)

  datatype WeatherForecast = WeatherForecast(
    date: Option<Instant>,
    maxTemperature: Option<real>,
    minTemperature: Option<real>,
    avgTemperature: Option<real>,
    humidity: Option<int>,
    pressure: Option<int>,
    windSpeed: Option<real>,
    description: Option<string>,
    icon: Option<string>,
    precipitationProbability: Option<real>)

  datatype WeatherResponse = WeatherResponse(
    location: Option<LocationInfo>,
    current: Option<CurrentWeather>,
    forecast: Option<seq<WeatherForecast>>,
    source: Option<Provider>,
    cachedUntil: Option<Instant>)

  /**
   * `WeatherRequest.copyWithProvider`: a new request with every field of the original and the
   * given provider. Being a value, the original is untouched.
   */
  function CopyWithProvider(original: WeatherRequest, provider: Option<Provider>): (r: WeatherRequest)
    ensures r.provider == provider
    ensures r.city == original.city && r.countryCode == original.countryCode
    ensures r.latitude == original.latitude && r.longitude == original.longitude
    ensures r.units == original.units && r.language == original.language
  {
    WeatherRequest(original.city, original.countryCode, original.latitude, original.longitude,
                   original.units, original.language, provider)
  }

  /** Copying twice with the same provider is copying once (equality is field-wise). */
  lemma CopyWithProviderIdempotent(original: WeatherRequest, provider: Option<Provider>)
    ensures CopyWithProvider(CopyWithProvider(original, provider), provider)
         == CopyWithProvider(original, provider)
  {
  }

  /** Copying with the request's own provider gives back an equal request. */
  lemma CopyWithOwnProvider(original: WeatherRequest)
    ensures CopyWithProvider(original, original.provider) == original
  {
  }

  /** The last copy wins: only the provider of the latest copy is visible. */
  lemma CopyWithProviderOverrides(original: WeatherRequest, p: Option<Provider>, q: Option<Provider>)
    ensures CopyWithProvider(CopyWithProvider(original, p), q) == CopyWithProvider(original, q)
  {
  }
}
