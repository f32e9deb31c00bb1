/** `AggregatedWeatherResponse` and its threshold ladder of advice texts. */
module AggregatedWeather {
  import opened Wrappers
  import opened Model

  datatype AggregatedWeatherResponse = AggregatedWeatherResponse(
    location: Option<LocationInfo>,
    temperature: Option<real>,
    humidity: Option<int>,
    pressure: Option<int>,
    windSpeed: Option<real>,
    description: Option<string>,
    providersUsed: seq<Provider>,
    sourcesCount: int,
    timestamp: Instant,
    recommendation: Option<string>)

  const CheckConditions := "Check weather conditions"
  const HotDay := "Hot day! Stay hydrated and avoid direct sun"
  const Pleasant := "Pleasant weather! Great for outdoor activities"
  const CoolDay := "Cool day! Wear a light jacket"
  const Cold := "Cold! Dress warmly"
  const VeryCold := "Very cold! Wear heavy winter clothes"

  /**
   * `generateRecommendation`: which advice a temperature gets. Each band is closed at its upper
   * end, so exactly 30, 20, 10 and 0 fall into the cooler band.
   */
  function GenerateRecommendation(a: AggregatedWeatherResponse): (r: string)
    ensures r == CheckConditions <==> a.temperature.None?
    ensures r == HotDay <==> a.temperature.Some? && a.temperature.value > 30.0
    ensures r == Pleasant <==> a.temperature.Some? && 20.0 < a.temperature.value <= 30.0
    ensures r == CoolDay <==> a.temperature.Some? && 10.0 < a.temperature.value <= 20.0
    ensures r == Cold <==> a.temperature.Some? && 0.0 < a.temperature.value <= 10.0
    ensures r == VeryCold <==> a.temperature.Some? && a.temperature.value <= 0.0
  {
    match a.temperature
    case None => CheckConditions
    case Some(t) =>
      if t > 30.0 then HotDay
      else if t > 20.0 then Pleasant
      else if t > 10.0 then CoolDay
      else if t > 0.0 then Cold
      else VeryCold
  }

  /** How warm the advice is: 0 for very cold up to 4 for hot. */
  function Warmth(text: string): nat {
    if text == HotDay then 4
    else if text == Pleasant then 3
    else if text == CoolDay then 2
    else if text == Cold then 1
    else 0
  }

  /** Every temperature, and its absence, gets exactly one of the six texts. */
  lemma RecommendationTotal(a: AggregatedWeatherResponse)
    ensures GenerateRecommendation(a) in {CheckConditions, HotDay, Pleasant, CoolDay, Cold, VeryCold}
  {
  }

  /** A warmer temperature never gets cooler advice. */
  lemma RecommendationMonotone(a: AggregatedWeatherResponse, b: AggregatedWeatherResponse)
    requires a.temperature.Some? && b.temperature.Some?
    requires a.temperature.value <= b.temperature.value
    ensures Warmth(GenerateRecommendation(a)) <= Warmth(GenerateRecommendation(b))
  {
  }
}
