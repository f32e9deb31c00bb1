/**
 * `WeatherKeyGenerator.generateCacheKey`: the cache key of a weather request. Readable keys are
 * `weather:<provider|default>:<city>:<country>[:units][:language]` or
 * `weather:<provider|default>:<lat>:<lon>[:units][:language]`; a request with neither a full
 * city and country nor full coordinates gets `weather:hash:` and 16 digest characters.
 */
module KeyGenerator {
  import opened Wrappers
  import opened Model
  import Text

  /** Base64 of a SHA-256 digest: 32 bytes always encode to 44 characters. */
  type Base64Sha256 = s: string | |s| == 44 witness seq(44, _ => 'A')

  /**
   * The renderings the key derivation borrows from the Java library, kept uninterpreted:
   * `String.format("%.4f", x)`, `Double.toString(x)` and Base64(SHA-256(UTF-8 bytes)).
   */
  datatype Formats = Formats(
    coord: real -> string,
    doubleText: real -> string,
    sha256Base64: string -> Base64Sha256)

  const NullKey := "weather:null"
  const Prefix := "weather:"
  const HashPrefix := "weather:hash:"

  /** `provider.name().toLowerCase()`, written out; `LowerNameIsLowerCase` checks it. */
  function LowerName(p: Provider): string {
    match p
    case OpenWeatherMap => "openweather_map"
    case WeatherApi => "weather_api"
    case AccuWeather => "accuweather"
  }

  lemma LowerNameIsLowerCase(p: Provider)
    ensures Text.Lower(ProviderName(p)) == LowerName(p)
  {
  }

  /** The provider segment: the lower-cased enum name, or "default" when none is pinned. */
  function ProviderSegment(p: Option<Provider>): string {
    match p
    case Some(q) => LowerName(q)
    case None => "default"
  }

  /** ":" + units, then ":" + language, each only when present. */
  function Suffix(r: WeatherRequest): string {
    (if r.units.Some? then ":" + r.units.value else "") +
    (if r.language.Some? then ":" + r.language.value else "")
  }

  predicate HasCityAndCountry(r: WeatherRequest) {
    r.city.Some? && r.countryCode.Some?
  }

  predicate HasCoordinates(r: WeatherRequest) {
    r.latitude.Some? && r.longitude.Some?
  }

  /** A request that gets a readable key rather than a hash key. */
  predicate Readable(r: WeatherRequest) {
    HasCityAndCountry(r) || HasCoordinates(r)
  }

  /** The location part of a readable key: city and country win over coordinates. */
  function LocationSegment(f: Formats, r: WeatherRequest): string
    requires Readable(r)
  {
    if HasCityAndCountry(r) then Text.Lower(r.city.value) + ":" + Text.Lower(r.countryCode.value)
    else f.coord(r.latitude.value) + ":" + f.coord(r.longitude.value)
  }

  /** `Objects.toString(x, "")`. */
  function TextOr(s: Option<string>): string {
    s.GetOr("")
  }

  function NumberOr(f: Formats, x: Option<real>): string {
    if x.Some? then f.doubleText(x.value) else ""
  }

  /** The digest input: every field but the provider, concatenated without separators. */
  function HashInput(f: Formats, r: WeatherRequest): string {
    TextOr(r.city) + TextOr(r.countryCode) + NumberOr(f, r.latitude) + NumberOr(f, r.longitude) +
    TextOr(r.units) + TextOr(r.language)
  }

  /** `generateHashKey`. */
  function HashKey(f: Formats, r: WeatherRequest): (k: string)
    ensures |k| == |HashPrefix| + 16 && k[..|HashPrefix|] == HashPrefix
    ensures k[|HashPrefix|..] == f.sha256Base64(HashInput(f, r))[..16]
  {
    HashPrefix + f.sha256Base64(HashInput(f, r))[..16]
  }

  /** `generateCacheKey`. */
  function CacheKey(f: Formats, request: Option<WeatherRequest>): (key: string)
    ensures request.None? ==> key == NullKey
    ensures request.Some? ==> |key| > |Prefix| && key[..|Prefix|] == Prefix
  {
    match request
    case None => NullKey
    case Some(r) =>
      if Readable(r) then Prefix + ProviderSegment(r.provider) + ":" + LocationSegment(f, r) + Suffix(r)
      else HashKey(f, r)
  }

  // ---------------------------------------------------------------- properties

  /** A readable key starts with "weather:", the provider segment and ":". */
  lemma ReadableKeyShape(f: Formats, r: WeatherRequest)
    requires Readable(r)
    ensures var key := CacheKey(f, Some(r));
      var head := Prefix + ProviderSegment(r.provider) + ":";
      |head| <= |key| && key[..|head|] == head
  {
  }

  /** With city and country present, the key is built from them, lower-cased, whatever the coordinates. */
  lemma CityAndCountryWin(f: Formats, r: WeatherRequest, lat: Option<real>, lon: Option<real>)
    requires HasCityAndCountry(r)
    ensures CacheKey(f, Some(r)) == CacheKey(f, Some(r.(latitude := lat, longitude := lon)))
    ensures CacheKey(f, Some(r)) == Prefix + ProviderSegment(r.provider) + ":" +
      Text.Lower(r.city.value) + ":" + Text.Lower(r.countryCode.value) + Suffix(r)
  {
  }

  /** Otherwise, full coordinates give "%.4f:%.4f" of latitude and longitude. */
  lemma CoordinatesKey(f: Formats, r: WeatherRequest)
    requires !HasCityAndCountry(r) && HasCoordinates(r)
    ensures CacheKey(f, Some(r)) == Prefix + ProviderSegment(r.provider) + ":" +
      f.coord(r.latitude.value) + ":" + f.coord(r.longitude.value) + Suffix(r)
  {
  }

  /** A partial request gets a 29-character hash key that does not depend on the provider. */
  lemma HashKeyIgnoresProvider(f: Formats, r: WeatherRequest, p: Option<Provider>)
    requires !Readable(r)
    ensures CacheKey(f, Some(r)) == CacheKey(f, Some(r.(provider := p)))
    ensures |CacheKey(f, Some(r))| == |HashPrefix| + 16
    ensures CacheKey(f, Some(r))[..|HashPrefix|] == HashPrefix
  {
  }

  /** Requests equal but for the letter case of city and country share their key. */
  lemma CityCaseInsensitive(f: Formats, r: WeatherRequest, s: WeatherRequest)
    requires HasCityAndCountry(r) && HasCityAndCountry(s)
    requires Text.Lower(r.city.value) == Text.Lower(s.city.value)
    requires Text.Lower(r.countryCode.value) == Text.Lower(s.countryCode.value)
    requires r.units == s.units && r.language == s.language && r.provider == s.provider
    ensures CacheKey(f, Some(r)) == CacheKey(f, Some(s))
  {
  }

  /** The character right after "weather:" tells the three key families and the providers apart. */
  function SegmentMark(key: string): char
    requires |key| > |Prefix|
  {
    key[|Prefix|]
  }

  function MarkOf(p: Option<Provider>): char {
    match p
    case None => 'd'
    case Some(OpenWeatherMap) => 'o'
    case Some(WeatherApi) => 'w'
    case Some(AccuWeather) => 'a'
  }

  lemma SegmentStartsWithMark(p: Option<Provider>)
    ensures |ProviderSegment(p)| > 0 && ProviderSegment(p)[0] == MarkOf(p)
  {
  }

  lemma MarkAfterPrefix(seg: string, tail: string)
    requires |seg| > 0
    ensures |Prefix + seg + tail| > |Prefix| && (Prefix + seg + tail)[|Prefix|] == seg[0]
  {
  }

  lemma ReadableMark(f: Formats, r: WeatherRequest)
    requires Readable(r)
    ensures SegmentMark(CacheKey(f, Some(r))) == MarkOf(r.provider)
  {
    SegmentStartsWithMark(r.provider);
    var seg := ProviderSegment(r.provider);
    var tail := ":" + LocationSegment(f, r) + Suffix(r);
    assert CacheKey(f, Some(r)) == Prefix + seg + tail;
    MarkAfterPrefix(seg, tail);
  }

  lemma HashMark(f: Formats, r: WeatherRequest)
    requires !Readable(r)
    ensures SegmentMark(CacheKey(f, Some(r))) == 'h'
  {
    var digest := f.sha256Base64(HashInput(f, r))[..16];
    assert CacheKey(f, Some(r)) == HashPrefix + digest;
  }

  /**
   * No readable key is a hash key or the null key, and readable keys of different provider
   * segments differ, which keeps prefix eviction per provider sound.
   */
  lemma KeyFamiliesDisjoint(f: Formats, r: WeatherRequest, s: WeatherRequest)
    requires Readable(r)
    ensures CacheKey(f, Some(r)) != NullKey
    ensures !Readable(s) ==> CacheKey(f, Some(r)) != CacheKey(f, Some(s))
    ensures Readable(s) && r.provider != s.provider ==> CacheKey(f, Some(r)) != CacheKey(f, Some(s))
  {
    var k := CacheKey(f, Some(r));
    ReadableMark(f, r);
    assert SegmentMark(NullKey) == 'n';
    if !Readable(s) {
      HashMark(f, s);
    } else if r.provider != s.provider {
      ReadableMark(f, s);
    }
  }
}
