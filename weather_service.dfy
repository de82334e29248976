/**
 * The weather service (src/services/weatherService.ts): turns an Open-Meteo
 * response into the forecast records, with a ten-minute cache in front of
 * the request.
 *
 * The request itself is not modelled: its outcome is a parameter (`Fetched`),
 * and so are the current time before the request (`now`) and after it
 * (`later`). How JavaScript renders a coordinate into the cache key is the
 * parameter `numberText`.
 */
module WeatherService {
  import opened Wrappers
  import opened Types
  import opened Text
  import opened TtlCache
  import ActivityService

  /** Forecasts are served from the cache for ten minutes. */
  const WEATHER_CACHE_TTL: int := 600000
  /** The hourly forecast keeps at most this many hours. */
  const FORECAST_HOURS: nat := 24
  const OPEN_METEO: string := "OpenMeteo"
  const NO_WEATHER_DATA: string := "Weather data not available for this location"

  /** `current_weather` of the response. */
  datatype CurrentWeather = CurrentWeather(temperature: real, windspeed: real, weathercode: int, time: string)

  /**
   * `hourly` of the response: parallel series indexed by hour. `time` may be
   * missing; the other series are read only within the window of `time`.
   */
  datatype HourlySeries = HourlySeries(
    time: Option<seq<string>>,
    temperature2m: seq<real>,
    precipitation: seq<real>,
    windspeed10m: seq<real>,
    relativeHumidity2m: seq<real>,
    weathercode: seq<int>)

  datatype OpenMeteoResponse = OpenMeteoResponse(currentWeather: Option<CurrentWeather>, hourly: Option<HourlySeries>)

  // ---------------------------------------------------------------- weather codes

  /** The WMO weather interpretation codes the service knows, with their descriptions. */
  function ConditionTable(code: int): Option<string>
  {
    match code
    case 0 => Some("Clear sky")
    case 1 => Some("Mainly clear")
    case 2 => Some("Partly cloudy")
    case 3 => Some("Overcast")
    case 45 => Some("Foggy")
    case 48 => Some("Depositing rime fog")
    case 51 => Some("Light drizzle")
    case 53 => Some("Moderate drizzle")
    case 55 => Some("Dense drizzle")
    case 61 => Some("Slight rain")
    case 63 => Some("Moderate rain")
    case 65 => Some("Heavy rain")
    case 71 => Some("Slight snow")
    case 73 => Some("Moderate snow")
    case 75 => Some("Heavy snow")
    case 77 => Some("Snow grains")
    case 80 => Some("Slight rain showers")
    case 81 => Some("Moderate rain showers")
    case 82 => Some("Violent rain showers")
    case 85 => Some("Slight snow showers")
    case 86 => Some("Heavy snow showers")
    case 95 => Some("Thunderstorm")
    case 96 => Some("Thunderstorm with slight hail")
    case 99 => Some("Thunderstorm with heavy hail")
    case _ => None
  }

  /** The codes listed in the table. */
  const KNOWN_CODES: set<int> := {0, 1, 2, 3, 45, 48, 51, 53, 55, 61, 63, 65, 71, 73, 75, 77, 80, 81, 82, 85, 86, 95, 96, 99}

  /** The codes whose description mentions snow. */
  const SNOW_CODES: set<int> := {71, 73, 75, 77, 85, 86}

  /** `getWeatherCondition`: the description of a known code, "Unknown" for any other. */
  function WeatherCondition(code: int): string
  {
    if ConditionTable(code).Some? && ConditionTable(code).value != "" then ConditionTable(code).value else "Unknown"
  }

  /** Exactly the 24 listed codes have a description of their own; every other code reads "Unknown". */
  lemma KnownCodes(code: int)
    ensures WeatherCondition(code) != ""
    ensures WeatherCondition(code) == "Unknown" <==> code !in KNOWN_CODES
  {
    match code
    case 0 => case 1 => case 2 => case 3 => case 45 => case 48 => case 51 => case 53 => case 55 =>
    case 61 => case 63 => case 65 => case 71 => case 73 => case 75 => case 77 => case 80 => case 81 =>
    case 82 => case 85 => case 86 => case 95 => case 96 => case 99 =>
    case _ =>
  }

  /** Four characters spelling "snow" in some case, at position `i`, make the text mention snow. */
  lemma SnowWordAt(t: string, i: int)
    requires 0 <= i && i + 4 <= |t|
    requires LowerChar(t[i]) == 's' && LowerChar(t[i + 1]) == 'n'
    requires LowerChar(t[i + 2]) == 'o' && LowerChar(t[i + 3]) == 'w'
    ensures ActivityService.MentionsSnow(t)
  {
    assert ToLower(t)[i..i + 4] == "snow";
    assert OccursAt(ToLower(t), "snow", i);
  }

  /** "Slight snow", "Moderate snow" and "Slight snow showers" contain "snow". */
  lemma SlightOrModerateSnowMentionsSnow(code: int)
    requires code == 71 || code == 73 || code == 85
    ensures ActivityService.MentionsSnow(WeatherCondition(code))
  {
    var t := WeatherCondition(code);
    if code == 73 {
      SnowWordAt(t, 9);
    } else {
      SnowWordAt(t, 7);
    }
  }

  /** "Heavy snow", "Heavy snow showers" and "Snow grains" contain "snow" (in some case). */
  lemma HeavySnowOrGrainsMentionsSnow(code: int)
    requires code == 75 || code == 77 || code == 86
    ensures ActivityService.MentionsSnow(WeatherCondition(code))
  {
    var t := WeatherCondition(code);
    if code == 77 {
      SnowWordAt(t, 0);
    } else {
      SnowWordAt(t, 6);
    }
  }

  // None of the other descriptions, "Unknown" included, has an "s" followed by
  // an "n", so none mentions snow; the descriptions are checked a few at a time.

  lemma NoSnowInClearOrCloudy(t: string)
    requires t == "Clear sky" || t == "Mainly clear" || t == "Partly cloudy" || t == "Overcast" || t == "Foggy"
    ensures !ActivityService.MentionsSnow(t)
  {
    PairNotIncluded(t, "snow", 0);
  }

  lemma NoSnowInFogOrDrizzle(t: string)
    requires t == "Depositing rime fog" || t == "Light drizzle" || t == "Moderate drizzle" || t == "Dense drizzle"
    ensures !ActivityService.MentionsSnow(t)
  {
    PairNotIncluded(t, "snow", 0);
  }

  lemma NoSnowInRain(t: string)
    requires t == "Slight rain" || t == "Moderate rain" || t == "Heavy rain" || t == "Slight rain showers"
    ensures !ActivityService.MentionsSnow(t)
  {
    PairNotIncluded(t, "snow", 0);
  }

  lemma NoSnowInShowers(t: string)
    requires t == "Moderate rain showers" || t == "Violent rain showers" || t == "Thunderstorm"
    ensures !ActivityService.MentionsSnow(t)
  {
    PairNotIncluded(t, "snow", 0);
  }

  lemma NoSnowInHailOrUnknown(t: string)
    requires t == "Thunderstorm with slight hail" || t == "Thunderstorm with heavy hail" || t == "Unknown"
    ensures !ActivityService.MentionsSnow(t)
  {
    PairNotIncluded(t, "snow", 0);
  }

  lemma OtherDescriptionsDoNotMentionSnow(code: int)
    requires code !in SNOW_CODES
    ensures !ActivityService.MentionsSnow(WeatherCondition(code))
  {
    match code
    case 0 => NoSnowInClearOrCloudy(WeatherCondition(code));
    case 1 => NoSnowInClearOrCloudy(WeatherCondition(code));
    case 2 => NoSnowInClearOrCloudy(WeatherCondition(code));
    case 3 => NoSnowInClearOrCloudy(WeatherCondition(code));
    case 45 => NoSnowInClearOrCloudy(WeatherCondition(code));
    case 48 => NoSnowInFogOrDrizzle(WeatherCondition(code));
    case 51 => NoSnowInFogOrDrizzle(WeatherCondition(code));
    case 53 => NoSnowInFogOrDrizzle(WeatherCondition(code));
    case 55 => NoSnowInFogOrDrizzle(WeatherCondition(code));
    case 61 => NoSnowInRain(WeatherCondition(code));
    case 63 => NoSnowInRain(WeatherCondition(code));
    case 65 => NoSnowInRain(WeatherCondition(code));
    case 80 => NoSnowInRain(WeatherCondition(code));
    case 81 => NoSnowInShowers(WeatherCondition(code));
    case 82 => NoSnowInShowers(WeatherCondition(code));
    case 95 => NoSnowInShowers(WeatherCondition(code));
    case 96 => NoSnowInHailOrUnknown(WeatherCondition(code));
    case 99 => NoSnowInHailOrUnknown(WeatherCondition(code));
    case _ => NoSnowInHailOrUnknown(WeatherCondition(code));
  }

  /** A description mentions snow exactly for the six snow codes. */
  lemma {:induction false} SnowCodesExactly(code: int)
    ensures ActivityService.MentionsSnow(WeatherCondition(code)) <==> code in SNOW_CODES
  {
    if code == 71 || code == 73 || code == 85 {
      SlightOrModerateSnowMentionsSnow(code);
    } else if code == 75 || code == 77 || code == 86 {
      HeavySnowOrGrainsMentionsSnow(code);
    } else {
      OtherDescriptionsDoNotMentionSnow(code);
    }
  }

  // ---------------------------------------------------------------- formatting

  /** `formatCurrentWeather`: the current reading carries no precipitation and no humidity. */
  function FormatCurrentWeather(current: CurrentWeather): Weather
  {
    Weather(current.temperature, WeatherCondition(current.weathercode), 0.0, current.windspeed, None, current.time)
  }

  /**
   * The current reading keeps the temperature, wind speed and time of
   * `current_weather` and describes its weather code; it has no
   * precipitation and no humidity.
   */
  lemma CurrentWeatherFields(current: CurrentWeather)
    ensures var w := FormatCurrentWeather(current);
      && w.temperature == current.temperature
      && w.windSpeed == current.windspeed
      && w.timestamp == current.time
      && w.conditions == WeatherCondition(current.weathercode)
      && (w.conditions == "Unknown" <==> current.weathercode !in KNOWN_CODES)
      && w.precipitation == 0.0
      && w.humidity == None
  {
    KnownCodes(current.weathercode);
  }

  /**
   * Scoring the current weather: skiing's snow band fires exactly for the
   * snow codes, and the precipitation band never does, since current
   * readings carry no precipitation; indoor sightseeing never gets its
   * rain points, so it scores at most 9.
   */
  lemma {:induction false} CurrentWeatherSnowBand(current: CurrentWeather)
    ensures ActivityService.SkiSnow(FormatCurrentWeather(current)).points ==
      if current.weathercode in SNOW_CODES then 9 else 2
    ensures ActivityService.IndoorScore(FormatCurrentWeather(current)).score <= 9
  {
    SnowCodesExactly(current.weathercode);
    ActivityService.IndoorScoreFormula(FormatCurrentWeather(current));
  }

  function Window(n: nat): nat
  {
    if n < FORECAST_HOURS then n else FORECAST_HOURS
  }

  /** `data.hourly || {}`: a missing `hourly` reads as an object without series. */
  function HourlyOrEmpty(hourly: Option<HourlySeries>): HourlySeries
  {
    if hourly.Some? then hourly.value else HourlySeries(None, [], [], [], [], [])
  }

  /** Every series has a value for every hour of the window that is read. */
  predicate CoversWindow(h: HourlySeries)
  {
    h.time.Some? ==>
      var n := Window(|h.time.value|);
      && n <= |h.temperature2m| && n <= |h.precipitation| && n <= |h.windspeed10m|
      && n <= |h.relativeHumidity2m| && n <= |h.weathercode|
  }

  /** The weather of hour `i` of the series. */
  function HourlyEntry(h: HourlySeries, i: nat): Weather
    requires CoversWindow(h) && h.time.Some? && i < Window(|h.time.value|)
  {
    Weather(h.temperature2m[i], WeatherCondition(h.weathercode[i]), h.precipitation[i],
      h.windspeed10m[i], Some(h.relativeHumidity2m[i]), h.time.value[i])
  }

  /** `formatHourlyForecast`: the first 24 hours of the series, one record per hour. */
  function FormatHourlyForecast(h: HourlySeries): seq<Weather>
    requires CoversWindow(h)
  {
    if h.time.None? || |h.time.value| == 0 then []
    else seq(Window(|h.time.value|), i requires 0 <= i < Window(|h.time.value|) => HourlyEntry(h, i))
  }

  /**
   * The hourly forecast has one record for each of the first (at most) 24
   * times, in order; it is empty when there are no times. Record `i` takes
   * hour `i` of every series: its time, temperature, precipitation, wind
   * speed, humidity and the description of its weather code.
   */
  lemma HourlyForecastWindow(h: HourlySeries)
    requires CoversWindow(h)
    ensures var r := FormatHourlyForecast(h);
      && |r| <= FORECAST_HOURS
      && (r == [] <==> h.time.None? || h.time.value == [])
      && (h.time.Some? ==> |r| == Window(|h.time.value|))
      && (forall i :: 0 <= i < |r| ==>
            && r[i].timestamp == h.time.value[i]
            && r[i].temperature == h.temperature2m[i]
            && r[i].precipitation == h.precipitation[i]
            && r[i].windSpeed == h.windspeed10m[i]
            && r[i].humidity == Some(h.relativeHumidity2m[i])
            && r[i].conditions == WeatherCondition(h.weathercode[i]))
      && (forall i :: 0 <= i < |r| ==> r[i].conditions != "")
  {
  }

  // ---------------------------------------------------------------- the cached request

  /** The cache key `weather:<latitude>:<longitude>`. */
  function WeatherCacheKey(city: City, numberText: real -> string): string
  {
    "weather:" + numberText(city.latitude) + ":" + numberText(city.longitude)
  }

  /** In `a + ":" + b`, with no colon in `a`, the first colon follows `a`. */
  lemma FirstColon(a: string, b: string)
    requires ':' !in a
    ensures (a + ":" + b)[|a|] == ':'
    ensures forall i :: 0 <= i < |a| ==> (a + ":" + b)[i] != ':'
  {
    forall i | 0 <= i < |a| ensures (a + ":" + b)[i] != ':' {
      assert (a + ":" + b)[i] == a[i];
    }
  }

  /** Splitting at the first colon undoes `a + ":" + b` when `a` has no colon. */
  lemma {:induction false} ColonJoinInjective(a1: string, b1: string, a2: string, b2: string)
    requires ':' !in a1 && ':' !in a2
    requires a1 + ":" + b1 == a2 + ":" + b2
    ensures a1 == a2 && b1 == b2
  {
    var s := a1 + ":" + b1;
    FirstColon(a1, b1);
    FirstColon(a2, b2);
    assert |a1| == |a2|;
    assert a1 == s[..|a1|] == a2;
    assert b1 == s[|a1| + 1..] == b2;
  }

  /**
   * Two cities share a cache entry only when their coordinates render to the
   * same text (the renderings of numbers contain no colon).
   */
  lemma {:induction false} WeatherCacheKeyInjective(c1: City, c2: City, numberText: real -> string)
    requires ':' !in numberText(c1.latitude) && ':' !in numberText(c2.latitude)
    requires WeatherCacheKey(c1, numberText) == WeatherCacheKey(c2, numberText)
    ensures numberText(c1.latitude) == numberText(c2.latitude)
    ensures numberText(c1.longitude) == numberText(c2.longitude)
  {
    var prefix := "weather:";
    var k1, k2 := WeatherCacheKey(c1, numberText), WeatherCacheKey(c2, numberText);
    assert k1 == prefix + (numberText(c1.latitude) + ":" + numberText(c1.longitude));
    assert k2 == prefix + (numberText(c2.latitude) + ":" + numberText(c2.longitude));
    assert k1[|prefix|..] == numberText(c1.latitude) + ":" + numberText(c1.longitude);
    assert k2[|prefix|..] == numberText(c2.latitude) + ":" + numberText(c2.longitude);
    ColonJoinInjective(numberText(c1.latitude), numberText(c1.longitude), numberText(c2.latitude), numberText(c2.longitude));
  }

  /** A body whose `hourly` series cover the hours they are read at. */
  predicate BodyCoversWindow(fetched: Fetched<OpenMeteoResponse>)
  {
    fetched.Body? ==> CoversWindow(HourlyOrEmpty(fetched.data.hourly))
  }

  /** The `try` block after a cache miss: the request's outcome becomes a forecast or an error. */
  function FetchForecast(city: City, fetched: Fetched<OpenMeteoResponse>): Result<WeatherForecast, ServiceError>
    requires BodyCoversWindow(fetched)
  {
    match fetched
    case NetworkFailure(message) => Failure(ExternalApi(OPEN_METEO, message))
    case HttpStatus(status) => Failure(ExternalApi(OPEN_METEO, "HTTP " + NatToDecimal(status)))
    case Body(data) =>
      if data.currentWeather.None? then Failure(NotFoundError(NO_WEATHER_DATA))
      else Success(WeatherForecast(city, FormatCurrentWeather(data.currentWeather.value),
        FormatHourlyForecast(HourlyOrEmpty(data.hourly))))
  }

  /**
   * `getWeatherForecast` on a cache map: the result and the map afterwards.
   * A cached forecast is returned as it is; otherwise the request's outcome
   * decides, and only a forecast is stored, stamped with `later`.
   */
  function ForecastStep(store: TtlCache.Store<CachedValue>, defaultTTL: int, city: City, numberText: real -> string,
                        now: int, later: int, fetched: Fetched<OpenMeteoResponse>): (Result<WeatherForecast, ServiceError>, TtlCache.Store<CachedValue>)
    requires BodyCoversWindow(fetched)
  {
    var key := WeatherCacheKey(city, numberText);
    var (cached, afterGet) := Lookup(store, key, MaxAge(Some(WEATHER_CACHE_TTL), defaultTTL), now);
    if cached.Some? && cached.value.CachedForecast? then (Success(cached.value.forecast), afterGet)
    else
      var r := FetchForecast(city, fetched);
      (r, if r.Success? then Put(afterGet, key, CachedForecast(r.value), later) else afterGet)
  }

  method GetWeatherForecast(cache: Cache<CachedValue>, city: City, numberText: real -> string,
                            now: int, later: int, fetched: Fetched<OpenMeteoResponse>)
    returns (r: Result<WeatherForecast, ServiceError>)
    requires BodyCoversWindow(fetched)
    modifies cache
    ensures (r, cache.store) == ForecastStep(old(cache.store), cache.defaultTTL, city, numberText, now, later, fetched)
  {
    var cacheKey := WeatherCacheKey(city, numberText);
    var cached := cache.Get(cacheKey, Some(WEATHER_CACHE_TTL), now);
    if cached.Some? && cached.value.CachedForecast? {
      return Success(cached.value.forecast);
    }
    match fetched {
      case NetworkFailure(message) =>
        r := Failure(ExternalApi(OPEN_METEO, message));
      case HttpStatus(status) =>
        r := Failure(ExternalApi(OPEN_METEO, "HTTP " + NatToDecimal(status)));
      case Body(data) =>
        if data.currentWeather.None? {
          r := Failure(NotFoundError(NO_WEATHER_DATA));
        } else {
          var forecast := WeatherForecast(city, FormatCurrentWeather(data.currentWeather.value),
            FormatHourlyForecast(HourlyOrEmpty(data.hourly)));
          cache.Set(cacheKey, CachedForecast(forecast), later);
          r := Success(forecast);
        }
    }
  }

  // ---------------------------------------------------------------- properties of the cached request

  /** A forecast cached at most ten minutes ago is returned without a request, and the cache is left as it was. */
  lemma FreshForecastServedFromCache(store: TtlCache.Store<CachedValue>, defaultTTL: int, city: City, numberText: real -> string,
                                     now: int, later: int, fetched: Fetched<OpenMeteoResponse>, cached: WeatherForecast)
    requires BodyCoversWindow(fetched)
    requires WeatherCacheKey(city, numberText) in store
    requires store[WeatherCacheKey(city, numberText)].data == CachedForecast(cached)
    requires now - store[WeatherCacheKey(city, numberText)].timestamp <= WEATHER_CACHE_TTL
    ensures ForecastStep(store, defaultTTL, city, numberText, now, later, fetched) == (Success(cached), store)
  {
  }

  /**
   * The cache's periodic cleanup sweeps with its five-minute default, so a
   * forecast stored between five and ten minutes ago, which a read would
   * still serve, is gone after a cleanup and the request is made again.
   */
  lemma CleanupShortensForecastLife(store: TtlCache.Store<CachedValue>, city: City, numberText: real -> string,
                                    now: int, later: int, fetched: Fetched<OpenMeteoResponse>, cached: WeatherForecast)
    requires BodyCoversWindow(fetched)
    requires WeatherCacheKey(city, numberText) in store
    requires store[WeatherCacheKey(city, numberText)].data == CachedForecast(cached)
    requires DEFAULT_TTL < now - store[WeatherCacheKey(city, numberText)].timestamp <= WEATHER_CACHE_TTL
    ensures ForecastStep(store, DEFAULT_TTL, city, numberText, now, later, fetched).0 == Success(cached)
    ensures ForecastStep(Sweep(store, DEFAULT_TTL, now), DEFAULT_TTL, city, numberText, now, later, fetched).0 ==
      FetchForecast(city, fetched)
  {
    SweepShorterTtlEvicts(store, WeatherCacheKey(city, numberText), DEFAULT_TTL, WEATHER_CACHE_TTL, now);
  }

  /** A read of the key at `now` finds a cached forecast. */
  predicate ServedFromCache(store: TtlCache.Store<CachedValue>, key: string, now: int)
  {
    var cached := Lookup(store, key, WEATHER_CACHE_TTL, now).0;
    cached.Some? && cached.value.CachedForecast?
  }

  /**
   * After a forecast has been fetched, the same request up to ten minutes
   * after it was stored returns that forecast, whatever a new request would
   * have answered, and leaves the cache as it was.
   */
  lemma {:induction false} FetchedForecastReused(store: TtlCache.Store<CachedValue>, defaultTTL: int, city: City, numberText: real -> string,
                                                now: int, later: int, fetched: Fetched<OpenMeteoResponse>,
                                                again: int, laterAgain: int, refetched: Fetched<OpenMeteoResponse>)
    requires BodyCoversWindow(fetched) && BodyCoversWindow(refetched)
    requires !ServedFromCache(store, WeatherCacheKey(city, numberText), now)
    requires ForecastStep(store, defaultTTL, city, numberText, now, later, fetched).0.Success?
    requires again - later <= WEATHER_CACHE_TTL
    ensures var (first, after) := ForecastStep(store, defaultTTL, city, numberText, now, later, fetched);
      ForecastStep(after, defaultTTL, city, numberText, again, laterAgain, refetched) == (first, after)
  {
    var key := WeatherCacheKey(city, numberText);
    var (first, after) := ForecastStep(store, defaultTTL, city, numberText, now, later, fetched);
    var afterGet := Lookup(store, key, WEATHER_CACHE_TTL, now).1;
    assert after == Put(afterGet, key, CachedForecast(first.value), later);
    PutThenLookup(afterGet, key, CachedForecast(first.value), later, WEATHER_CACHE_TTL, again);
  }

  /** A failed request stores nothing: the cache is what the read left behind. */
  lemma FailureNotCached(store: TtlCache.Store<CachedValue>, defaultTTL: int, city: City, numberText: real -> string,
                         now: int, later: int, fetched: Fetched<OpenMeteoResponse>)
    requires BodyCoversWindow(fetched)
    ensures var (r, after) := ForecastStep(store, defaultTTL, city, numberText, now, later, fetched);
      r.Failure? ==> after == Lookup(store, WeatherCacheKey(city, numberText), WEATHER_CACHE_TTL, now).1
  {
  }

  /**
   * The request's outcome decides the result: a body with current weather
   * yields a forecast for the requested city with at most 24 hourly records;
   * a body without it is "not found"; a bad status or a failed request is an
   * external API error whose message is never empty.
   */
  lemma FetchOutcomes(city: City, fetched: Fetched<OpenMeteoResponse>)
    requires BodyCoversWindow(fetched)
    ensures var r := FetchForecast(city, fetched);
      && (r.Success? <==> fetched.Body? && fetched.data.currentWeather.Some?)
      && (r.Success? ==> r.value.city == city && |r.value.forecast| <= FORECAST_HOURS && r.value.current.precipitation == 0.0)
      && (fetched.Body? && fetched.data.currentWeather.None? ==> r == Failure(NotFoundError(NO_WEATHER_DATA)))
      && (!fetched.Body? ==> r.Failure? && r.error.ExternalApiError? && r.error.service == OPEN_METEO && r.error.message != "")
      && (fetched.HttpStatus? ==> StartsWith(r.error.message, "HTTP "))
  {
    if fetched.Body? {
      HourlyForecastWindow(HourlyOrEmpty(fetched.data.hourly));
    }
  }
}
