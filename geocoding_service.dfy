/**
 * The geocoding service (src/services/geocodingService.ts): validates a city
 * search, answers it from the shared cache when it can, and otherwise turns
 * the Mapbox features of the response into cities.
 *
 * The request is not modelled: its outcome is a parameter (`Fetched`), and so
 * are the current time before it (`now`) and after it (`later`). The access
 * token, which the service reads from the environment once, is the parameter
 * `token`.
 */
module GeocodingService {
  import opened Wrappers
  import opened Types
  import opened Text
  import opened TtlCache
  import WeatherService

  const MAPBOX: string := "Mapbox"
  /** A query must keep at least this many characters once trimmed. */
  const MIN_QUERY_LENGTH: nat := 2
  const QUERY_TOO_SHORT: string := "Search query must be at least 2 characters"
  const TOKEN_NOT_SET: string := "MAPBOX_ACCESS_TOKEN environment variable is not set"
  const COUNTRY: string := "country"
  const REGION: string := "region"

  /** One entry of a feature's `context`: a containing area such as `country.456`. */
  datatype ContextEntry = ContextEntry(id: string, text: string)

  /** A Mapbox feature; `center` is the pair (longitude, latitude). */
  datatype MapboxFeature = MapboxFeature(
    id: string,
    placeName: string,
    center: (real, real),
    context: Option<seq<ContextEntry>>,
    placeType: seq<string>,
    text: string)

  datatype MapboxResponse = MapboxResponse(features: seq<MapboxFeature>)

  // ---------------------------------------------------------------- formatting a feature

  /** The position of the first entry whose id starts with `prefix`, or `|context|` when there is none. */
  function FirstMatch(context: seq<ContextEntry>, prefix: string): (i: nat)
    ensures i <= |context|
    ensures forall j :: 0 <= j < i ==> !StartsWith(context[j].id, prefix)
    ensures i < |context| ==> StartsWith(context[i].id, prefix)
  {
    if context == [] then 0
    else if StartsWith(context[0].id, prefix) then 0
    else 1 + FirstMatch(context[1..], prefix)
  }

  /**
   * `context.find(ctx => ctx.id.startsWith(prefix))`: nothing exactly when no
   * id starts with `prefix`, and otherwise the first entry whose id does.
   */
  function Find(context: seq<ContextEntry>, prefix: string): (r: Option<ContextEntry>)
    ensures r.None? <==> forall j :: 0 <= j < |context| ==> !StartsWith(context[j].id, prefix)
    ensures r.Some? ==> exists i :: && 0 <= i < |context| && context[i] == r.value
                                    && StartsWith(r.value.id, prefix)
                                    && forall j :: 0 <= j < i ==> !StartsWith(context[j].id, prefix)
  {
    var i := FirstMatch(context, prefix);
    if i < |context| then Some(context[i]) else None
  }

  /** `feature.context?.find(…)?.text`: the text of the first entry with the prefix, if any. */
  function ContextText(context: Option<seq<ContextEntry>>, prefix: string): Option<string>
  {
    if context.None? then None
    else
      var found := Find(context.value, prefix);
      if found.None? then None else Some(found.value.text)
  }

  /**
   * `formatCity`: the feature's id and text, the latitude and longitude taken
   * from the (longitude, latitude) center, the first country found (or the
   * empty string) and the first region found (or nothing).
   */
  function FormatCity(feature: MapboxFeature): (city: City)
    ensures city.id == feature.id && city.name == feature.text
    ensures city.latitude == feature.center.1 && city.longitude == feature.center.0
  {
    var country := ContextText(feature.context, COUNTRY);
    City(feature.id, feature.text, if country.Some? then country.value else "",
      feature.center.1, feature.center.0, ContextText(feature.context, REGION))
  }

  /** Some context entry has an id starting with `prefix`. */
  predicate HasEntry(feature: MapboxFeature, prefix: string)
  {
    feature.context.Some? && exists e :: e in feature.context.value && StartsWith(e.id, prefix)
  }

  /**
   * The city's region is present exactly when some context entry is a region,
   * and its country is empty when no entry is a country; whatever is found is
   * the text of the first matching entry.
   */
  lemma FormatCityAreas(feature: MapboxFeature)
    ensures var city := FormatCity(feature);
      && (city.region.Some? <==> HasEntry(feature, REGION))
      && (!HasEntry(feature, COUNTRY) ==> city.country == "")
      && (HasEntry(feature, COUNTRY) ==>
            city.country == feature.context.value[FirstMatch(feature.context.value, COUNTRY)].text)
      && (HasEntry(feature, REGION) ==>
            city.region == Some(feature.context.value[FirstMatch(feature.context.value, REGION)].text))
  {
    if feature.context.Some? {
      var ctx := feature.context.value;
      if HasEntry(feature, REGION) {
        var e :| e in ctx && StartsWith(e.id, REGION);
        var k :| 0 <= k < |ctx| && ctx[k] == e;
        assert FirstMatch(ctx, REGION) <= k;
      }
      if HasEntry(feature, COUNTRY) {
        var e :| e in ctx && StartsWith(e.id, COUNTRY);
        var k :| 0 <= k < |ctx| && ctx[k] == e;
        assert FirstMatch(ctx, COUNTRY) <= k;
      }
    }
  }

  /** `data.features.map(this.formatCity)`. */
  function FormatCities(features: seq<MapboxFeature>): (cities: seq<City>)
    ensures |cities| == |features|
  {
    seq(|features|, i requires 0 <= i < |features| => FormatCity(features[i]))
  }

  /** The cities keep the order of the features, one for each. */
  lemma FormatCitiesInOrder(features: seq<MapboxFeature>, i: nat)
    requires i < |features|
    ensures FormatCities(features)[i].id == features[i].id
    ensures FormatCities(features)[i].name == features[i].text
    ensures FormatCities([features[i]]) == [FormatCities(features)[i]]
  {
  }

  // ---------------------------------------------------------------- validation and the cache key

  /** `!query || query.trim().length < 2` does not hold. */
  predicate QueryAccepted(query: string)
  {
    !(query == "" || |Trim(query)| < MIN_QUERY_LENGTH)
  }

  /**
   * A query is accepted exactly when its trimmed text has two characters; so
   * it is at least two characters long, a blank query is refused, and a
   * query of two or more characters that neither starts nor ends with
   * whitespace is accepted.
   */
  lemma QueryValidation(query: string)
    ensures QueryAccepted(query) <==> |Trim(query)| >= MIN_QUERY_LENGTH
    ensures QueryAccepted(query) ==> |query| >= MIN_QUERY_LENGTH
    ensures (forall i :: 0 <= i < |query| ==> IsJsWhitespace(query[i])) ==> !QueryAccepted(query)
    ensures |query| >= MIN_QUERY_LENGTH && !IsJsWhitespace(query[0]) && !IsJsWhitespace(query[|query| - 1])
            ==> QueryAccepted(query)
  {
    TrimEmptyIffBlank(query);
    if |query| >= MIN_QUERY_LENGTH && !IsJsWhitespace(query[0]) && !IsJsWhitespace(query[|query| - 1]) {
      TrimUnpadded(query);
    }
  }

  /** The cache key `geocoding:<query in lower case>`; the query is not trimmed. */
  function GeocodingCacheKey(query: string): string
  {
    "geocoding:" + ToLower(query)
  }

  /**
   * Two queries share a cache entry exactly when they agree up to case;
   * in particular queries of different lengths (a padded and an unpadded
   * one) never do.
   */
  lemma {:induction false} GeocodingCacheKeyCaseInsensitive(q1: string, q2: string)
    ensures GeocodingCacheKey(q1) == GeocodingCacheKey(q2) <==> ToLower(q1) == ToLower(q2)
    ensures |q1| != |q2| ==> GeocodingCacheKey(q1) != GeocodingCacheKey(q2)
  {
    var prefix := "geocoding:";
    if GeocodingCacheKey(q1) == GeocodingCacheKey(q2) {
      assert ToLower(q1) == GeocodingCacheKey(q1)[|prefix|..];
      assert ToLower(q2) == GeocodingCacheKey(q2)[|prefix|..];
    }
  }

  /** A search never reads or overwrites a forecast: the two services' keys differ in their first letter. */
  lemma CacheKeysDisjoint(query: string, city: City, numberText: real -> string)
    ensures GeocodingCacheKey(query) != WeatherService.WeatherCacheKey(city, numberText)
  {
    assert GeocodingCacheKey(query)[0] == 'g';
    assert WeatherService.WeatherCacheKey(city, numberText)[0] == 'w';
  }

  // ---------------------------------------------------------------- the cached search

  /** The `try` block after a cache miss: the request's outcome becomes cities or an error. */
  function FetchCities(fetched: Fetched<MapboxResponse>): Result<seq<City>, ServiceError>
  {
    match fetched
    case NetworkFailure(message) => Failure(ExternalApi(MAPBOX, message))
    case HttpStatus(status) => Failure(ExternalApi(MAPBOX, "HTTP " + NatToDecimal(status)))
    case Body(data) => Success(FormatCities(data.features))
  }

  /**
   * `searchCities` on a cache map: the result and the map afterwards. The
   * query is validated first, then the token is checked, then the cache is
   * read with its default TTL; a cached list, even an empty one, is returned
   * as it is. Otherwise the request's outcome decides, and only a list of
   * cities is stored, stamped with `later`.
   */
  function SearchStep(store: TtlCache.Store<CachedValue>, defaultTTL: int, query: string, token: string,
                      now: int, later: int, fetched: Fetched<MapboxResponse>): (Result<seq<City>, ServiceError>, TtlCache.Store<CachedValue>)
  {
    if !QueryAccepted(query) then (Failure(ValidationError(QUERY_TOO_SHORT)), store)
    else if token == "" then (Failure(ConfigurationError(TOKEN_NOT_SET)), store)
    else
      var key := GeocodingCacheKey(query);
      var (cached, afterGet) := Lookup(store, key, MaxAge(None, defaultTTL), now);
      if cached.Some? && cached.value.CachedCities? then (Success(cached.value.cities), afterGet)
      else
        var r := FetchCities(fetched);
        (r, if r.Success? then Put(afterGet, key, CachedCities(r.value), later) else afterGet)
  }

  method SearchCities(cache: Cache<CachedValue>, query: string, token: string,
                      now: int, later: int, fetched: Fetched<MapboxResponse>)
    returns (r: Result<seq<City>, ServiceError>)
    modifies cache
    ensures (r, cache.store) == SearchStep(old(cache.store), cache.defaultTTL, query, token, now, later, fetched)
  {
    if query == "" || |Trim(query)| < MIN_QUERY_LENGTH {
      return Failure(ValidationError(QUERY_TOO_SHORT));
    }
    if token == "" {
      return Failure(ConfigurationError(TOKEN_NOT_SET));
    }
    var cacheKey := GeocodingCacheKey(query);
    var cached := cache.Get(cacheKey, None, now);
    if cached.Some? && cached.value.CachedCities? {
      return Success(cached.value.cities);
    }
    r := FetchCities(fetched);
    if r.Success? {
      cache.Set(cacheKey, CachedCities(r.value), later);
    }
  }

  // ---------------------------------------------------------------- properties of the cached search

  /**
   * The checks come in order and leave the cache alone: a refused query is a
   * validation error whatever the token, the cache or the request would give;
   * an accepted query without a token is a configuration error whatever the
   * cache holds.
   */
  lemma ChecksBeforeCache(store: TtlCache.Store<CachedValue>, defaultTTL: int, query: string, token: string,
                          now: int, later: int, fetched: Fetched<MapboxResponse>)
    ensures !QueryAccepted(query) ==>
      SearchStep(store, defaultTTL, query, token, now, later, fetched) == (Failure(ValidationError(QUERY_TOO_SHORT)), store)
    ensures QueryAccepted(query) && token == "" ==>
      SearchStep(store, defaultTTL, query, token, now, later, fetched) == (Failure(ConfigurationError(TOKEN_NOT_SET)), store)
    ensures SearchStep(store, defaultTTL, query, token, now, later, fetched).0.Success? ==> QueryAccepted(query) && token != ""
  {
  }

  /**
   * A list cached within the default TTL, an empty one included, is returned
   * without a request, and the cache is left as it was.
   */
  lemma CachedCitiesServed(store: TtlCache.Store<CachedValue>, defaultTTL: int, query: string, token: string,
                           now: int, later: int, fetched: Fetched<MapboxResponse>, cities: seq<City>)
    requires QueryAccepted(query) && token != ""
    requires GeocodingCacheKey(query) in store
    requires store[GeocodingCacheKey(query)].data == CachedCities(cities)
    requires now - store[GeocodingCacheKey(query)].timestamp <= defaultTTL
    ensures SearchStep(store, defaultTTL, query, token, now, later, fetched) == (Success(cities), store)
  {
  }

  /** A read of the key at `now` finds a cached list of cities. */
  predicate CitiesCached(store: TtlCache.Store<CachedValue>, defaultTTL: int, key: string, now: int)
  {
    var cached := Lookup(store, key, defaultTTL, now).0;
    cached.Some? && cached.value.CachedCities?
  }

  /**
   * On a miss, a successful search stores the cities it returns under the
   * query's key, stamped with `later`, and changes nothing else in the map the
   * read left behind.
   */
  lemma FetchedCitiesStored(store: TtlCache.Store<CachedValue>, defaultTTL: int, query: string, token: string,
                            now: int, later: int, fetched: Fetched<MapboxResponse>)
    requires !CitiesCached(store, defaultTTL, GeocodingCacheKey(query), now)
    requires SearchStep(store, defaultTTL, query, token, now, later, fetched).0.Success?
    ensures var (first, after) := SearchStep(store, defaultTTL, query, token, now, later, fetched);
      after == Put(Lookup(store, GeocodingCacheKey(query), defaultTTL, now).1, GeocodingCacheKey(query), CachedCities(first.value), later)
  {
    assert QueryAccepted(query) && token != "";
    assert MaxAge(None, defaultTTL) == defaultTTL;
    var r := FetchCities(fetched);
    assert SearchStep(store, defaultTTL, query, token, now, later, fetched).0 == r;
  }

  /**
   * After cities have been fetched, a search for the same query in any mix
   * of case, up to the default TTL after they were stored, returns those
   * cities whatever a new request would have answered, and leaves the cache
   * as it was.
   */
  lemma {:induction false} FetchedCitiesReused(store: TtlCache.Store<CachedValue>, defaultTTL: int, query: string, token: string,
                                              now: int, later: int, fetched: Fetched<MapboxResponse>,
                                              variant: string, again: int, laterAgain: int, refetched: Fetched<MapboxResponse>)
    requires !CitiesCached(store, defaultTTL, GeocodingCacheKey(query), now)
    requires SearchStep(store, defaultTTL, query, token, now, later, fetched).0.Success?
    requires ToLower(variant) == ToLower(query) && QueryAccepted(variant)
    requires again - later <= defaultTTL
    ensures var (first, after) := SearchStep(store, defaultTTL, query, token, now, later, fetched);
      SearchStep(after, defaultTTL, variant, token, again, laterAgain, refetched) == (first, after)
  {
    var key := GeocodingCacheKey(query);
    var (first, after) := SearchStep(store, defaultTTL, query, token, now, later, fetched);
    FetchedCitiesStored(store, defaultTTL, query, token, now, later, fetched);
    assert GeocodingCacheKey(variant) == key;
    CachedCitiesServed(after, defaultTTL, variant, token, again, laterAgain, refetched, first.value);
  }

  /** A failed request stores nothing: the cache is what the read left behind. */
  lemma SearchFailureNotCached(store: TtlCache.Store<CachedValue>, defaultTTL: int, query: string, token: string,
                               now: int, later: int, fetched: Fetched<MapboxResponse>)
    requires QueryAccepted(query) && token != ""
    ensures var (r, after) := SearchStep(store, defaultTTL, query, token, now, later, fetched);
      r.Failure? ==> after == Lookup(store, GeocodingCacheKey(query), defaultTTL, now).1
  {
  }

  /**
   * The request's outcome decides the result: a body yields one city per
   * feature, in the features' order; a bad status or a failed request is an
   * external API error from Mapbox whose message is never empty.
   */
  lemma FetchCitiesOutcomes(fetched: Fetched<MapboxResponse>)
    ensures var r := FetchCities(fetched);
      && (r.Success? <==> fetched.Body?)
      && (r.Success? ==> |r.value| == |fetched.data.features|
                         && forall i :: 0 <= i < |r.value| ==> r.value[i] == FormatCity(fetched.data.features[i]))
      && (!fetched.Body? ==> r.Failure? && r.error.ExternalApiError? && r.error.service == MAPBOX && r.error.message != "")
      && (fetched.HttpStatus? ==> StartsWith(r.error.message, "HTTP "))
      && (fetched.NetworkFailure? && fetched.message != "" ==> r.error.message == fetched.message)
  {
  }
}
