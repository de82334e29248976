/**
 * The scenarios of the geocoding unit tests
 * (src/__tests__/unit/geocodingService.test.ts), stated on the model. Each
 * search starts from an empty cache with a token set.
 */
module GeocodingExamples {
  import opened Wrappers
  import opened Types
  import opened Text
  import opened TtlCache
  import opened GeocodingService

  /** A feature with a country and a region is formatted with both, and its center is read as (longitude, latitude). */
  lemma LondonFormatted(feature: MapboxFeature)
    requires feature == MapboxFeature("place.123", "London, United Kingdom", (-0.1278, 51.5074),
      Some([ContextEntry("country.456", "United Kingdom"), ContextEntry("region.789", "Greater London")]),
      ["place"], "London")
    ensures FormatCity(feature) == City("place.123", "London", "United Kingdom", 51.5074, -0.1278, Some("Greater London"))
  {
    assert StartsWith("country.456", COUNTRY);
    FirstCharDiffers("country.456", REGION);
    assert StartsWith("region.789", REGION);
  }

  /** A feature without a region entry gives a city without a region. */
  lemma ParisFormatted(feature: MapboxFeature)
    requires feature == MapboxFeature("place.123", "Paris, France", (2.3522, 48.8566),
      Some([ContextEntry("country.456", "France")]), ["place"], "Paris")
    ensures FormatCity(feature).region == None
    ensures FormatCity(feature).country == "France"
  {
    assert StartsWith("country.456", COUNTRY);
    FirstCharDiffers("country.456", REGION);
  }

  /** A query that is neither blank at its ends nor shorter than two characters passes validation. */
  lemma Accepted(query: string)
    requires |query| >= MIN_QUERY_LENGTH && !IsJsWhitespace(query[0]) && !IsJsWhitespace(query[|query| - 1])
    ensures QueryAccepted(query)
  {
    QueryValidation(query);
  }

  /** The Cape Town feature of the search scenario, formatted. */
  lemma CapeTownFormatted(feature: MapboxFeature)
    requires feature == MapboxFeature("place.123", "Cape Town, South Africa", (18.4241, -33.9249),
      Some([ContextEntry("country.456", "South Africa"), ContextEntry("region.789", "Western Cape")]),
      ["place"], "Cape Town")
    ensures FormatCity(feature) == City("place.123", "Cape Town", "South Africa", -33.9249, 18.4241, Some("Western Cape"))
  {
    assert StartsWith("country.456", COUNTRY);
    FirstCharDiffers("country.456", REGION);
    assert StartsWith("region.789", REGION);
  }

  /** A search for "Cape Town" answered with one feature returns that one city, formatted. */
  lemma CapeTownFound(store: TtlCache.Store<CachedValue>, defaultTTL: int, query: string, token: string,
                      now: int, later: int, feature: MapboxFeature)
    requires store == map[] && token != ""
    requires query == "Cape Town"
    ensures SearchStep(store, defaultTTL, query, token, now, later, Body(MapboxResponse([feature]))).0 ==
      Success([FormatCity(feature)])
  {
    Accepted(query);
    assert FormatCities([feature]) == [FormatCity(feature)];
  }

  /** A search answered with no features returns no cities. */
  lemma NothingFound(store: TtlCache.Store<CachedValue>, defaultTTL: int, query: string, token: string,
                     now: int, later: int, fetched: Fetched<MapboxResponse>)
    requires store == map[] && token != ""
    requires query == "NonexistentCity123"
    requires fetched == Body(MapboxResponse([]))
    ensures SearchStep(store, defaultTTL, query, token, now, later, fetched).0 == Success([])
  {
    Accepted(query);
  }

  /** "a" and "" are refused as too short, whatever the cache, the token and the request. */
  lemma ShortQueryRefused(store: TtlCache.Store<CachedValue>, defaultTTL: int, query: string, token: string,
                          now: int, later: int, fetched: Fetched<MapboxResponse>)
    requires query == "a" || query == ""
    ensures SearchStep(store, defaultTTL, query, token, now, later, fetched) == (Failure(ValidationError(QUERY_TOO_SHORT)), store)
  {
    assert !QueryAccepted(query);
  }

  /** A 500 answer and a failed request both become external API errors from Mapbox. */
  lemma LondonApiFailures(store: TtlCache.Store<CachedValue>, defaultTTL: int, query: string, token: string,
                          now: int, later: int)
    requires store == map[] && token != ""
    requires query == "London"
    ensures SearchStep(store, defaultTTL, query, token, now, later, HttpStatus(500)).0 ==
      Failure(ExternalApiError(MAPBOX, "HTTP 500"))
    ensures SearchStep(store, defaultTTL, query, token, now, later, NetworkFailure("Network error")).0 ==
      Failure(ExternalApiError(MAPBOX, "Network error"))
  {
    Accepted(query);
    assert NatToDecimal(500) == "500";
    assert "HTTP " + NatToDecimal(500) == "HTTP 500";
  }
}
