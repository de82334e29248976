# Travel planner core, modelled in Dafny

This project models the service layer of a travel-planner GraphQL API. It has four parts.

- **The activity ranking engine** (`src/services/activityService.ts`) scores four activities (skiing, surfing, indoor and outdoor sightseeing) for one weather snapshot. It then sorts them best-first and marks each one scoring 7 or more as recommended.
  - Each scorer is specified by a function built from its threshold bands (`Factor`s).
  - Each scorer is also modelled by a method that accumulates `score` and `reasons` step by step, as the source does. The method is proved equal to the function.
  - The runtime's stable `sort` is an in-place insertion sort on an `array`. It is proved equal to a functional `SortByScore`, which is proved to be a permutation, descending and stable.
- **The in-memory TTL cache** (`src/utils/cache.ts`) is a `class Cache<T>` whose `store` map its methods update in place.
  - Each method is tied to a pure function on the map: `Lookup`, `Put` or `Sweep`.
  - Expiry, eviction on read, size and cleanup are proved about those functions.
  - The clock is the explicit parameter `now`.
- **The weather service** (`src/services/weatherService.ts`):
  - the table of 24 WMO weather codes, with "Unknown" for any other code;
  - the formatting of the current weather and of the 24-hour hourly window;
  - the cached request keyed `weather:<lat>:<lng>`, read with a ten-minute maximum age (the cache's five-minute cleanup can remove an entry sooner).
  - The request's outcome is a parameter (`Fetched`).
- **The geocoding service** (`src/services/geocodingService.ts`):
  - query validation on the trimmed query;
  - the access-token check;
  - the cache keyed by the lower-cased query;
  - the Mapbox request's outcome;
  - the mapping of Mapbox features to cities (country, region, swapped coordinates).

`wrappers.dfy` holds `Option`/`Result`. `text.dfy` holds the JavaScript string built-ins the services use: `join`, ASCII `toLowerCase`, `includes`, `startsWith`, `trim`, and the decimal rendering of an HTTP status. `types.dfy` holds the records of `src/models/types.ts` and the error classes of `src/utils/errors.ts`. `activity_examples.dfy` and `geocoding_examples.dfy` state the scenarios of the unit tests as lemmas about the model.

Numbers are exact `real`s, and `Math.round(x)` is `floor(x + 1/2)`. The current time before a request (`now`) and after it (`later`) are parameters. So are the outcome of each request and, for the weather cache key, the rendering of a coordinate as text (`numberText`). Both services share one cache of `CachedValue`s, which are forecasts or city lists. The two key prefixes are proved disjoint.

## Model

| member | source | states |
|---|---|---|
| ActivityService.RoundHalfOfNat | src/services/activityService.ts:86 | rounding half of a non-negative integer total gives `(n + 1) / 2`, so odd totals round up |
| ActivityService.HalvedScore | src/services/activityService.ts:84-88 | a three-band scorer scores `min(10, ceil(total / 2))`; its reason is the three tags joined by ", ", in push order, and is non-empty when the first tag is |
| ActivityService.SkiingScore | src/services/activityService.ts:42-89 | the skiing result is of type SKIING, scores between 2 and 10 and has a non-empty reason |
| ActivityService.SnowOverridesPrecipitation | src/services/activityService.ts:61-71 | when the conditions mention "snow" in any case, the snow band gives 9 points, and precipitation has no effect on the skiing result |
| ActivityService.ScoreSkiing | src/services/activityService.ts:42-89 | the step-by-step accumulation returns exactly the band specification `SkiingScore` |
| ActivityService.SurfingScore | src/services/activityService.ts:95-145 | the surfing result is of type SURFING, scores between 1 and 10 and has a non-empty reason |
| ActivityService.ScoreSurfing | src/services/activityService.ts:95-145 | the step-by-step accumulation returns exactly `SurfingScore` |
| ActivityService.IndoorScoreFormula | src/services/activityService.ts:151-176 | indoor scores 6, plus 3 when precipitation > 5, plus 2 below 5° or above 35°, plus 1 when wind > 40, capped at 10, so always at least 6; its reason starts with "always available" |
| ActivityService.IndoorScore | src/services/activityService.ts:151-176 | defines the indoor result: the base band "always available" (6) and the bands that fired, their points summed and capped at 10 without halving, their tags joined; its closed form is `IndoorScoreFormula` |
| ActivityService.ScoreIndoorSightseeing | src/services/activityService.ts:151-176 | the step-by-step accumulation, whose reason list starts as ['always available'], returns exactly `IndoorScore` |
| ActivityService.OutdoorScore | src/services/activityService.ts:182-229 | the outdoor result is of type OUTDOOR_SIGHTSEEING, scores between 1 and 10 and has a non-empty reason |
| ActivityService.ScoreOutdoorSightseeing | src/services/activityService.ts:182-229 | the step-by-step accumulation returns exactly `OutdoorScore` |
| ActivityService.InsertPermutes | src/services/activityService.ts:22 | one insertion step adds exactly the inserted element: lengths and multisets agree |
| ActivityService.InsertDescending | src/services/activityService.ts:22 | inserting into a descending sequence keeps it descending |
| ActivityService.InsertRankOrdered | src/services/activityService.ts:22 | inserting an element later in enum order than all others keeps ties in enum order |
| ActivityService.InsertWithScore | src/services/activityService.ts:22 | among elements of any given score, the inserted one goes after the existing ones |
| ActivityService.SortPermutes | src/services/activityService.ts:22 | the sort is a permutation of its input |
| ActivityService.SortDescending | src/services/activityService.ts:22 | the sort's output is ordered by score, highest first |
| ActivityService.SortStable | src/services/activityService.ts:22 | the sort is stable: for every score, the elements with that score keep their input order |
| ActivityService.SortRankOrdered | src/services/activityService.ts:22 | input in enum order comes out by score, with ties in enum order |
| ActivityService.ShiftSmaller | src/services/activityService.ts:22 | the inner loop shifts right by one exactly the trailing elements scoring less than the one inserted; it leaves the rest of the array unchanged and stops after an element scoring at least as much |
| ActivityService.InsertAt | src/services/activityService.ts:22 | inserting element `i` into the sorted prefix gives the prefix `InsertByScore` specifies; the suffix is unchanged |
| ActivityService.SortScores | src/services/activityService.ts:22 | sorting the array in place leaves exactly `SortByScore` of its old contents |
| ActivityService.MapPermutes | src/services/activityService.ts:24-29 | mapping permutations of a sequence gives permutations of the mapped sequence |
| ActivityService.ToActivity | src/services/activityService.ts:24-29 | defines the presented record: the type's string value as `name`, the score and reason as they are, `recommended` when the score is at least 7; see `PresentedEntries` |
| ActivityService.ScoresInEnumOrder | src/services/activityService.ts:14-19 | the four scorer results are listed in enum declaration order |
| ActivityService.ScoreNames | src/services/activityService.ts:14-29 | before sorting, the presented names are SKIING, SURFING, INDOOR_SIGHTSEEING, OUTDOOR_SIGHTSEEING |
| ActivityService.RankingIsPermutation | src/services/activityService.ts:13-36 | the ranking keeps city and weather; it lists exactly four activities, a permutation of the presented scorer results, one of each type |
| ActivityService.PresentedInOrder | src/services/activityService.ts:22-29 | presenting a rank-ordered sequence keeps scores non-increasing and ties in enum order |
| ActivityService.RankingBestFirst | src/services/activityService.ts:13-36 | ranked activities are ordered by score, best first; equal scores keep the order SKIING, SURFING, INDOOR, OUTDOOR |
| ActivityService.ScoresWellFormed | src/services/activityService.ts:14-19 | every scorer result scores between 1 and 10 with a non-empty reason |
| ActivityService.PresentedEntries | src/services/activityService.ts:24-29 | every presented entry is recommended exactly when its score is at least 7, scores between 1 and 10, and has a non-empty reason |
| ActivityService.RankingEntries | src/services/activityService.ts:24-29 | every ranked activity is recommended exactly when it scores 7 or more, scores between 1 and 10, and has a non-empty reason |
| ActivityService.Ranking | src/services/activityService.ts:13-36 | defines `rankActivities`: the four scorer results in declaration order, stably sorted by descending score, then presented; its properties are the `Ranking*` lemmas |
| ActivityService.RankActivities | src/services/activityService.ts:13-36 | scoring, sorting the local array in place and mapping returns exactly `Ranking`, about which the lemmas above hold |
| ActivityExamples.ClearSkyIsNotSnow | src/services/activityService.ts:62 | "Clear sky" does not mention snow |
| ActivityExamples.HeavyRainIsNotSnow | src/services/activityService.ts:62 | "Heavy rain" does not mention snow |
| ActivityExamples.HeavySnowIsSnow | src/services/activityService.ts:62 | "Heavy snow" mentions snow |
| ActivityExamples.ClearWarmDayScores | src/__tests__/unit/activityService.test.ts:14-31 | at 20-25°, dry and 10 km/h wind, the four results score 3, 10, 6 and 10, each with its reason tags |
| ActivityExamples.ClearWarmDayRanking | src/__tests__/unit/activityService.test.ts:71-88 | on a clear warm day surfing and outdoor (10, recommended) lead in that order, then indoor 6, then skiing 3, not recommended |
| ActivityExamples.HeavySnowDayScores | src/__tests__/unit/activityService.test.ts:90-105 | at -5°, 10 mm and 15 km/h wind with snow, the four results score 10, 5, 10 and 3 |
| ActivityExamples.HeavySnowDayRanking | src/__tests__/unit/activityService.test.ts:90-105 | in heavy snow skiing leads with 10 and is recommended, followed by indoor 10, surfing 5 and outdoor 3 |
| ActivityExamples.HeavyRainDayScores | src/__tests__/unit/activityService.test.ts:123-139 | at 15°, 20 mm and 30 km/h wind, the four results score 3, 7, 9 and 6 |
| ActivityExamples.HeavyRainDayRanking | src/__tests__/unit/activityService.test.ts:123-139 | in heavy rain indoor leads with 9, then surfing 7, outdoor 6 and skiing 3 |
| TtlCache.Cache.constructor | src/utils/cache.ts:10-13 | a new cache is empty and its default TTL is the argument, or 300000 ms when none is given |
| TtlCache.Cache.Get | src/utils/cache.ts:15-31 | `get` returns and leaves what `Lookup` says for `ttl \|\| defaultTTL` |
| TtlCache.Cache.Set | src/utils/cache.ts:33-38 | `set` (re)stores the entry stamped with the current time, as `Put` |
| TtlCache.Cache.Delete | src/utils/cache.ts:40-42 | `delete` reports whether the key was present and removes exactly that key |
| TtlCache.Cache.Clear | src/utils/cache.ts:44-46 | `clear` empties the map |
| TtlCache.Cache.Size | src/utils/cache.ts:48-50 | `size` is the number of keys stored |
| TtlCache.Cache.Cleanup | src/utils/cache.ts:53-60 | `cleanup` leaves exactly `Sweep` of the map under the default TTL |
| TtlCache.MaxAge | src/utils/cache.ts:22 | defines `ttl \|\| defaultTTL`: the given ttl unless it is absent or zero; its cases are `MaxAgeCases` |
| TtlCache.Lookup | src/utils/cache.ts:15-31 | defines `get` on the map: a miss for an absent key; a miss that deletes the key when more than the maximum age has passed; otherwise the stored data, map unchanged |
| TtlCache.Put | src/utils/cache.ts:33-38 | defines `set` on the map: the key maps to the data stamped with the current time, replacing any earlier entry |
| TtlCache.Sweep | src/utils/cache.ts:53-60 | defines `cleanup` on the map: the entries not older than the default TTL at `now` |
| TtlCache.LookupHitIffFresh | src/utils/cache.ts:15-31 | a read hits exactly when the key is present and no older than the maximum age; a hit returns the stored data |
| TtlCache.LookupEvictsOnlyKey | src/utils/cache.ts:25-28 | after a read the key remains exactly when it was a hit; no other key is added, removed or changed |
| TtlCache.LookupRepeatable | src/utils/cache.ts:15-31 | repeating a read at the same time returns the same answer and changes nothing |
| TtlCache.MaxAgeCases | src/utils/cache.ts:22 | an absent or zero ttl falls back to the default; a negative one is kept as a negative maximum age; a positive one is used |
| TtlCache.NegativeTtlAlwaysMisses | src/utils/cache.ts:22-23 | a negative ttl makes every read of an entry stored in the past a miss |
| TtlCache.PutThenLookup | src/utils/cache.ts:33-38 | a stored value is read back exactly while it is no older than the maximum age |
| TtlCache.PutLeavesOthers | src/utils/cache.ts:33-38 | storing leaves other keys untouched and grows the size by one exactly for a new key |
| TtlCache.DeleteSize | src/utils/cache.ts:40-42 | deleting removes the key and shrinks the size by one exactly when it was present |
| TtlCache.SweepExact | src/utils/cache.ts:53-60 | cleanup keeps exactly the unexpired entries, unchanged, and never grows the map |
| TtlCache.SweepIdempotent | src/utils/cache.ts:53-60 | a second cleanup at the same time changes nothing |
| TtlCache.SweepInvisibleToLookup | src/utils/cache.ts:53-60 | cleanup under a TTL never changes what a read with that TTL returns |
| TtlCache.SweepShorterTtlEvicts | src/utils/cache.ts:53-60 | a cleanup with a TTL shorter than a later read's maximum age removes an entry that read would still have returned |
| WeatherService.KnownCodes | src/services/weatherService.ts:108-137 | every code has a non-empty description, "Unknown" exactly for codes outside the 24 listed |
| WeatherService.WeatherCondition | src/services/weatherService.ts:108-137 | defines `getWeatherCondition`: the listed description of one of the 24 codes, "Unknown" for any other; see `KnownCodes` |
| WeatherService.SlightOrModerateSnowMentionsSnow | src/services/weatherService.ts:122-129 | the descriptions of codes 71, 73 and 85 mention snow |
| WeatherService.HeavySnowOrGrainsMentionsSnow | src/services/weatherService.ts:124-130 | the descriptions of codes 75, 77 and 86 mention snow |
| WeatherService.OtherDescriptionsDoNotMentionSnow | src/services/weatherService.ts:108-137 | no description of another code, "Unknown" included, mentions snow |
| WeatherService.SnowCodesExactly | src/services/weatherService.ts:108-137 | a code's description mentions snow exactly when the code is 71, 73, 75, 77, 85 or 86 |
| WeatherService.CurrentWeatherSnowBand | src/services/weatherService.ts:75-83 | the current weather's skiing snow band is 9 exactly for the snow codes and 2 otherwise, since its precipitation is 0; the indoor score then never exceeds 9 |
| WeatherService.FormatCurrentWeather | src/services/weatherService.ts:75-83 | defines `formatCurrentWeather`; its fields are stated by `CurrentWeatherFields` |
| WeatherService.CurrentWeatherFields | src/services/weatherService.ts:75-83 | the current reading copies temperature, wind speed and time, describes its code ("Unknown" exactly for unlisted codes), and has precipitation 0 and no humidity |
| WeatherService.FormatHourlyForecast | src/services/weatherService.ts:88-102 | defines `formatHourlyForecast`: nothing without times, else one record per hour of the first 24; its properties are `HourlyForecastWindow` |
| WeatherService.HourlyForecastWindow | src/services/weatherService.ts:88-102 | the hourly forecast has one record per time for the first (at most) 24 times, and is empty exactly when there are no times; record i takes hour i of every series: time, temperature, precipitation, wind speed, humidity and the description of its code |
| WeatherService.ColonJoinInjective | src/services/weatherService.ts:29 | joining two texts with ":" is injective when the first contains no colon |
| WeatherService.WeatherCacheKeyInjective | src/services/weatherService.ts:29 | equal weather keys mean equal latitude and longitude texts |
| WeatherService.WeatherCacheKey | src/services/weatherService.ts:29 | defines the key `weather:<latitude>:<longitude>` with the coordinates rendered as text |
| WeatherService.FetchForecast | src/services/weatherService.ts:36-69 | defines the request's outcome after a miss: a forecast from a body with current weather, NotFoundError without it, ExternalAPIError otherwise; see `FetchOutcomes` |
| WeatherService.ForecastStep | src/services/weatherService.ts:28-70 | defines `getWeatherForecast` on the cache map: a cached forecast within ten minutes is returned; otherwise the request's outcome, stored only on success and stamped after the request |
| WeatherService.GetWeatherForecast | src/services/weatherService.ts:28-70 | the method returns and leaves in the cache what `ForecastStep` specifies |
| WeatherService.FreshForecastServedFromCache | src/services/weatherService.ts:29-34 | a forecast cached under the city's key at most ten minutes ago is returned without a request, and the cache is unchanged |
| WeatherService.CleanupShortensForecastLife | src/utils/cache.ts:63-66 | the periodic cleanup uses the five-minute default, so a forecast stored between five and ten minutes ago is served before a cleanup but requested again after one |
| WeatherService.FetchedForecastReused | src/services/weatherService.ts:28-70 | after a miss and a successful request, asking again within ten minutes returns the same forecast and changes nothing, provided no cleanup or other request touches the cache in between |
| WeatherService.FailureNotCached | src/services/weatherService.ts:36-69 | a failed forecast leaves the cache as the read left it |
| WeatherService.FetchOutcomes | src/services/weatherService.ts:44-69 | a forecast results exactly from a body with current weather; it carries the city, at most 24 hours and zero current precipitation; a body without current weather is NotFoundError; failures and HTTP statuses are ExternalAPIErrors from OpenMeteo ("HTTP ..." for a status) |
| GeocodingService.FirstMatch | src/services/geocodingService.ts:72-78 | the index returned is the first entry whose id starts with the prefix, or the length when none does |
| GeocodingService.Find | src/services/geocodingService.ts:72-78 | `find` yields nothing exactly when no id starts with the prefix, and otherwise the first entry whose id does |
| GeocodingService.FormatCity | src/services/geocodingService.ts:71-88 | the city keeps the feature's id and text; its latitude is `center[1]` and longitude `center[0]` |
| GeocodingService.FormatCityAreas | src/services/geocodingService.ts:72-78 | the country is the text of the first "country" entry, or "" when there is none; the region is present exactly when a "region" entry exists, and is the first one's text |
| GeocodingService.ContextText | src/services/geocodingService.ts:72-78 | defines `context?.find(...)?.text`: nothing without a context or a matching entry, else the text of the first entry whose id has the prefix; see `FormatCityAreas` |
| GeocodingService.FormatCities | src/services/geocodingService.ts:56 | one city per feature |
| GeocodingService.FormatCitiesInOrder | src/services/geocodingService.ts:56 | the i-th city comes from the i-th feature |
| GeocodingService.QueryValidation | src/services/geocodingService.ts:28-30 | a query is accepted exactly when its trimmed length is at least 2; accepted queries have at least 2 characters; blank queries are refused; unpadded ones of length 2 or more are accepted |
| GeocodingService.QueryAccepted | src/services/geocodingService.ts:28 | defines the validation guard: the query is non-empty and its trimmed length is at least 2; see `QueryValidation` |
| GeocodingService.GeocodingCacheKey | src/services/geocodingService.ts:36 | defines the key `geocoding:` followed by the lower-cased, untrimmed query |
| GeocodingService.GeocodingCacheKeyCaseInsensitive | src/services/geocodingService.ts:36 | two queries share a cache key exactly when they agree after lower-casing; with the model's letter-by-letter lower-casing, queries of different lengths never share one, since the key is not trimmed |
| GeocodingService.CacheKeysDisjoint | src/services/geocodingService.ts:36 | a geocoding key never equals a weather key in the shared cache |
| GeocodingService.SearchCities | src/services/geocodingService.ts:27-66 | the method returns and leaves in the cache what `SearchStep` specifies |
| GeocodingService.FetchCities | src/services/geocodingService.ts:43-65 | defines the request's outcome after a miss: the features mapped to cities, or an ExternalAPIError from Mapbox; see `FetchCitiesOutcomes` |
| GeocodingService.SearchStep | src/services/geocodingService.ts:27-66 | defines `searchCities` on the cache map: validation, then the token, then a read with the default TTL; a cached list is returned; otherwise the request's outcome, stored only on success |
| GeocodingService.ChecksBeforeCache | src/services/geocodingService.ts:28-34 | a refused query fails with ValidationError, and an accepted query without a token with the token error; neither touches the cache; success needs both checks passed |
| GeocodingService.CachedCitiesServed | src/services/geocodingService.ts:36-41 | cities cached under the query's key within the default TTL are returned without a request, even an empty list, and the cache is unchanged |
| GeocodingService.FetchedCitiesStored | src/services/geocodingService.ts:55-59 | after a miss, a successful search stores its cities under the query's key, stamped after the request |
| GeocodingService.FetchedCitiesReused | src/services/geocodingService.ts:36-59 | after a successful search, the same query in any letter case, within the default TTL, returns the same cities from the cache and changes nothing |
| GeocodingService.SearchFailureNotCached | src/services/geocodingService.ts:43-65 | a failed search leaves the cache as the read left it |
| GeocodingService.FetchCitiesOutcomes | src/services/geocodingService.ts:43-65 | success comes exactly from a body and maps every feature, in order; HTTP statuses and failures become ExternalAPIErrors from Mapbox, "HTTP ..." for a status, with the failure's own message when non-empty |
| GeocodingExamples.LondonFormatted | src/__tests__/unit/geocodingService.test.ts:96-117 | the London feature becomes London, United Kingdom, region Greater London, latitude 51.5074, longitude -0.1278 |
| GeocodingExamples.ParisFormatted | src/__tests__/unit/geocodingService.test.ts:119-132 | a feature without a region entry gives no region; the country is France |
| GeocodingExamples.CapeTownFound | src/__tests__/unit/geocodingService.test.ts:18-47 | a search for "Cape Town" answered with one feature returns that feature's city |
| GeocodingExamples.CapeTownFormatted | src/__tests__/unit/geocodingService.test.ts:18-47 | the Cape Town feature becomes Cape Town, South Africa, region Western Cape, with swapped coordinates |
| GeocodingExamples.ShortQueryRefused | src/__tests__/unit/geocodingService.test.ts:49-56 | "a" and "" fail with the validation message and leave the cache alone |
| GeocodingExamples.LondonApiFailures | src/__tests__/unit/geocodingService.test.ts:58-77 | a 500 answer gives ExternalAPIError "HTTP 500"; a network error keeps its message |
| GeocodingExamples.NothingFound | src/__tests__/unit/geocodingService.test.ts:79-92 | a search answered with no features returns no cities |
| Types.ExternalApi | src/utils/errors.ts:26-35 | an ExternalAPIError names its service and keeps a non-empty message, or else gets the generic one |
| Text.ToLower | src/services/geocodingService.ts:36 | lower-casing keeps the length and maps each character |
| Text.ToLowerIdempotent | src/services/geocodingService.ts:36 | lower-casing twice is lower-casing once |
| Text.Includes | src/services/activityService.ts:62 | `includes` holds exactly when the substring occurs at some position |
| Text.IncludesLowered | src/services/activityService.ts:62 | a slice that lower-cases to the substring makes the lowered text include it |
| Text.LackingCharNotIncluded | src/services/activityService.ts:62 | a text none of whose lowered characters is a given character of the substring does not include it |
| Text.PairNotIncluded | src/services/activityService.ts:62 | a text without a given adjacent pair of the substring does not include it |
| Text.JoinStartsWithFirst | src/services/activityService.ts:87 | a joined list starts with its first part, so it is non-empty when that part is |
| Text.TrimStart | src/services/geocodingService.ts:28 | trimming the start drops exactly a leading run of whitespace |
| Text.TrimEnd | src/services/geocodingService.ts:28 | trimming the end drops exactly a trailing run of whitespace |
| Text.TrimIsInnerSlice | src/services/geocodingService.ts:28 | `trim` gives an inner slice with only whitespace around it |
| Text.TrimEmptyIffBlank | src/services/geocodingService.ts:28 | `trim` gives "" exactly for all-whitespace text |
| Text.TrimUnpadded | src/services/geocodingService.ts:28 | text with no whitespace at either end is its own trim |
| Text.NatToDecimal | src/services/geocodingService.ts:52 | a status renders as a non-empty decimal string |

## Left out

- The HTTP requests themselves are not modelled. URL building, `encodeURIComponent`, `fetch`, `response.json()` and the `forecast_days`/`limit` parameters are left out. Each request's outcome is a parameter: a network or parse failure with its message, an HTTP status, or a parsed body.
- The `try`/`catch` re-wrapping is modelled only by its outcome: any non-API error becomes an ExternalAPIError carrying its message. The error classes keep only their class and message; `statusCode`, `code` and `name` are not modelled.
- A missing `features` array in a Mapbox body is not modelled. The source would raise a TypeError there, re-wrapped as an ExternalAPIError. The body type always has the array.
- The Mapbox token is a parameter. The source reads it once, when the module loads (src/services/geocodingService.ts:5), and the unit tests set it in `beforeEach`, after that read. The missing-token error is a plain `Error`, modelled as `ConfigurationError`.
- `Date.now()` is the parameter `now`, or `later` for the store after an awaited request. The `setInterval` that runs `cleanup` every ten minutes is left out; `Cleanup` is modelled as one call.
- `Map` iteration order in `cleanup` is not modelled, since deleting during the loop only removes expired keys and the result does not depend on the order.
- Numbers are exact reals, not IEEE doubles. NaN, infinities and rounding of binary fractions are not modelled. Weather codes are integers; a non-integer code would map to "Unknown" in the source.
- JavaScript's text rendering of a coordinate in the weather cache key is the parameter `numberText`.
- `toLowerCase` is modelled on ASCII letters only; Unicode case mapping is left out. Text is a sequence of Dafny characters, not UTF-16 code units.
- WeatherService.GetWeatherForecast: requires the `hourly` series of a body to have a value for every hour read. In the source a shorter series yields `undefined` fields instead.
- WeatherService.HourlyForecastWindow: requires every hourly series to cover the 24-hour window, for the same reason.
- The shared cache holds forecasts and city lists in one map. A lookup that finds the other kind of value under a key is treated as a miss. This cannot happen, because the two key prefixes differ (`GeocodingService.CacheKeysDisjoint`).
- The unit tests for activities build weather with a `condition` field, while the code reads `conditions`. The test scenarios are stated on the model with `conditions` holding the description. The tests also read each activity's `.type`, while the code writes the type into `name` (src/services/activityService.ts:25); the model follows the code.
- Interleaving is not modelled. `GetWeatherForecast` and `SearchCities` run the read, the awaited request and the store as one step on the map the read left. In the source, other requests and the cleanup timer can change the shared cache during the `await`. So the reuse lemmas (`FetchedForecastReused`, `FetchedCitiesReused`) hold only when nothing else touches the cache in between.
- The cleanup timer is not part of the cached requests. It sweeps with the 300000 ms default, shorter than the weather read's 600000 ms, so a forecast can be evicted after five minutes rather than ten. `CleanupShortensForecastLife` states this; the ten-minute claims above assume no cleanup ran.
- `toLowerCase` changes the length of some non-ASCII text (for example U+0130); the model's lower-casing maps each character to one character.
- The GraphQL schema, resolvers and server start-up (`src/schema/`, `src/index.ts`) are not part of this model.
