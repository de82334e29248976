/**
 * The records the services exchange (src/models/types.ts) and the errors they
 * raise (src/utils/errors.ts). Measurements are exact reals, not IEEE doubles.
 */
module Types {
  import opened Wrappers

  /** A place returned by geocoding; `region` is left undefined when unknown. */
  datatype City = City(
    id: string,
    name: string,
    country: string,
    latitude: real,
    longitude: real,
    region: Option<string>)

  /** A weather snapshot: °C, free-text conditions, precipitation, km/h wind, optional humidity, ISO time. */
  datatype Weather = Weather(
    temperature: real,
    conditions: string,
    precipitation: real,
    windSpeed: real,
    humidity: Option<real>,
    timestamp: string)

  datatype WeatherForecast = WeatherForecast(city: City, current: Weather, forecast: seq<Weather>)

  /** The four activities that are ranked, in declaration order. */
  datatype ActivityType = Skiing | Surfing | IndoorSightseeing | OutdoorSightseeing

  /** The string value of each enum member. */
  function TypeName(t: ActivityType): string
  {
    match t
    case Skiing => "SKIING"
    case Surfing => "SURFING"
    case IndoorSightseeing => "INDOOR_SIGHTSEEING"
    case OutdoorSightseeing => "OUTDOOR_SIGHTSEEING"
  }

  /** Position of a member in the enum declaration. */
  function Ordinal(t: ActivityType): nat
  {
    match t
    case Skiing => 0
    case Surfing => 1
    case IndoorSightseeing => 2
    case OutdoorSightseeing => 3
  }

  /** A ranked activity; the engine stores the activity type in `name`. */
  datatype Activity = Activity(name: string, score: int, recommended: bool, reason: string)

  datatype ActivityRanking = ActivityRanking(city: City, weather: Weather, activities: seq<Activity>)

  /**
   * The errors the services raise; the model keeps their class and message.
   * `ConfigurationError` stands for the plain `Error` raised when the Mapbox
   * token is missing.
   */
  datatype ServiceError =
    | ValidationError(message: string)
    | NotFoundError(message: string)
    | ExternalApiError(service: string, message: string)
    | ConfigurationError(message: string)

  /**
   * `new ExternalAPIError(service, message)`: the message is kept when it is
   * non-empty and otherwise replaced by a generic one naming the service.
   */
  function ExternalApi(service: string, message: string): (e: ServiceError)
    ensures e.ExternalApiError? && e.service == service && e.message != ""
    ensures message != "" ==> e.message == message
  {
    ExternalApiError(service, if message != "" then message else "External API error from " + service)
  }

  /**
   * How one request to an external API ended: the request or the parsing of
   * its body failed with a message, the server answered with a status outside
   * 200-299, or a parsed body arrived.
   */
  datatype Fetched<T> = NetworkFailure(message: string) | HttpStatus(status: nat) | Body(data: T)

  /** What the services keep in their shared cache: a forecast, or the cities found for a query. */
  datatype CachedValue = CachedForecast(forecast: WeatherForecast) | CachedCities(cities: seq<City>)
}
