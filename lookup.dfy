/**
 * One lookup against the weather provider: the current-conditions request, then the
 * forecast request, the `ok` check on both responses, and the decoding of both bodies.
 * Responses are inputs to the model; the outcome is either both payloads or the message
 * of the first thing that went wrong.
 */
module Lookup {

  /** One entry of the `weather` array of the current-conditions payload. */
  datatype Condition = Condition(id: int, main: string, description: string, icon: string)

  /** The current-conditions payload. */
  datatype WeatherData = WeatherData(
    name: string, temp: real, feelsLike: real, humidity: real, pressure: real,
    conditions: seq<Condition>, windSpeed: real, country: string)

  /** One entry of the `weather` array of a forecast entry. */
  datatype ForecastCondition = ForecastCondition(id: int, main: string, description: string)

  /** One three-hourly forecast entry. */
  datatype ForecastEntry = ForecastEntry(dt: int, temp: real, conditions: seq<ForecastCondition>)

  /** The forecast payload. */
  datatype ForecastData = ForecastData(list: seq<ForecastEntry>)

  /** What a rejected promise hands to the `catch` block: an `Error` with its message, or any other value. */
  datatype Thrown = ErrorObject(message: string) | OtherValue

  /** What `response.json()` does: resolves to the payload, or rejects. */
  datatype Body<T> = Payload(value: T) | BadJson(reason: Thrown)

  /** What `await fetch(url)` does: rejects, or resolves to a response with its `ok` flag and body. */
  datatype Response<T> = Rejected(reason: Thrown) | Received(ok: bool, body: Body<T>)

  /** A request sent to the provider, with the city name it asks about. */
  datatype Request = CurrentWeather(city: string) | FiveDayForecast(city: string)

  /** Either both payloads, or the message shown for the failure. */
  datatype Outcome = Found(weather: WeatherData, forecast: ForecastData) | Failed(message: string)

  const NotFoundMessage := "City not found"
  const FallbackMessage := "Failed to fetch weather data"

  /** `error instanceof Error ? error.message : "Failed to fetch weather data"`. */
  function Message(t: Thrown): string {
    match t
    case ErrorObject(m) => m
    case OtherValue => FallbackMessage
  }

  /** A response that resolved with `ok` set and a body that decodes. */
  predicate Usable<T>(r: Response<T>) {
    r.Received? && r.ok && r.body.Payload?
  }

  /**
   * The requests a lookup of `city` sends, in order. The forecast is awaited only after
   * the current-conditions request has resolved, so a rejected first request stops there.
   */
  function Requests(city: string, w: Response<WeatherData>): (r: seq<Request>)
    ensures 1 <= |r| <= 2 && r[0] == CurrentWeather(city)
    ensures |r| == 2 <==> w.Received?
    ensures |r| == 2 ==> r[1] == FiveDayForecast(city)
  {
    [CurrentWeather(city)] + if w.Rejected? then [] else [FiveDayForecast(city)]
  }

  /**
   * The body of the `try` block, as a value: a rejected fetch, a response that is not `ok`,
   * or a body that does not decode ends it with that failure's message; otherwise both
   * payloads are the result.
   */
  function Query(w: Response<WeatherData>, f: Response<ForecastData>): (r: Outcome)
    ensures r.Found? <==> Usable(w) && Usable(f)
  {
    if w.Rejected? then Failed(Message(w.reason))
    else if f.Rejected? then Failed(Message(f.reason))
    else if !w.ok || !f.ok then Failed(NotFoundMessage)
    else if w.body.BadJson? then Failed(Message(w.body.reason))
    else if f.body.BadJson? then Failed(Message(f.body.reason))
    else Found(w.body.value, f.body.value)
  }

  /** When both responses are usable, the lookup yields both payloads unchanged. */
  lemma QueryFoundPayloads(w: Response<WeatherData>, f: Response<ForecastData>)
    ensures Usable(w) && Usable(f) ==> Query(w, f) == Found(w.body.value, f.body.value)
  {
  }

  /** When both requests resolve but either is not `ok`, the message is "City not found". */
  lemma QueryNotOk(w: Response<WeatherData>, f: Response<ForecastData>)
    requires w.Received? && f.Received? && !(w.ok && f.ok)
    ensures Query(w, f) == Failed(NotFoundMessage)
  {
  }

  /** A rejected current-conditions request decides the outcome, whatever the forecast would have been. */
  lemma QueryFirstRejectionWins(w: Response<WeatherData>, f: Response<ForecastData>, g: Response<ForecastData>)
    requires w.Rejected?
    ensures Query(w, f) == Query(w, g) == Failed(Message(w.reason))
  {
  }
}
