/**
 * The two service calls of the weather app, with the network taken out:
 * what `fetch` and `response.json()` produced is an input, so
 * `getCoordinates` and `getWeather` become total functions from that input
 * to a record or `null` (None). Neither one ever rejects.
 */
module Api {
  import opened Wrappers

  /** A JavaScript number that the code only copies (a latitude, a temperature, ...). */
  type Float = real

  /** The record `getCoordinates` returns. */
  datatype Coordinates = Coordinates(lat: Float, lon: Float, name: string, country: string)

  /** The record `getWeather` returns. */
  datatype WeatherData = WeatherData(temperature: Float, windSpeed: Float, weatherCode: int)

  /** One element of the geocoding body's `results` list. */
  datatype GeoResult = GeoResult(latitude: Float, longitude: Float, name: string, country: string)

  /** The decoded geocoding body; `results` may be missing. */
  datatype GeoBody = GeoBody(results: Option<seq<GeoResult>>)

  /** The forecast body's `current_weather` block. */
  datatype CurrentWeather = CurrentWeather(temperature: Float, windspeed: Float, weathercode: int)

  /** The decoded forecast body; `current_weather` may be missing. */
  datatype ForecastBody = ForecastBody(current_weather: Option<CurrentWeather>)

  /** What `response.json()` does: decode a body, or throw. */
  datatype Json<B> = Parsed(body: B) | Malformed

  /** What `await fetch(...)` does: throw, or produce a response with its ok flag,
      its status and what decoding its body would give. */
  datatype Fetched<B> = TransportError | Response(ok: bool, status: int, json: Json<B>)

  /** `getCoordinates`: a failed fetch, a non-ok status, an undecodable body, and a
      missing or empty `results` list all give None; otherwise the first result,
      renamed field by field. */
  function GetCoordinates(fetched: Fetched<GeoBody>): (r: Option<Coordinates>)
    ensures r.Some? <==>
      && fetched.Response? && fetched.ok && fetched.json.Parsed?
      && fetched.json.body.results.Some? && |fetched.json.body.results.value| > 0
  {
    match fetched
    case TransportError => None
    case Response(ok, _, json) =>
      if !ok then None
      else match json
        case Malformed => None
        case Parsed(data) =>
          if data.results.None? || |data.results.value| == 0 then None
          else
            var result := data.results.value[0];
            Some(Coordinates(result.latitude, result.longitude, result.name, result.country))
  }

  /** `getWeather`: a failed fetch, an undecodable body and a missing
      `current_weather` give None; otherwise the block's three fields, renamed.
      The response status is never looked at. */
  function GetWeather(fetched: Fetched<ForecastBody>): (r: Option<WeatherData>)
    ensures r.Some? <==>
      fetched.Response? && fetched.json.Parsed? && fetched.json.body.current_weather.Some?
  {
    match fetched
    case TransportError => None
    case Response(_, _, json) =>
      match json
      case Malformed => None
      case Parsed(data) =>
        if data.current_weather.None? then None
        else
          var cw := data.current_weather.value;
          Some(WeatherData(cw.temperature, cw.windspeed, cw.weathercode))
  }

  /** A found place is the first result, with latitude, longitude, name and
      country copied unchanged; the results after it play no part. */
  lemma CoordinatesFromFirstResult(status: int, first: GeoResult, rest: seq<GeoResult>)
    ensures GetCoordinates(Response(true, status, Parsed(GeoBody(Some([first] + rest)))))
         == Some(Coordinates(first.latitude, first.longitude, first.name, first.country))
    ensures GetCoordinates(Response(true, status, Parsed(GeoBody(Some([first] + rest)))))
         == GetCoordinates(Response(true, status, Parsed(GeoBody(Some([first])))))
  {
  }

  /** Every place can be produced by a one-result response that carries it:
      extraction inverts the body's encoding of a place. */
  lemma CoordinatesRoundTrip(c: Coordinates, status: int)
    ensures GetCoordinates(Response(true, status,
              Parsed(GeoBody(Some([GeoResult(c.lat, c.lon, c.name, c.country)]))))) == Some(c)
  {
  }

  /** The geocoding test's mock response has a body with one result but no `ok`
      field, which `!response.ok` reads as a failed response: as written, the
      lookup gives null rather than the coordinates the test expects. */
  lemma GeoTestMockWithoutOk(status: int)
    ensures GetCoordinates(Response(false, status,
              Parsed(GeoBody(Some([GeoResult(10.0, 20.0, "Test City", "Test Country")]))))) == None
  {
  }

  /** The same mock reporting a successful response gives the coordinates the test expects. */
  lemma GeoTestMockWithOk(status: int)
    ensures GetCoordinates(Response(true, status,
              Parsed(GeoBody(Some([GeoResult(10.0, 20.0, "Test City", "Test Country")])))))
         == Some(Coordinates(10.0, 20.0, "Test City", "Test Country"))
  {
  }

  /** A non-ok response gives None whatever its body. */
  lemma CoordinatesNotOk(status: int, json: Json<GeoBody>)
    ensures GetCoordinates(Response(false, status, json)) == None
  {
  }

  /** The weather result is the same whatever the ok flag and the status. */
  lemma WeatherIgnoresStatus(ok1: bool, status1: int, ok2: bool, status2: int, json: Json<ForecastBody>)
    ensures GetWeather(Response(ok1, status1, json)) == GetWeather(Response(ok2, status2, json))
  {
  }

  /** Every weather record can be produced by a body that carries it. */
  lemma WeatherRoundTrip(w: WeatherData, ok: bool, status: int)
    ensures GetWeather(Response(ok, status,
              Parsed(ForecastBody(Some(CurrentWeather(w.temperature, w.windSpeed, w.weatherCode))))))
         == Some(w)
  {
  }
}
