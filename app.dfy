/**
 * The application's search flow: four pieces of state (`loading`, `error`,
 * `coordinates`, `weather`), the search handler that runs the coordinate
 * lookup and then the weather lookup, the clear handler, and the render
 * guards that decide which panels are shown.
 *
 * A search is modelled as one atomic call whose two lookups have already
 * produced their outcomes: a value, `null`, or a thrown error.
 */
module App {
  import opened Wrappers
  import opened Api
  import WeatherCard
  import SearchBar

  /** What awaiting one lookup produced. */
  datatype Lookup<T> = Value(v: T) | Null | Throws

  /** A service result as the search handler sees it; the services never throw. */
  function FromService<T>(r: Option<T>): Lookup<T> {
    if r.Some? then Value(r.value) else Null
  }

  const SearchFailed := "Ocurri\U{00F3} un error al buscar los datos"
  const WeatherMissing := "No se pudo obtener el clima"

  function NotFound(city: string): string {
    "No se encontraron coordenadas para \"" + city + "\""
  }

  /** The four state variables. */
  datatype State = State(
    loading: bool,
    error: Option<string>,
    coordinates: Option<Coordinates>,
    weather: Option<WeatherData>)

  /** Weather is shown only relative to a place: weather present implies coordinates present. */
  predicate Consistent(s: State) {
    s.weather.Some? ==> s.coordinates.Some?
  }

  const Initial := State(false, None, None, None)

  /** The first three statements of a search: loading on, error and weather cleared. */
  function Begin(s: State): State {
    s.(loading := true, error := None, weather := None)
  }

  /** The state a search settles in, from state `s`, for the given lookup outcomes. */
  function AfterSearch(s: State, city: string, coords: Lookup<Coordinates>, weather: Lookup<WeatherData>): State {
    var started := Begin(s);
    match coords
    case Throws => started.(loading := false, error := Some(SearchFailed))
    case Null => started.(loading := false, error := Some(NotFound(city)), coordinates := None)
    case Value(c) =>
      var located := started.(coordinates := Some(c));
      match weather
      case Value(w) => located.(loading := false, weather := Some(w))
      case Null => located.(loading := false, error := Some(WeatherMissing))
      case Throws => located.(loading := false, error := Some(SearchFailed))
  }

  /** The state after the clear handler. */
  function AfterClear(s: State): State {
    s.(coordinates := None, weather := None, error := None)
  }

  /** No coordinates: the not-found message, no place, no weather, not loading. */
  lemma SearchNotFound(s: State, city: string, weather: Lookup<WeatherData>)
    ensures AfterSearch(s, city, Null, weather)
         == State(false, Some("No se encontraron coordenadas para \"" + city + "\""), None, None)
  {
  }

  /** Both lookups succeed: exactly those values, no error, not loading. */
  lemma SearchFound(s: State, city: string, c: Coordinates, w: WeatherData)
    ensures AfterSearch(s, city, Value(c), Value(w)) == State(false, None, Some(c), Some(w))
  {
  }

  /** Coordinates but no weather: the place stays, the weather message is shown. */
  lemma SearchWeatherMissing(s: State, city: string, c: Coordinates)
    ensures AfterSearch(s, city, Value(c), Null)
         == State(false, Some("No se pudo obtener el clima"), Some(c), None)
  {
  }

  /** A thrown lookup: the generic message and no weather; if the coordinate lookup
      threw, the coordinates are those from before the search. */
  lemma SearchThrows(s: State, city: string, coords: Lookup<Coordinates>, weather: Lookup<WeatherData>)
    requires coords.Throws? || (coords.Value? && weather.Throws?)
    ensures var r := AfterSearch(s, city, coords, weather);
      && r.error == Some(SearchFailed) && r.weather == None && !r.loading
      && r.coordinates == (if coords.Throws? then s.coordinates else Some(coords.v))
  {
  }

  /** Loading is on while the lookups are pending and off once the search settles. */
  lemma SearchLoading(s: State, city: string, coords: Lookup<Coordinates>, weather: Lookup<WeatherData>)
    ensures Begin(s).loading && Begin(s).weather.None? && Begin(s).error.None?
    ensures !AfterSearch(s, city, coords, weather).loading
  {
  }

  /** A search ends without an error exactly when both lookups produced a value,
      and only then is there weather. */
  lemma SearchSucceedsIff(s: State, city: string, coords: Lookup<Coordinates>, weather: Lookup<WeatherData>)
    ensures var r := AfterSearch(s, city, coords, weather);
      && (r.error.None? <==> coords.Value? && weather.Value?)
      && (r.weather.Some? <==> coords.Value? && weather.Value?)
  {
  }

  /** A search, run to completion from any state, leaves a consistent state. */
  lemma SearchConsistent(s: State, city: string, coords: Lookup<Coordinates>, weather: Lookup<WeatherData>)
    ensures Consistent(AfterSearch(s, city, coords, weather))
  {
  }

  /** Clearing removes place, weather and message together and leaves loading as it was. */
  lemma ClearResets(s: State)
    ensures AfterClear(s) == State(s.loading, None, None, None) && Consistent(AfterClear(s))
  {
  }

  /** With the real services, which turn every failure into null, a search never
      shows the generic error: the handler's catch branch is never taken. */
  lemma ServicesNeverReachCatch(s: State, city: string, geo: Fetched<GeoBody>, forecast: Fetched<ForecastBody>)
    ensures AfterSearch(s, city, FromService(GetCoordinates(geo)), FromService(GetWeather(forecast))).error
         != Some(SearchFailed)
  {
    assert SearchFailed[0] != NotFound(city)[0] && SearchFailed[0] != WeatherMissing[0];
  }

  /** While a search is pending, the search bar's submit, text field and clear
      button are all disabled. */
  lemma PendingSearchDisablesControls(s: State, input: string)
    ensures SearchBar.SubmitDisabled(input, Begin(s).loading)
    ensures SearchBar.InputDisabled(Begin(s).loading) && SearchBar.ClearDisabled(Begin(s).loading)
  {
    SearchBar.ControlsWhileLoading(input, Begin(s).loading);
  }

  /** The map panel: position and the "name, country" caption. */
  datatype MapPanel = MapPanel(lat: Float, lon: Float, city: string)

  /** The weather card: its data, the caption and the condition text. */
  datatype CardPanel = CardPanel(data: WeatherData, city: string, condition: string)

  /** What the page shows below the search bar. */
  datatype View = View(errorMessage: Option<string>, mapPanel: Option<MapPanel>, cardPanel: Option<CardPanel>)

  function CityCaption(c: Coordinates): string {
    c.name + ", " + c.country
  }

  /** The render guards: the message when it is non-empty, the map when there are
      coordinates, and the card nested inside that when there is also weather. */
  function Render(s: State): View {
    View(
      if s.error.Some? && s.error.value != "" then s.error else None,
      if s.coordinates.Some? then
        Some(MapPanel(s.coordinates.value.lat, s.coordinates.value.lon, CityCaption(s.coordinates.value)))
      else None,
      if s.coordinates.Some? && s.weather.Some? then
        Some(CardPanel(s.weather.value, CityCaption(s.coordinates.value),
                       WeatherCard.ConditionText(s.weather.value)))
      else None)
  }

  /** The card is never shown without the map, and both carry the same caption; in a
      consistent state the card is shown exactly when there is weather. */
  lemma RenderCardWithMap(s: State)
    ensures Render(s).cardPanel.Some? ==> Render(s).mapPanel.Some? && Render(s).cardPanel.value.city == Render(s).mapPanel.value.city
    ensures Consistent(s) ==> (Render(s).cardPanel.Some? <==> s.weather.Some?)
  {
  }

  /** Every message a search sets is non-empty, so it is shown. */
  lemma SearchErrorShown(s: State, city: string, coords: Lookup<Coordinates>, weather: Lookup<WeatherData>)
    ensures Render(AfterSearch(s, city, coords, weather)).errorMessage
         == AfterSearch(s, city, coords, weather).error
  {
  }

  class Page {
    var loading: bool
    var error: Option<string>
    var coordinates: Option<Coordinates>
    var weather: Option<WeatherData>

    function Snapshot(): State
      reads this
    {
      State(loading, error, coordinates, weather)
    }

    ghost predicate Valid()
      reads this
    {
      Consistent(Snapshot())
    }

    constructor ()
      ensures Snapshot() == Initial && Valid()
    {
      loading, error, coordinates, weather := false, None, None, None;
    }

    /** `handleSearch`, lines 18-20: the state seen while the lookups are pending. */
    method Start()
      modifies this
      ensures Snapshot() == Begin(old(Snapshot())) && Valid()
    {
      loading := true;
      error := None;
      weather := None;
    }

    /** `handleSearch`: returns the position the weather lookup was asked for, or
        None when the coordinate lookup did not produce a place and no weather
        lookup was made. */
    method Search(city: string, coords: Lookup<Coordinates>, weatherOutcome: Lookup<WeatherData>)
      returns (weatherRequest: Option<(Float, Float)>)
      modifies this
      ensures Snapshot() == AfterSearch(old(Snapshot()), city, coords, weatherOutcome)
      ensures Valid()
      ensures weatherRequest.Some? <==> coords.Value?
      ensures coords.Value? ==> weatherRequest.value == (coords.v.lat, coords.v.lon)
    {
      Start();
      weatherRequest := None;
      match coords {
        case Throws =>
          error := Some(SearchFailed);
        case Null =>
          error := Some(NotFound(city));
          coordinates := None;
        case Value(c) =>
          coordinates := Some(c);
          weatherRequest := Some((c.lat, c.lon));
          match weatherOutcome {
            case Value(w) =>
              weather := Some(w);
            case Null =>
              error := Some(WeatherMissing);
            case Throws =>
              error := Some(SearchFailed);
          }
      }
      loading := false;
    }

    /** `handleClear`. */
    method Clear()
      modifies this
      ensures Snapshot() == AfterClear(old(Snapshot())) && Valid()
    {
      coordinates := None;
      weather := None;
      error := None;
    }
  }
}
