# clima-app in Dafny

A model of the deterministic core of a small React weather application. A user
types a city name. The app resolves it to coordinates through the Open-Meteo
geocoding service, then fetches the current weather for those coordinates. It
shows a map and a weather card. The model covers:

- `App` — the search state machine (`loading`, `error`, `coordinates`,
  `weather`), the search and clear handlers, and the render guards. A class
  `App.Page` holds the four state variables. Its methods are specified by the
  pure functions `App.AfterSearch` and `App.AfterClear`, and the properties
  are lemmas about those functions. A search takes the outcomes of its two
  lookups (a value, `null`, or a thrown error) as parameters.
- `Api` — `getCoordinates` and `getWeather`. The result of `fetch` and
  `response.json()` is an input, so both become total functions. Every failure
  ends in `None`.
- `WeatherCard` — the WMO weather-code classifier. It is proved equal to a
  lookup in a table of disjoint inclusive ranges.
- `SearchBar` — the text-field state, the trim-and-submit rule, the clear rule,
  and the disabled and caption expressions.
- `EnvironmentBanner` — the empty-label guard and the colour rule. The rule is
  a case-insensitive substring test in which "dev" wins over "qa".
- `AnimatedBackground` — the slide index advanced modulo 4 by each timer tick,
  and the rendered slides, exactly one of them active.
- `ApiMonitor` — the end-to-end tests' monitor: the URL filter, the
  start-time map, the response log, status classification, and the filters
  over the log.
- `Text` — JavaScript `trim`, `toLowerCase` and `includes`, with their
  properties. `Wrappers` holds the `Option` type used for `null`.

## Behaviour worth knowing

- "Not found" and "lookup failed" are not told apart. A non-ok status, a
  thrown `fetch` or `json()`, and an empty result list all return `null`, and
  the search handler then shows the not-found message.
  `App.ServicesNeverReachCatch` proves that, with these services, the
  handler's generic-error branch is never reached.
- Nothing stops an older search from overwriting a newer one: there is no
  request token and no cancellation. The page relies on the search bar
  disabling its controls while loading (`App.PendingSearchDisablesControls`).
  `App.Page.Search` is atomic, and no staleness guarantee is claimed.
- A failed weather fetch does not show the generic error. `getWeather` turns
  every failure into `null`, so the message is "No se pudo obtener el clima".

## Model

| member | source | states |
|---|---|---|
| `Text.TrimEmptyIff` | src/components/SearchBar.tsx:15 | `input.trim()` is empty (falsy) exactly when every character of the input is whitespace |
| `Text.TrimIsTrimmed` | src/components/SearchBar.tsx:16 | the trimmed text neither starts nor ends with whitespace |
| `Text.TrimIsSlice` | src/components/SearchBar.tsx:16 | the trimmed text is a contiguous piece of the input, and only whitespace was cut from either end |
| `Text.TrimIdempotent` | src/components/SearchBar.tsx:16 | trimming twice gives the same text as trimming once |
| `Text.LowerChar` | src/components/EnvironmentBanner.tsx:10 | the lowered character is never an upper-case letter; an upper-case letter becomes the lower-case letter at the same place in the alphabet; every other character is kept |
| `Text.LowerIdempotent` | src/components/EnvironmentBanner.tsx:10 | lowering an already lowered label changes nothing |
| `Text.ContainsIff` | src/components/EnvironmentBanner.tsx:11-12 | `includes` holds exactly when the needle occurs at some position of the text |
| `Api.GetCoordinates` | src/services/api.ts:14-43 | a place results exactly when the fetch did not throw, the response is ok, the body decoded, and `results` is present and non-empty; every other case gives null, and nothing throws |
| `Api.CoordinatesNotOk` | src/services/api.ts:20-23 | a non-ok geocoding response gives null whatever its body |
| `Api.CoordinatesFromFirstResult` | src/services/api.ts:32-38 | the place is the first result with latitude→lat, longitude→lon, name and country copied; the later results do not affect it |
| `Api.CoordinatesRoundTrip` | src/services/api.ts:32-38 | any place comes back unchanged from an ok response whose one result encodes it |
| `Api.GetWeather` | src/services/api.ts:45-65 | weather results exactly when the fetch did not throw, the body decoded and `current_weather` is present; the ok flag plays no part; nothing throws |
| `Api.GeoTestMockWithoutOk` | src/services/api.test.ts:22-32 | the test's mock response, which has no `ok` field, gives null as the code is written |
| `Api.GeoTestMockWithOk` | src/services/api.test.ts:22-32 | the same mock with `ok` true gives exactly the coordinates the test expects |
| `Api.WeatherIgnoresStatus` | src/services/api.ts:47-54 | the weather result is the same for any ok flag and status |
| `Api.WeatherRoundTrip` | src/services/api.ts:56-60 | any weather record comes back unchanged from a body whose `current_weather` encodes it (windspeed→windSpeed, weathercode→weatherCode) |
| `WeatherCard.TableDisjoint` | src/components/WeatherCard.tsx:13-19 | the code ranges are pairwise disjoint |
| `WeatherCard.DescriptionInRange` | src/components/WeatherCard.tsx:12-19 | each code in an inclusive range (0, 1-3, 45-48, 51-55, 61-65, 71-75, 80-82, 95-99) gets that range's label |
| `WeatherCard.DescriptionOutOfRange` | src/components/WeatherCard.tsx:20 | a code in no range (999, negatives, 4-44, ...) gets "Desconocido" |
| `WeatherCard.LookupFindsRow` | src/components/WeatherCard.tsx:11-21 | in a table of disjoint ranges, the row holding the code decides the lookup, whatever the row order |
| `WeatherCard.LookupDefault` | src/components/WeatherCard.tsx:20 | a code in no row of the table looks up to "Desconocido" |
| `WeatherCard.DescriptionIsLookup` | src/components/WeatherCard.tsx:11-21 | the chain of range tests equals the table lookup for every integer code, so it is total and exactly one branch applies |
| `WeatherCard.LabelsDistinct` | src/components/WeatherCard.tsx:12-20 | the nine labels are pairwise distinct, so a label identifies its range |
| `WeatherCard.DescriptionExamples` | src/components/WeatherCard.tsx:12-20 | 0 is "Despejado", every code in 61-65 is "Lluvia", and 999 is "Desconocido" |
| `WeatherCard.ConditionDependsOnCodeOnly` | src/components/WeatherCard.tsx:38 | two weather records with the same code show the same condition text |
| `SearchBar.SubmitDisabledIff` | src/components/SearchBar.tsx:34 | the submit button is disabled exactly when loading or when the input is all whitespace |
| `SearchBar.ControlsWhileLoading` | src/components/SearchBar.tsx:32-37 | while loading, all three controls are disabled and the caption is "..."; otherwise the field and the clear button are enabled and the caption is "Buscar" |
| `SearchBar.Form.constructor` | src/components/SearchBar.tsx:11 | the input starts empty |
| `SearchBar.Form.Change` | src/components/SearchBar.tsx:30 | typing replaces the input with the new value |
| `SearchBar.Form.Submit` | src/components/SearchBar.tsx:13-18 | a non-blank input triggers exactly one search, with the trimmed text; a blank input triggers none; the searched text is non-empty, trimmed, and a fixed point of trim |
| `SearchBar.Form.Clear` | src/components/SearchBar.tsx:20-23 | the input becomes empty and the clear callback is called exactly once |
| `SearchBar.SubmitWhenEnabled` | src/components/SearchBar.tsx:13-34 | when the submit button is enabled, submitting searches exactly once for the trimmed input |
| `EnvironmentBanner.RenderIff` | src/components/EnvironmentBanner.tsx:6-19 | a missing or empty label renders nothing; any other label renders a banner whose text is the label verbatim |
| `EnvironmentBanner.BackgroundColorByContains` | src/components/EnvironmentBanner.tsx:9-14 | red exactly when the lowercased label includes "dev"; orange when it includes "qa" but not "dev"; blue otherwise |
| `EnvironmentBanner.BackgroundColorCases` | src/components/EnvironmentBanner.tsx:9-14 | the same three colour classes, stated by where "dev" and "qa" occur in the lowercased label |
| `EnvironmentBanner.DevBeatsQa` | src/components/EnvironmentBanner.tsx:11-12 | a label containing both "dev" and "qa" is red |
| `EnvironmentBanner.ColorIgnoresCase` | src/components/EnvironmentBanner.tsx:10 | a label and its lowercase form get the same colour |
| `EnvironmentBanner.DevPrefixIsRed` | src/components/EnvironmentBanner.tsx:10-11 | any label starting with "DEV" is red |
| `EnvironmentBanner.QaPrefixIsOrange` | src/components/EnvironmentBanner.tsx:10-12 | a label starting with "QA" and without the letter d is orange |
| `EnvironmentBanner.ColorExamples` | src/components/EnvironmentBanner.tsx:6-13 | "DEV ENVIRONMENT" is red, "QA TESTING" is orange, and the empty label renders nothing |
| `AnimatedBackground.Next` | src/components/AnimatedBackground.tsx:16 | from any non-negative index the successor is a valid slide index in [0, 4): one more, or 0 after the last slide |
| `AnimatedBackground.AfterTicksIsMod` | src/components/AnimatedBackground.tsx:12-16 | after n ticks from the initial 0, the index is n mod 4 |
| `AnimatedBackground.FourTicksCycle` | src/components/AnimatedBackground.tsx:16 | four more ticks return to the same slide |
| `AnimatedBackground.ExactlyOneActive` | src/components/AnimatedBackground.tsx:4-27 | four slides are rendered, one per image in order, and for an index in range exactly that slide is active |
| `AnimatedBackground.Background.constructor` | src/components/AnimatedBackground.tsx:12 | the index starts at 0 |
| `AnimatedBackground.Background.Tick` | src/components/AnimatedBackground.tsx:15-17 | a tick sets the index to (prev + 1) mod 4, keeps it in range, and keeps it equal to the tick count mod 4 |
| `App.SearchNotFound` | src/App.tsx:23-28 | no coordinates: the not-found message naming the city in quotes, no place, no weather, not loading |
| `App.SearchFound` | src/App.tsx:30-35 | both lookups succeed: exactly those coordinates and weather, no error, not loading |
| `App.SearchWeatherMissing` | src/App.tsx:30-37 | coordinates but no weather: the place stays set, there is no weather, and the message is "No se pudo obtener el clima" |
| `App.SearchThrows` | src/App.tsx:40-45 | a thrown lookup: the generic message, no weather, not loading; the coordinates are the pre-search ones if the coordinate lookup threw, else the found ones |
| `App.SearchLoading` | src/App.tsx:18-45 | loading is on, and error and weather are cleared, while the lookups are pending; loading is off after every outcome |
| `App.SearchSucceedsIff` | src/App.tsx:17-46 | a search ends without an error, and with weather, exactly when both lookups produced a value |
| `App.SearchConsistent` | src/App.tsx:17-46 | from any state, a search leaves weather only alongside coordinates |
| `App.ClearResets` | src/App.tsx:48-52 | clearing nulls coordinates, weather and error, leaves loading unchanged, and keeps the state consistent |
| `App.ServicesNeverReachCatch` | src/App.tsx:40-42 | with the real services, which never reject, no search ends with the generic error message |
| `App.PendingSearchDisablesControls` | src/App.tsx:62 | while a search is pending, the search bar's submit, field and clear controls are disabled |
| `App.RenderCardWithMap` | src/App.tsx:66-82 | the card is shown only with the map, under the same "name, country" caption; in a consistent state the card is shown exactly when there is weather |
| `App.SearchErrorShown` | src/App.tsx:64 | every message a search sets is non-empty, so it is rendered |
| `App.Page.constructor` | src/App.tsx:12-15 | the state starts not loading, with no error, no coordinates and no weather |
| `App.Page.Start` | src/App.tsx:18-20 | the first steps of a search turn loading on and clear the error and the weather, keeping the coordinates |
| `App.Page.Search` | src/App.tsx:17-46 | the new state is the search's settled state for the given outcomes, the invariant holds, and a weather lookup is made, at the found lat/lon, exactly when coordinates were found |
| `App.Page.Clear` | src/App.tsx:48-52 | the new state is the cleared state, and the invariant holds |
| `ApiMonitor.ShouldMonitorIff` | e2e/helpers/api-monitor.ts:84-86 | a URL is monitored exactly when some pattern is a substring of it |
| `ApiMonitor.RequestThenResponse` | e2e/helpers/api-monitor.ts:25-79 | a monitored request at t0 (non-zero) followed by its response at t1 appends exactly one record, with duration t1 - t0, after the earlier records, and forgets the request's start time |
| `ApiMonitor.ResponseWithoutRequest` | e2e/helpers/api-monitor.ts:45-79 | a monitored response whose request was never recorded is logged without a duration, and the start times are unchanged |
| `ApiMonitor.StatusEmojiPartition` | e2e/helpers/api-monitor.ts:88-94 | each emoji corresponds to exactly one status class: [200,300), [300,400), [400,500), 500 and above, below 200 |
| `ApiMonitor.FailedCallsMembers` | e2e/helpers/api-monitor.ts:106-108 | the failed calls are exactly the logged calls with status 400 or above |
| `ApiMonitor.FailedCallsAppend` | e2e/helpers/api-monitor.ts:106-108 | filtering distributes over concatenation, so it keeps the recorded order |
| `ApiMonitor.SummaryCounts` | e2e/helpers/api-monitor.ts:124-125 | no call counts as both successful and failed; the two counts add up to the total exactly when no status is below 200 |
| `ApiMonitor.AllSuccessfulIff` | e2e/helpers/api-monitor.ts:113-115 | all calls are successful exactly when none failed and none has a status below 200 |
| `ApiMonitor.Monitor.constructor` | e2e/helpers/api-monitor.ts:15-18 | a new monitor has the given patterns (by default just "open-meteo.com"), an empty log and no start times |
| `ApiMonitor.Monitor.OnRequest` | e2e/helpers/api-monitor.ts:24-28 | a monitored request records `now` under `${method}-${url}`; an unmonitored one changes nothing; the log is untouched |
| `ApiMonitor.Monitor.OnResponse` | e2e/helpers/api-monitor.ts:44-80 | a monitored response appends exactly one record with that method, url, status and duration after the earlier records, and deletes its key; an unmonitored one changes nothing |
| `ApiMonitor.Monitor.GetApiCalls` | e2e/helpers/api-monitor.ts:99-101 | returns the logged calls in order as a new sequence; changing that sequence does not change the log |
| `ApiMonitor.Monitor.GetFailedCalls` | e2e/helpers/api-monitor.ts:106-108 | returns exactly the logged calls with status at least 400, in recorded order |
| `ApiMonitor.Monitor.AllCallsSuccessful` | e2e/helpers/api-monitor.ts:113-115 | true exactly when every logged status is in [200, 400), including for an empty log |
| `ApiMonitor.Monitor.Clear` | e2e/helpers/api-monitor.ts:163-166 | empties both the log and the start-time map |

## Left out

- Networking: `fetch`, `response.json()`, and URL construction (`encodeURIComponent`, lat/lon interpolated into the forecast URL). The response (ok flag, status, decoded or undecodable body) or a transport error is an input.
- JSON shapes: a decoded body is assumed to have the documented shape. A `results` that is not a list, or a body of `null`, is outside the model. Result elements always carry their four fields.
- Numbers: latitude, longitude, temperature and wind speed are JavaScript floats that are only copied. They are modelled as `real`. The weather code is an `int`.
- Overlapping searches: `App.Page.Search` runs as one atomic step. Interleavings of two pending searches, and the absence of a staleness guard, are not modelled.
- Logging: `console.error` and `console.warn` in the services and the search handler, and the monitor's `process.stdout` writes.
- Rendering: React, JSX, CSS, the page title and subtitle, and `src/components/MapView.tsx` (a Leaflet wrapper with no logic of its own). `src/main.tsx` and its title rule, and `test-data.config.ts`, are not part of this model.
- Timer lifecycle: `setInterval` with its 6-second period and `clearInterval` on unmount. Each tick is a call of `AnimatedBackground.Background.Tick`.
- Monitor I/O: `printSummary` (float averaging, `toFixed`, text layout), the Playwright `page.on` wiring, request body logging, response-body capture, and the record's ISO `timestamp`. The clock is the `now` parameter.
- ApiMonitor.Monitor.OnResponse: runs as one atomic step, but the listener is `async`. It reads the start time (line 47), awaits `response.json()` (line 63), and only then appends (line 69) and deletes the key (line 79). So the model does not capture two behaviours. First, JSON responses can be logged in a different order from the order they arrived in. Second, a request for the same `${method}-${url}` recorded during that await has its start time deleted at line 79.
- AnimatedBackground.Next: requires a non-negative index. Dafny's `%` is Euclidean and JavaScript's truncates, so the two differ only for negative indices, which the component never holds.
- ApiMonitor.Monitor.GetApiCalls: the source's copy (`[...this.apiCalls]`) is shallow. It returns the logged record objects themselves, so a caller can change a record's fields, and with them what `getFailedCalls` and `allCallsSuccessful` report. In the model records are values, so this aliasing is not captured.
- Environment: `import.meta.env.VITE_ENV_LABEL` is the parameter of `EnvironmentBanner.Render`.
- Text.Lower: lowers ASCII letters only, whereas JavaScript `toLowerCase` applies full Unicode case mapping. Labels with non-ASCII capitals may be classified differently.
- Text.IsWhitespace: uses ECMAScript's WhiteSpace and LineTerminator code points as of current Unicode. Later Unicode versions may add space separators.

## Findings

| source | as written | input that shows it | evidently intended | confidence | as-written member | corrected member |
|---|---|---|---|---|---|---|
| src/services/api.test.ts:22-32 | the "valid city" test mocks `fetch` with an object that has no `ok` field; `!response.ok` (src/services/api.ts:20) is then true, so `getCoordinates` returns null while the test expects the coordinates | the mock `{ json: ... }` with results `[{latitude: 10, longitude: 20, name: "Test City", country: "Test Country"}]` | the mock reports a successful response (`ok: true`); the service code itself is right | high (not executed) | `Api.GeoTestMockWithoutOk` | `Api.GeoTestMockWithOk` |
