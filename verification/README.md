# Kenya weather search: a Dafny model of its logic

The system is a React page backed by a small Flask service. A user searches a
place name. The service asks the Open-Meteo geocoder, prefers results in Kenya,
and returns locations. The page auto-selects a single result or offers a picker
for several, then fetches current conditions and a forecast for the chosen
coordinates. A country map looks up twenty fixed towns one after the other,
colours each marker by temperature and shows count, hottest, coolest and
average. Weather codes (the WMO weather interpretation codes Open-Meteo
reports, a subset of WMO code table 4677) are bucketed into glyphs and
described by lookup tables.

The model has one module per source file, plus four shared ones:

- `Wrappers`: `Option` and `Result`.
- `Records`: the JSON records the page consumes.
- `WeatherCodes`: the range table `InBand` and the first-match `Classify` that the
  three emoji functions share.
- `CodeTables`: lemmas relating the copies of the code tables across files.
- `BackendApp` (backend/app.py): pure functions for validation, the Kenya filter,
  the result mapping and the description table; an imperative method for the
  forecast loop.
- `KenyaWeatherMap`: a class `MapOverview` holding `weatherPoints`/`loading`. Its
  batch loop is proved against the specification function `Collected`. The
  colour band and the statistics are pure functions.
- `AppShell` (App.jsx): a class `App` with the six state fields and one method per
  handler.
- `WeatherDisplay`, `ForecastCard`: pure rendering decisions.
- `SearchBar`: a class for the `searchTerm` state; the submit guard is a pure
  function over a model of `String.prototype.trim`.

Network calls are parameters:

- The map batch takes one `Option<Conditions>` per town (`None` = the lookup threw).
- The shell takes the backend as two functions, term → outcome and (latitude,
  longitude) → outcome. So the weather fetch is visibly made for the selected
  location's coordinates.
- The backend takes the decoded upstream JSON, or the text of the exception the
  upstream call raised. A missing required key raises Python's `KeyError`, and
  a column shorter than `time` raises `IndexError`. Both become a 500 whose message
  is `str(e)` (`'name'`, `list index out of range`).

On three points the model follows the code, where one might expect otherwise:

- An empty geocoding result is answered by the backend with a 404 (backend/app.py:37-38).
  The page reports that as the search failure. Its "No locations found" branch is reached
  only by a 200 whose `locations` list is missing or empty. Both branches are modelled as
  the page states them.
- The forecast has one record per entry of `daily.time`, not a fixed seven.
- A failed weather fetch does not clear previously stored weather. Its new state keeps
  `weatherData` as it was. `App.PickerHasNoWeather` shows that the picker is only on
  screen when no weather is stored.

## Model

| member | source | states |
|---|---|---|
| `WeatherCodes.Classify` | frontend/weather-testing-app/src/components/KenyaWeatherMap.jsx:72-81 | a code gets a bucket whose range holds it, and the default bucket only when no range (0–1, 2–3, 45–48, 51–67, 71–77, 80–82, ≥95) holds it |
| `WeatherCodes.ClassifyByBand` | frontend/weather-testing-app/src/components/KenyaWeatherMap.jsx:73-79 | the ranges are disjoint: a code in a range is classified by that range whatever the test order |
| `WeatherCodes.FallbackCodes` | frontend/weather-testing-app/src/components/KenyaWeatherMap.jsx:80 | the default glyph is used exactly for negative codes and 4–44, 49–50, 68–70, 78–79, 83–94 |
| `WeatherCodes.ThunderstormOpenEnded` | frontend/weather-testing-app/src/components/ForecastCard.jsx:9 | every code ≥ 95, above 99 too, is a thunderstorm |
| `KenyaWeatherMap.WeatherEmoji` | frontend/weather-testing-app/src/components/KenyaWeatherMap.jsx:72-81 | the map's if-chain returns the glyph of the bucket `Classify` assigns |
| `ForecastCard.WeatherEmoji` | frontend/weather-testing-app/src/components/ForecastCard.jsx:2-11 | the card's if-chain returns the glyph of the bucket `Classify` assigns |
| `WeatherDisplay.WeatherEmoji` | frontend/weather-testing-app/src/components/WeatherDisplay.jsx:4-13 | the panel's if-chain returns its own (mis-encoded) glyph of the bucket `Classify` assigns |
| `ForecastCard.GlyphInjective` | frontend/weather-testing-app/src/components/ForecastCard.jsx:3-10 | the card's eight glyphs are pairwise distinct |
| `WeatherDisplay.GlyphInjective` | frontend/weather-testing-app/src/components/WeatherDisplay.jsx:5-12 | the panel's eight glyphs are pairwise distinct |
| `CodeTables.EmojiCopiesAgree` | frontend/weather-testing-app/src/components/WeatherDisplay.jsx:4-13 | the map and card copies return the same glyph for every code; the panel copy picks the same bucket |
| `KenyaWeatherMap.TemperatureColor` | frontend/weather-testing-app/src/components/KenyaWeatherMap.jsx:62-70 | the colour is that of the band holding the temperature: ≥35 red, [30,35) orange, [25,30) yellow, [20,25) light green, [15,20) green, <15 blue |
| `KenyaWeatherMap.TemperatureColorMonotone` | frontend/weather-testing-app/src/components/KenyaWeatherMap.jsx:62-70 | a warmer reading never gets a colder band |
| `KenyaWeatherMap.PointAt` | frontend/weather-testing-app/src/components/KenyaWeatherMap.jsx:46-49 | a point keeps the town's name and coordinates and attaches the fetched conditions |
| `KenyaWeatherMap.SuccessIndices` | frontend/weather-testing-app/src/components/KenyaWeatherMap.jsx:43-56 | the positions whose lookup succeeded, each a success, strictly increasing |
| `KenyaWeatherMap.SuccessIndicesComplete` | frontend/weather-testing-app/src/components/KenyaWeatherMap.jsx:43-56 | every successful position is among the success positions |
| `KenyaWeatherMap.AllSucceeded` | frontend/weather-testing-app/src/components/KenyaWeatherMap.jsx:44-55 | there are as many success positions as towns exactly when no lookup failed |
| `KenyaWeatherMap.Collected` | frontend/weather-testing-app/src/components/KenyaWeatherMap.jsx:43-56 | the batch result for given outcomes never has more points than towns |
| `KenyaWeatherMap.CollectedAt` | frontend/weather-testing-app/src/components/KenyaWeatherMap.jsx:43-49 | point k is the town at the k-th successful position with that lookup's conditions: an in-order subsequence of the successes |
| `KenyaWeatherMap.CollectedCount` | frontend/weather-testing-app/src/components/KenyaWeatherMap.jsx:44-55 | the number of points equals the number of success positions, at most the number of towns, and equals it only when no lookup failed |
| `KenyaWeatherMap.FailureDropsOnlyThatTown` | frontend/weather-testing-app/src/components/KenyaWeatherMap.jsx:53-55 | a failed lookup removes only that town's point; the points before and after are unchanged and the loop goes on |
| `KenyaWeatherMap.CollectedAppend` | frontend/weather-testing-app/src/components/KenyaWeatherMap.jsx:43-56 | collecting over two town lists one after the other is collecting over each and concatenating: the batch is compositional over the town list |
| `KenyaWeatherMap.MapOverview.constructor` | frontend/weather-testing-app/src/components/KenyaWeatherMap.jsx:7-8 | initially no points and `loading` true |
| `KenyaWeatherMap.MapOverview.FetchAllWeather` | frontend/weather-testing-app/src/components/KenyaWeatherMap.jsx:38-60 | `loading` is true throughout the loop; afterwards `weatherPoints` is exactly `Collected` of the twenty towns and `loading` is false |
| `KenyaWeatherMap.Temperatures` | frontend/weather-testing-app/src/components/KenyaWeatherMap.jsx:203 | the i-th temperature is that of the i-th point |
| `KenyaWeatherMap.Hottest` | frontend/weather-testing-app/src/components/KenyaWeatherMap.jsx:203 | the maximum is ≥ every temperature and is one of them |
| `KenyaWeatherMap.Coolest` | frontend/weather-testing-app/src/components/KenyaWeatherMap.jsx:209 | the minimum is ≤ every temperature and is one of them |
| `KenyaWeatherMap.Sum` | frontend/weather-testing-app/src/components/KenyaWeatherMap.jsx:215 | the reduce starts from 0: no readings total 0 |
| `KenyaWeatherMap.SumFromFront` | frontend/weather-testing-app/src/components/KenyaWeatherMap.jsx:215 | the left-to-right total equals the first reading plus the total of the rest, so the order of addition does not change it |
| `KenyaWeatherMap.SumBounds` | frontend/weather-testing-app/src/components/KenyaWeatherMap.jsx:215 | a sum of n values in [lo, hi] lies in [n·lo, n·hi] |
| `KenyaWeatherMap.MeanWithin` | frontend/weather-testing-app/src/components/KenyaWeatherMap.jsx:215 | the mean of values in [lo, hi] lies in [lo, hi] |
| `KenyaWeatherMap.DivideBounds` | frontend/weather-testing-app/src/components/KenyaWeatherMap.jsx:215 | dividing the bounds by a positive count keeps the order |
| `KenyaWeatherMap.Summarize` | frontend/weather-testing-app/src/components/KenyaWeatherMap.jsx:196-217 | for a non-empty list: count = length, hottest/coolest bound every temperature and are attained by some point, average = sum / length |
| `KenyaWeatherMap.AverageBetweenExtremes` | frontend/weather-testing-app/src/components/KenyaWeatherMap.jsx:200-216 | the average tile lies between the coolest and hottest tiles |
| `ForecastCard.Render` | frontend/weather-testing-app/src/components/ForecastCard.jsx:18-41 | the card shows the day's glyph and max then min temperature as given, and a precipitation line exactly when precipitation > 0 |
| `WeatherDisplay.WeatherDescription` | frontend/weather-testing-app/src/components/WeatherDisplay.jsx:15-26 | the table entry for the 21 listed codes, "Unknown" for every other code |
| `WeatherDisplay.UnlistedSnowCodes` | frontend/weather-testing-app/src/components/WeatherDisplay.jsx:21-23 | 77, 85 and 86 read "Unknown" here, while 77 still classifies as snow |
| `WeatherDisplay.Cards` | frontend/weather-testing-app/src/components/WeatherDisplay.jsx:75-77 | one card per forecast entry, in order |
| `WeatherDisplay.Render` | frontend/weather-testing-app/src/components/WeatherDisplay.jsx:28-81 | nothing for null weather data; otherwise the location, the current values with the code's glyph and description, and one card per day in order |
| `CodeTables.DescriptionTablesDiffer` | frontend/weather-testing-app/src/components/WeatherDisplay.jsx:16-24 | the panel's table is the backend's minus codes 77, 85 and 86 |
| `CodeTables.DescriptionsAgreeElsewhere` | frontend/weather-testing-app/src/components/WeatherDisplay.jsx:25 | panel and backend describe every code alike except 77, 85, 86, which only the backend names |
| `CodeTables.DescribedCodesClassified` | backend/app.py:116-141 | of the 24 described codes, exactly 85 and 86 get the default glyph |
| `SearchBar.TrimStart` | frontend/weather-testing-app/src/components/SearchBar.jsx:9 | leading white space is removed, and only that |
| `SearchBar.TrimEnd` | frontend/weather-testing-app/src/components/SearchBar.jsx:9 | trailing white space is removed, and only that |
| `SearchBar.Trim` | frontend/weather-testing-app/src/components/SearchBar.jsx:9 | `trim()` removes the white space at both ends, and only that: the result is the piece of the term after its leading white space, everything outside it is white space, and it neither starts nor ends with white space |
| `SearchBar.TrimEmptyIff` | frontend/weather-testing-app/src/components/SearchBar.jsx:9 | the trimmed term is empty exactly when every character is JavaScript white space |
| `SearchBar.SearchCalls` | frontend/weather-testing-app/src/components/SearchBar.jsx:7-12 | `onSearch` is called once with the untrimmed term when it has a non-white-space character, and never otherwise |
| `SearchBar.SearchForm.constructor` | frontend/weather-testing-app/src/components/SearchBar.jsx:5 | the box starts empty |
| `SearchBar.SearchForm.HandleChange` | frontend/weather-testing-app/src/components/SearchBar.jsx:20 | `searchTerm` holds the latest input |
| `SearchBar.SearchForm.HandleSubmit` | frontend/weather-testing-app/src/components/SearchBar.jsx:7-12 | the default submission is always prevented; the calls are those of `SearchCalls`, at most one |
| `SearchBar.SearchForm.Render` | frontend/weather-testing-app/src/components/SearchBar.jsx:17-35 | the input shows `searchTerm`; input and button are disabled, and the spinner shown, exactly while loading |
| `AppShell.Listed` | frontend/weather-testing-app/src/App.jsx:26 | the answer's location list, or none when it is missing |
| `AppShell.App.constructor` | frontend/weather-testing-app/src/App.jsx:9-14 | nothing loading, listed, selected, fetched or in error; map hidden |
| `AppShell.App.StartSearch` | frontend/weather-testing-app/src/App.jsx:16-21 | a search first clears error, locations, weather and selection and sets `loading` |
| `AppShell.App.HandleLocationSelect` | frontend/weather-testing-app/src/App.jsx:44-61 | selects the location and fetches weather for its coordinates; success stores it with no error; failure keeps the selection and stored weather and sets the weather error; `loading` ends false |
| `AppShell.App.HandleSearch` | frontend/weather-testing-app/src/App.jsx:16-42 | failure: search error; no or empty list: "No locations found"; one: listed, selected and its weather fetched; several: all listed, none selected; the picker shows exactly for several, the welcome panel never; `loading` ends false |
| `AppShell.App.ToggleMap` | frontend/weather-testing-app/src/App.jsx:77 | flips `showMap` and nothing else |
| `AppShell.App.PickerHasNoWeather` | frontend/weather-testing-app/src/App.jsx:111 | while the picker is shown no weather is stored and the weather panel is hidden |
| `AppShell.App.ShowsError` | frontend/weather-testing-app/src/App.jsx:103 | the error box is shown when an error is set, and then the welcome panel is not |
| `AppShell.App.ShowsPicker` | frontend/weather-testing-app/src/App.jsx:111 | the picker (more than one location, none selected) is never beside the weather panel or the welcome panel |
| `AppShell.App.ShowsWeather` | frontend/weather-testing-app/src/App.jsx:146-151 | the weather panel is mounted only with a location and weather data, so `WeatherDisplay` then renders a panel rather than nothing |
| `AppShell.App.ShowsWelcome` | frontend/weather-testing-app/src/App.jsx:154 | the welcome panel (idle, no weather, no error, no locations) is never beside the weather panel |
| `BackendApp.Blank` | backend/app.py:22 | a missing argument and an empty one are treated alike as absent (`not location`) |
| `BackendApp.KenyaResults` | backend/app.py:41 | exactly the results whose country is "Kenya" |
| `BackendApp.KenyaResultsAppend` | backend/app.py:41 | the filter keeps the original order (it distributes over concatenation) |
| `BackendApp.SelectResults` | backend/app.py:42 | the Kenyan results if any, else the first min(5, n) results in order; never empty for non-empty input |
| `BackendApp.ToLocation` | backend/app.py:45-51 | copies name, latitude, longitude; the first of them missing, in that order, gives its `KeyError` text (`'name'`, `'latitude'`, `'longitude'`); country defaults to "Unknown", admin1 to "" |
| `BackendApp.ToLocations` | backend/app.py:44-52 | one location per selected result in order, or the KeyError of the first result lacking a required key |
| `BackendApp.SearchLocation` | backend/app.py:17-55 | 400 for a missing or empty `location` whatever upstream says; 500 with the exception text on an upstream exception; 404 for absent or empty `results`; otherwise served exactly when every selected result has its required keys, with the mapped selection, and else a 500 with the first failing result's `KeyError` text |
| `BackendApp.CurrentOf` | backend/app.py:81-92 | each current field is copied under its new name, null when absent |
| `BackendApp.Dates` | backend/app.py:97 | the loop's dates are `daily['time']` when `daily` has a `time` column, and none otherwise |
| `BackendApp.Cell` | backend/app.py:101-104 | a cell is read when its column exists and is long enough; a missing column gives its `KeyError` text, a short one "list index out of range" |
| `BackendApp.DayAt` | backend/app.py:99-105 | day i is built from the i-th cell of every column; otherwise the error is that of the first failing cell in the order max, min, precipitation, code |
| `BackendApp.AssembleForecast` | backend/app.py:96-105 | the loop yields one record per date in order, each `DayAt` of its index, or stops with the first index's error |
| `BackendApp.AssembledFromColumns` | backend/app.py:97-105 | with all columns present and long enough, record i has the i-th element of every column |
| `BackendApp.NoDatesNoForecast` | backend/app.py:97 | without `daily` or without `time` in it the forecast is empty |
| `BackendApp.GetWeather` | backend/app.py:57-110 | 400 for a missing or empty `lat` or `lon`; 500 on an upstream exception or a failing forecast row; otherwise the renamed current block and the assembled forecast |
| `BackendApp.GetWeatherDescription` | backend/app.py:113-146 | echoes the code, with the table entry for the 24 listed codes and "Unknown" otherwise |

## Left out

- HTTP, Flask routing, JSON encoding, CORS and the axios client (frontend/weather-testing-app/src/services/weatherAPI.js) are not modelled. Their results are parameters.
- The health endpoint (backend/app.py:13-15) is a constant answer and is not modelled.
- Asynchronous interleaving is not modelled. Each handler runs to completion. `handleLocationSelect` is not awaited inside `handleSearch`, so the real page clears `loading` before the weather arrives; the settled state is the same. Superseded requests are not cancelled in the source, and the model does not explore their orderings.
- The 100 ms pause between map lookups and all `console.error` logging are not modelled.
- JSX markup, Tailwind classes, Leaflet map, tiles, markers, popups and legend are not modelled. Glyphs and colours are display strings, compared only for equality.
- Date formatting with `toLocaleDateString` and rounding with `toFixed` are locale and floating-point behaviour. Cards keep the raw date string; temperatures are exact reals.
- KenyaWeatherMap.Summarize, KenyaWeatherMap.Hottest, KenyaWeatherMap.Coolest: require a non-empty list. For an empty list the page computes `Math.max()` = -Infinity, `Math.min()` = Infinity and a NaN average, which the model does not represent.
- Frontend records have plain numeric fields. The backend may send `null` for an absent current field, which JavaScript would coerce in comparisons and sums; this is not modelled.
- An explicit JSON `null` is not modelled. The source passes a null leaf value through: a result's name, latitude or longitude, or a daily cell. It treats a null `daily` as absent, and answers 500 for a null `current`, `results` or column. Wrong-typed values are not modelled either.
- Weather codes are integers. The JavaScript comparisons on a non-integer or null code are not modelled.
