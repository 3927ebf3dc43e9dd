/** The Flask backend (backend/app.py): parameter checks, the shaping of the
    geocoding and forecast answers of Open-Meteo, and the description table. */
module BackendApp {
  import opened Wrappers
  import opened Records

  /** An HTTP answer: a 200 with a body, or an error status with the text of
      the JSON `error` field. */
  datatype Reply<+T> = Served(body: T) | Failed(status: nat, message: string)

  /** The outcome of one upstream call (`requests.get(...).json()`): the decoded
      JSON, or an exception with its `str(e)` text. */
  datatype Upstream<+T> = Answered(data: T) | Raised(message: string)

  /** A query-string argument is missing or empty (`not location`): Python
      treats `None` and the empty string as false, any other text as true. */
  predicate Blank(arg: Option<string>)
    ensures Blank(arg) <==> arg.GetOr("") == ""
  {
    arg.None? || arg.value == ""
  }

  /** Python's `str(KeyError(key))`: the key in quotes. */
  function KeyErrorText(key: string): string
  {
    "'" + key + "'"
  }

  // ---------------------------------------------------------------------------
  // /api/search-location

  /** One entry of the geocoding `results`; any key may be absent. */
  datatype GeoResult = GeoResult(
    name: Option<string>,
    country: Option<string>,
    admin1: Option<string>,
    latitude: Option<real>,
    longitude: Option<real>)

  /** The decoded geocoding answer; `results` may be absent. */
  datatype GeoAnswer = GeoAnswer(results: Option<seq<GeoResult>>)

  predicate IsKenyan(r: GeoResult)
  {
    r.country == Some("Kenya")
  }

  /** `[r for r in results if r.get('country') == 'Kenya']` */
  function KenyaResults(results: seq<GeoResult>): (kenyan: seq<GeoResult>)
    ensures |kenyan| <= |results|
    ensures forall r :: r in kenyan <==> r in results && IsKenyan(r)
  {
    if |results| == 0 then []
    else (if IsKenyan(results[0]) then [results[0]] else []) + KenyaResults(results[1..])
  }

  /** The filter keeps the original order: filtering a concatenation is
      concatenating the filtered parts. */
  lemma {:induction false} KenyaResultsAppend(a: seq<GeoResult>, b: seq<GeoResult>)
    ensures KenyaResults(a + b) == KenyaResults(a) + KenyaResults(b)
    decreases |a|
  {
    if |a| > 0 {
      assert (a + b)[0] == a[0] && (a + b)[1..] == a[1..] + b;
      KenyaResultsAppend(a[1..], b);
      var head := if IsKenyan(a[0]) then [a[0]] else [];
      assert KenyaResults(a + b) == head + (KenyaResults(a[1..]) + KenyaResults(b));
      assert head + (KenyaResults(a[1..]) + KenyaResults(b)) == (head + KenyaResults(a[1..])) + KenyaResults(b);
    } else {
      assert a + b == b;
    }
  }

  /** `kenya_results if kenya_results else data['results'][:5]`: the Kenyan
      results when there are any, otherwise the first five (or fewer). */
  function SelectResults(results: seq<GeoResult>): (selected: seq<GeoResult>)
    ensures forall r :: r in selected ==> r in results
    ensures KenyaResults(results) != [] ==>
      selected == KenyaResults(results) && forall r :: r in selected ==> IsKenyan(r)
    ensures KenyaResults(results) == [] ==>
      |selected| == (if |results| < 5 then |results| else 5) &&
      selected == results[..|selected|]
    ensures results != [] ==> selected != []
  {
    var kenyan := KenyaResults(results);
    if kenyan != [] then kenyan
    else if |results| <= 5 then results
    else results[..5]
  }

  /** The output record for one result, in the key order of the dict literal:
      `name`, `latitude` and `longitude` are required (a missing one raises a
      KeyError), `country` defaults to "Unknown" and `admin1` to "". */
  function ToLocation(r: GeoResult): (loc: Result<Location, string>)
    ensures loc.Ok? <==> r.name.Some? && r.latitude.Some? && r.longitude.Some?
    ensures loc.Ok? ==>
      loc.value.name == r.name.value && loc.value.latitude == r.latitude.value &&
      loc.value.longitude == r.longitude.value &&
      loc.value.country == r.country.GetOr("Unknown") && loc.value.admin1 == r.admin1.GetOr("")
    ensures r.name.None? ==> loc == Err(KeyErrorText("name"))
    ensures r.name.Some? && r.latitude.None? ==> loc == Err(KeyErrorText("latitude"))
    ensures r.name.Some? && r.latitude.Some? && r.longitude.None? ==>
      loc == Err(KeyErrorText("longitude"))
  {
    if r.name.None? then Err(KeyErrorText("name"))
    else if r.latitude.None? then Err(KeyErrorText("latitude"))
    else if r.longitude.None? then Err(KeyErrorText("longitude"))
    else Ok(Location(r.name.value, r.admin1.GetOr(""), r.country.GetOr("Unknown"),
                     r.latitude.value, r.longitude.value))
  }

  /** The list comprehension over the selected results: one location per result,
      in order, or the error of the first result that lacks a required key. */
  function ToLocations(results: seq<GeoResult>): (locs: Result<seq<Location>, string>)
    ensures locs.Ok? <==> forall i :: 0 <= i < |results| ==> ToLocation(results[i]).Ok?
    ensures locs.Ok? ==>
      |locs.value| == |results| &&
      forall i :: 0 <= i < |results| ==> locs.value[i] == ToLocation(results[i]).value
    ensures locs.Err? ==>
      exists k :: 0 <= k < |results| && ToLocation(results[k]) == Err(locs.error) &&
        forall j :: 0 <= j < k ==> ToLocation(results[j]).Ok?
  {
    if |results| == 0 then Ok([])
    else
      match ToLocation(results[0])
      case Err(e) => Err(e)
      case Ok(first) =>
        match ToLocations(results[1..])
        case Err(e) =>
          assert forall j :: 1 <= j < |results| ==> results[1..][j - 1] == results[j];
          Err(e)
        case Ok(rest) => Ok([first] + rest)
  }

  /** `search_location`: 400 for a missing or empty `location`, whatever the
      upstream service would say; 500 with the exception text when the upstream
      call fails or a result lacks a required key; 404 when there are no results;
      otherwise the selected results as locations. */
  function SearchLocation(location: Option<string>, geocoding: Upstream<GeoAnswer>): (reply: Reply<seq<Location>>)
    ensures Blank(location) ==> reply == Failed(400, "Location parameter is required")
    ensures !Blank(location) && geocoding.Raised? ==> reply == Failed(500, geocoding.message)
    ensures (!Blank(location) && geocoding.Answered? &&
             (geocoding.data.results.None? || geocoding.data.results.value == [])) ==>
      reply == Failed(404, "Location not found")
    ensures reply.Served? ==>
      geocoding.Answered? && geocoding.data.results.Some? &&
      var selected := SelectResults(geocoding.data.results.value);
      |reply.body| == |selected| > 0 &&
      forall i :: 0 <= i < |selected| ==> Ok(reply.body[i]) == ToLocation(selected[i])
    ensures (!Blank(location) && geocoding.Answered? && geocoding.data.results.Some? &&
             geocoding.data.results.value != []) ==>
      var selected := SelectResults(geocoding.data.results.value);
      (reply.Served? <==> forall i :: 0 <= i < |selected| ==> ToLocation(selected[i]).Ok?) &&
      (reply.Failed? ==> reply == Failed(500, ToLocations(selected).error))
    ensures reply.Failed? ==> reply.status in {400, 404, 500}
  {
    if Blank(location) then Failed(400, "Location parameter is required")
    else
      match geocoding
      case Raised(message) => Failed(500, message)
      case Answered(answer) =>
        if answer.results.None? || |answer.results.value| == 0 then Failed(404, "Location not found")
        else
          match ToLocations(SelectResults(answer.results.value))
          case Err(message) => Failed(500, message)
          case Ok(locations) => Served(locations)
  }

  // ---------------------------------------------------------------------------
  // /api/weather

  /** The `current` block of the forecast answer; any key may be absent. */
  datatype CurrentBlock = CurrentBlock(
    temperature2m: Option<real>,
    relativeHumidity2m: Option<real>,
    precipitation: Option<real>,
    weatherCode: Option<int>,
    windSpeed10m: Option<real>,
    time: Option<string>)

  /** The `daily` block: parallel columns, any of which may be absent. */
  datatype DailyBlock = DailyBlock(
    time: Option<seq<string>>,
    temperature2mMax: Option<seq<real>>,
    temperature2mMin: Option<seq<real>>,
    precipitationSum: Option<seq<real>>,
    weatherCode: Option<seq<int>>)

  /** The decoded forecast answer; `current` and `daily` may be absent. */
  datatype ForecastAnswer = ForecastAnswer(current: Option<CurrentBlock>, daily: Option<DailyBlock>)

  /** The `current` object the backend sends: each field copied, `null` when absent. */
  datatype CurrentReport = CurrentReport(
    temperature: Option<real>,
    humidity: Option<real>,
    precipitation: Option<real>,
    windSpeed: Option<real>,
    weatherCode: Option<int>,
    time: Option<string>)

  /** The body the backend sends. */
  datatype WeatherReport = WeatherReport(current: CurrentReport, forecast: seq<ForecastDay>)

  /** `data.get('current', {})` followed by one `.get` per field, renamed. */
  function CurrentOf(current: Option<CurrentBlock>): (report: CurrentReport)
    ensures current.None? ==> report == CurrentReport(None, None, None, None, None, None)
    ensures current.Some? ==>
      report.temperature == current.value.temperature2m &&
      report.humidity == current.value.relativeHumidity2m &&
      report.precipitation == current.value.precipitation &&
      report.windSpeed == current.value.windSpeed10m &&
      report.weatherCode == current.value.weatherCode &&
      report.time == current.value.time
  {
    match current
    case None => CurrentReport(None, None, None, None, None, None)
    case Some(c) => CurrentReport(c.temperature2m, c.relativeHumidity2m, c.precipitation,
                                  c.windSpeed10m, c.weatherCode, c.time)
  }

  /** The dates the forecast loop runs over: `daily['time']` when `daily` is
      present and has a `time` key, otherwise none. */
  function Dates(daily: Option<DailyBlock>): (dates: seq<string>)
    ensures daily.Some? && daily.value.time.Some? ==> dates == daily.value.time.value
    ensures daily.None? || daily.value.time.None? ==> dates == []
  {
    if daily.Some? && daily.value.time.Some? then daily.value.time.value else []
  }

  /** `column[i]` of a column that may be absent: a KeyError when it is, an
      IndexError when the column is shorter than `time`. */
  function Cell<T>(column: Option<seq<T>>, key: string, i: nat): (cell: Result<T, string>)
    ensures cell.Ok? <==> column.Some? && i < |column.value|
    ensures cell.Ok? ==> cell.value == column.value[i]
    ensures column.None? ==> cell == Err(KeyErrorText(key))
    ensures column.Some? && i >= |column.value| ==> cell == Err("list index out of range")
  {
    match column
    case None => Err(KeyErrorText(key))
    case Some(values) =>
      if i < |values| then Ok(values[i]) else Err("list index out of range")
  }

  /** The record appended for day `i`, its cells read in the order of the dict
      literal; the first missing cell raises. */
  function DayAt(daily: DailyBlock, dates: seq<string>, i: nat): (day: Result<ForecastDay, string>)
    requires i < |dates|
    ensures day.Ok? <==>
      Cell(daily.temperature2mMax, "temperature_2m_max", i).Ok? &&
      Cell(daily.temperature2mMin, "temperature_2m_min", i).Ok? &&
      Cell(daily.precipitationSum, "precipitation_sum", i).Ok? &&
      Cell(daily.weatherCode, "weather_code", i).Ok?
    ensures day.Ok? ==> day.value == ForecastDay(
      dates[i], daily.temperature2mMax.value[i], daily.temperature2mMin.value[i],
      daily.precipitationSum.value[i], daily.weatherCode.value[i])
    ensures
      var tmax := Cell(daily.temperature2mMax, "temperature_2m_max", i);
      var tmin := Cell(daily.temperature2mMin, "temperature_2m_min", i);
      var rain := Cell(daily.precipitationSum, "precipitation_sum", i);
      var code := Cell(daily.weatherCode, "weather_code", i);
      (tmax.Err? ==> day == Err(tmax.error)) &&
      (tmax.Ok? && tmin.Err? ==> day == Err(tmin.error)) &&
      (tmax.Ok? && tmin.Ok? && rain.Err? ==> day == Err(rain.error)) &&
      (tmax.Ok? && tmin.Ok? && rain.Ok? && code.Err? ==> day == Err(code.error))
  {
    var tmax := Cell(daily.temperature2mMax, "temperature_2m_max", i);
    var tmin := Cell(daily.temperature2mMin, "temperature_2m_min", i);
    var rain := Cell(daily.precipitationSum, "precipitation_sum", i);
    var code := Cell(daily.weatherCode, "weather_code", i);
    if tmax.Err? then Err(tmax.error)
    else if tmin.Err? then Err(tmin.error)
    else if rain.Err? then Err(rain.error)
    else if code.Err? then Err(code.error)
    else Ok(ForecastDay(dates[i], tmax.value, tmin.value, rain.value, code.value))
  }

  /** What the forecast loop may end with: one record per date, in order, each
      the `DayAt` record of its index; or the error of the first index whose
      record cannot be built. */
  ghost predicate Assembled(daily: Option<DailyBlock>, forecast: Result<seq<ForecastDay>, string>)
  {
    var dates := Dates(daily);
    match forecast
    case Ok(days) =>
      |days| == |dates| &&
      (daily.Some? ==> forall i :: 0 <= i < |dates| ==> DayAt(daily.value, dates, i) == Ok(days[i]))
    case Err(message) =>
      daily.Some? &&
      exists k :: 0 <= k < |dates| && DayAt(daily.value, dates, k) == Err(message) &&
        forall j :: 0 <= j < k ==> DayAt(daily.value, dates, j).Ok?
  }

  /** The forecast loop (`for i in range(len(daily['time']))`), which appends one
      record per date and stops at the first exception. */
  method AssembleForecast(daily: Option<DailyBlock>) returns (forecast: Result<seq<ForecastDay>, string>)
    ensures Assembled(daily, forecast)
  {
    if daily.None? {
      return Ok([]);
    }
    var block := daily.value;
    var dates := Dates(daily);
    var days: seq<ForecastDay> := [];
    var i := 0;
    while i < |dates|
      invariant 0 <= i <= |dates| && |days| == i
      invariant forall j :: 0 <= j < i ==> DayAt(block, dates, j) == Ok(days[j])
    {
      var day := DayAt(block, dates, i);
      if day.Err? {
        return Err(day.error);
      }
      days := days + [day.value];
      i := i + 1;
    }
    forecast := Ok(days);
  }

  /** When every column is present and at least as long as `time`, the forecast
      has one record per date whose fields are the same-index cells of the
      columns. */
  lemma AssembledFromColumns(daily: DailyBlock, forecast: Result<seq<ForecastDay>, string>)
    requires daily.time.Some? && daily.temperature2mMax.Some? && daily.temperature2mMin.Some? &&
             daily.precipitationSum.Some? && daily.weatherCode.Some?
    requires var n := |daily.time.value|;
      n <= |daily.temperature2mMax.value| && n <= |daily.temperature2mMin.value| &&
      n <= |daily.precipitationSum.value| && n <= |daily.weatherCode.value|
    requires Assembled(Some(daily), forecast)
    ensures forecast.Ok? && |forecast.value| == |daily.time.value|
    ensures forall i :: 0 <= i < |daily.time.value| ==> forecast.value[i] == ForecastDay(
      daily.time.value[i], daily.temperature2mMax.value[i], daily.temperature2mMin.value[i],
      daily.precipitationSum.value[i], daily.weatherCode.value[i])
  {
  }

  /** Without a `daily` block, or without `time` in it, the forecast is empty. */
  lemma NoDatesNoForecast(daily: Option<DailyBlock>, forecast: Result<seq<ForecastDay>, string>)
    requires daily.None? || daily.value.time.None?
    requires Assembled(daily, forecast)
    ensures forecast == Ok([])
  {
  }

  /** `get_weather`: 400 when `lat` or `lon` is missing or empty, whatever the
      upstream service would say; 500 with the exception text when the upstream
      call or the forecast loop raises; otherwise the renamed current block and
      the assembled forecast. */
  method GetWeather(lat: Option<string>, lon: Option<string>, upstream: Upstream<ForecastAnswer>)
    returns (reply: Reply<WeatherReport>)
    ensures Blank(lat) || Blank(lon) ==> reply == Failed(400, "Latitude and longitude are required")
    ensures !Blank(lat) && !Blank(lon) && upstream.Raised? ==> reply == Failed(500, upstream.message)
    ensures reply.Served? ==>
      upstream.Answered? &&
      reply.body.current == CurrentOf(upstream.data.current) &&
      Assembled(upstream.data.daily, Ok(reply.body.forecast))
    ensures !Blank(lat) && !Blank(lon) && upstream.Answered? && reply.Failed? ==>
      reply.status == 500 && Assembled(upstream.data.daily, Err(reply.message))
  {
    if Blank(lat) || Blank(lon) {
      return Failed(400, "Latitude and longitude are required");
    }
    match upstream {
      case Raised(message) =>
        reply := Failed(500, message);
      case Answered(data) =>
        var current := CurrentOf(data.current);
        var forecast := AssembleForecast(data.daily);
        match forecast {
          case Ok(days) => reply := Served(WeatherReport(current, days));
          case Err(message) => reply := Failed(500, message);
        }
    }
  }

  // ---------------------------------------------------------------------------
  // /api/weather-description/<int:code>

  /** The backend's description table: 24 codes. */
  const Descriptions: map<int, string> := map[
    0 := "Clear sky", 1 := "Mainly clear", 2 := "Partly cloudy", 3 := "Overcast",
    45 := "Foggy", 48 := "Depositing rime fog",
    51 := "Light drizzle", 53 := "Moderate drizzle", 55 := "Dense drizzle",
    61 := "Slight rain", 63 := "Moderate rain", 65 := "Heavy rain",
    71 := "Slight snow", 73 := "Moderate snow", 75 := "Heavy snow", 77 := "Snow grains",
    80 := "Slight rain showers", 81 := "Moderate rain showers", 82 := "Violent rain showers",
    85 := "Slight snow showers", 86 := "Heavy snow showers",
    95 := "Thunderstorm", 96 := "Thunderstorm with slight hail", 99 := "Thunderstorm with heavy hail"
  ]

  datatype DescriptionReply = DescriptionReply(code: nat, description: string)

  /** `get_weather_description`: echoes the code with its table entry, or
      "Unknown" for an unlisted code. The route's `int` converter only matches
      unsigned digits, so the code is a natural number. */
  function GetWeatherDescription(code: nat): (reply: DescriptionReply)
    ensures reply.code == code
    ensures code in Descriptions ==> reply.description == Descriptions[code]
    ensures code !in Descriptions ==> reply.description == "Unknown"
  {
    DescriptionReply(code, if code in Descriptions then Descriptions[code] else "Unknown")
  }
}
