/** The current-conditions panel and forecast grid (WeatherDisplay.jsx). */
module WeatherDisplay {
  import opened Wrappers
  import opened Records
  import opened WeatherCodes
  import ForecastCard

  /** The glyphs this component shows. They are the UTF-8 bytes of the emoji
      that the other two components use, read back as Windows-1252 text (the
      byte 0x8F, which that code page leaves undefined, is absent). */
  function Glyph(c: Category): string
  {
    match c
    case ClearSky => "\U{00E2}\U{02DC}\U{20AC}\U{00EF}\U{00B8}"
    case PartlyCloudy => "\U{00E2}\U{203A}\U{2026}"
    case Fog => "\U{00F0}\U{0178}\U{0152}\U{00AB}\U{00EF}\U{00B8}"
    case Rain => "\U{00F0}\U{0178}\U{0152}\U{00A7}\U{00EF}\U{00B8}"
    case Snow => "\U{00F0}\U{0178}\U{0152}\U{00A8}\U{00EF}\U{00B8}"
    case Showers => "\U{00F0}\U{0178}\U{0152}\U{00A6}\U{00EF}\U{00B8}"
    case Thunderstorm => "\U{00E2}\U{203A}\U{02C6}\U{00EF}\U{00B8}"
    case Fallback => "\U{00F0}\U{0178}\U{0152}\U{00A4}\U{00EF}\U{00B8}"
  }

  /** Different buckets get different glyphs, so the glyph tells the bucket. */
  lemma GlyphInjective(c1: Category, c2: Category)
    requires Glyph(c1) == Glyph(c2)
    ensures c1 == c2
  {
  }

  /** `getWeatherEmoji`: this component's copy of the if-chain, which picks the
      glyph of the bucket `Classify` assigns. */
  function WeatherEmoji(code: int): (emoji: string)
    ensures emoji == Glyph(Classify(code))
  {
    if code == 0 || code == 1 then "\U{00E2}\U{02DC}\U{20AC}\U{00EF}\U{00B8}"
    else if code == 2 || code == 3 then "\U{00E2}\U{203A}\U{2026}"
    else if code >= 45 && code <= 48 then "\U{00F0}\U{0178}\U{0152}\U{00AB}\U{00EF}\U{00B8}"
    else if code >= 51 && code <= 67 then "\U{00F0}\U{0178}\U{0152}\U{00A7}\U{00EF}\U{00B8}"
    else if code >= 71 && code <= 77 then "\U{00F0}\U{0178}\U{0152}\U{00A8}\U{00EF}\U{00B8}"
    else if code >= 80 && code <= 82 then "\U{00F0}\U{0178}\U{0152}\U{00A6}\U{00EF}\U{00B8}"
    else if code >= 95 then "\U{00E2}\U{203A}\U{02C6}\U{00EF}\U{00B8}"
    else "\U{00F0}\U{0178}\U{0152}\U{00A4}\U{00EF}\U{00B8}"
  }

  /** The component's description table: 21 codes. */
  const Descriptions: map<int, string> := map[
    0 := "Clear sky", 1 := "Mainly clear", 2 := "Partly cloudy", 3 := "Overcast",
    45 := "Foggy", 48 := "Depositing rime fog",
    51 := "Light drizzle", 53 := "Moderate drizzle", 55 := "Dense drizzle",
    61 := "Slight rain", 63 := "Moderate rain", 65 := "Heavy rain",
    71 := "Slight snow", 73 := "Moderate snow", 75 := "Heavy snow",
    80 := "Slight rain showers", 81 := "Moderate rain showers", 82 := "Violent rain showers",
    95 := "Thunderstorm", 96 := "Thunderstorm with slight hail", 99 := "Thunderstorm with heavy hail"
  ]

  /** `descriptions[code] || 'Unknown'`: a missing entry, and in JavaScript also an
      empty one, falls back to "Unknown". Since no entry is empty, the result is
      the table's entry exactly when the code is listed. */
  function WeatherDescription(code: int): (d: string)
    ensures code in Descriptions ==> d == Descriptions[code]
    ensures code !in Descriptions ==> d == "Unknown"
  {
    if code in Descriptions && Descriptions[code] != "" then Descriptions[code] else "Unknown"
  }

  /** Codes 77, 85 and 86 are not in this table, so they read "Unknown" here,
      although 77 still gets the snow glyph. */
  lemma UnlistedSnowCodes()
    ensures WeatherDescription(77) == "Unknown" && Classify(77) == Snow
    ensures WeatherDescription(85) == "Unknown" && WeatherDescription(86) == "Unknown"
  {
  }

  /** What the component draws for a non-null `weatherData`. */
  datatype Panel = Panel(
    name: string,
    admin1: string,
    country: string,
    emoji: string,
    temperature: real,
    description: string,
    humidity: real,
    windSpeed: real,
    precipitation: real,
    cards: seq<ForecastCard.Card>)

  /** `forecast.map(day => <ForecastCard forecast={day} />)`: one card per day,
      in the given order. */
  function Cards(forecast: seq<ForecastDay>): (cards: seq<ForecastCard.Card>)
    ensures |cards| == |forecast|
    ensures forall i :: 0 <= i < |forecast| ==> cards[i] == ForecastCard.Render(forecast[i])
  {
    if |forecast| == 0 then [] else [ForecastCard.Render(forecast[0])] + Cards(forecast[1..])
  }

  /** The component: nothing when `weatherData` is null; otherwise the selected
      place, the current conditions with the glyph and description of their
      code, and one card per forecast day. */
  function Render(location: Location, weatherData: Option<WeatherData>): (panel: Option<Panel>)
    ensures panel.None? <==> weatherData.None?
    ensures panel.Some? ==>
      var p, cur := panel.value, weatherData.value.current;
      p.name == location.name && p.admin1 == location.admin1 && p.country == location.country &&
      p.emoji == WeatherEmoji(cur.weatherCode) &&
      p.description == WeatherDescription(cur.weatherCode) &&
      p.temperature == cur.temperature && p.humidity == cur.humidity &&
      p.windSpeed == cur.windSpeed && p.precipitation == cur.precipitation &&
      |p.cards| == |weatherData.value.forecast| &&
      forall i :: 0 <= i < |p.cards| ==> p.cards[i] == ForecastCard.Render(weatherData.value.forecast[i])
  {
    match weatherData
    case None => None
    case Some(WeatherData(current, forecast)) =>
      Some(Panel(location.name, location.admin1, location.country,
                 WeatherEmoji(current.weatherCode), current.temperature,
                 WeatherDescription(current.weatherCode),
                 current.humidity, current.windSpeed, current.precipitation,
                 Cards(forecast)))
  }
}
