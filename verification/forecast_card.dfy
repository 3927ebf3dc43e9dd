/** One day's card in the forecast grid (ForecastCard.jsx). */
module ForecastCard {
  import opened Wrappers
  import opened Records
  import opened WeatherCodes

  /** The glyph this component shows for each bucket (display strings, compared only for equality). */
  function Glyph(c: Category): string
  {
    match c
    case ClearSky => "\U{2600}\U{FE0F}"
    case PartlyCloudy => "\U{26C5}"
    case Fog => "\U{1F32B}\U{FE0F}"
    case Rain => "\U{1F327}\U{FE0F}"
    case Snow => "\U{1F328}\U{FE0F}"
    case Showers => "\U{1F326}\U{FE0F}"
    case Thunderstorm => "\U{26C8}\U{FE0F}"
    case Fallback => "\U{1F324}\U{FE0F}"
  }

  /** Different buckets get different glyphs, so the glyph tells the bucket. */
  lemma GlyphInjective(c1: Category, c2: Category)
    requires Glyph(c1) == Glyph(c2)
    ensures c1 == c2
  {
  }

  /** `getWeatherEmoji`: the if-chain of this component, which picks the glyph of
      the bucket `Classify` assigns. */
  function WeatherEmoji(code: int): (emoji: string)
    ensures emoji == Glyph(Classify(code))
  {
    if code == 0 || code == 1 then "\U{2600}\U{FE0F}"
    else if code == 2 || code == 3 then "\U{26C5}"
    else if code >= 45 && code <= 48 then "\U{1F32B}\U{FE0F}"
    else if code >= 51 && code <= 67 then "\U{1F327}\U{FE0F}"
    else if code >= 71 && code <= 77 then "\U{1F328}\U{FE0F}"
    else if code >= 80 && code <= 82 then "\U{1F326}\U{FE0F}"
    else if code >= 95 then "\U{26C8}\U{FE0F}"
    else "\U{1F324}\U{FE0F}"
  }

  /** What one card shows. `date` is the raw date string: its locale formatting
      is not modelled. `precipitation` is the optional rain line. */
  datatype Card = Card(
    date: string,
    emoji: string,
    high: real,
    low: real,
    precipitation: Option<real>)

  /** The card for one forecast day: the glyph of the day's code, the maximum then
      the minimum temperature exactly as given, and a precipitation line exactly
      when the amount is positive. */
  function Render(day: ForecastDay): (card: Card)
    ensures card.date == day.date
    ensures card.emoji == WeatherEmoji(day.weatherCode)
    ensures card.high == day.tempMax && card.low == day.tempMin
    ensures card.precipitation.Some? <==> day.precipitation > 0.0
    ensures card.precipitation.Some? ==> card.precipitation.value == day.precipitation
  {
    Card(day.date, WeatherEmoji(day.weatherCode), day.tempMax, day.tempMin,
         if day.precipitation > 0.0 then Some(day.precipitation) else None)
  }
}
