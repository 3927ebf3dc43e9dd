/** How the copies of the weather-code tables in the different source files
    relate to one another. */
module CodeTables {
  import opened WeatherCodes
  import KenyaWeatherMap
  import ForecastCard
  import WeatherDisplay
  import BackendApp

  /** The three `getWeatherEmoji` copies classify every code alike: the map's and
      the forecast card's return the same glyph, and the weather panel's returns
      its own glyph for the same bucket. */
  lemma EmojiCopiesAgree(code: int, c: Category)
    ensures KenyaWeatherMap.WeatherEmoji(code) == ForecastCard.WeatherEmoji(code)
    ensures WeatherDisplay.WeatherEmoji(code) == WeatherDisplay.Glyph(c) <==>
            ForecastCard.WeatherEmoji(code) == ForecastCard.Glyph(c)
  {
    if WeatherDisplay.WeatherEmoji(code) == WeatherDisplay.Glyph(c) {
      WeatherDisplay.GlyphInjective(Classify(code), c);
    }
    if ForecastCard.WeatherEmoji(code) == ForecastCard.Glyph(c) {
      ForecastCard.GlyphInjective(Classify(code), c);
    }
  }

  /** The panel's description table is the backend's without codes 77, 85 and 86. */
  lemma DescriptionTablesDiffer()
    ensures WeatherDisplay.Descriptions.Keys == BackendApp.Descriptions.Keys - {77, 85, 86}
    ensures forall code :: code in WeatherDisplay.Descriptions ==>
      WeatherDisplay.Descriptions[code] == BackendApp.Descriptions[code]
  {
    forall code
      ensures code in WeatherDisplay.Descriptions.Keys <==>
        code in BackendApp.Descriptions.Keys && code !in {77, 85, 86}
    {
    }
  }

  /** For every code but 77, 85 and 86 the panel and the backend describe a code
      alike; for those three the panel says "Unknown" and the backend names them. */
  lemma DescriptionsAgreeElsewhere(code: nat)
    ensures code !in {77, 85, 86} ==>
      WeatherDisplay.WeatherDescription(code) == BackendApp.GetWeatherDescription(code).description
    ensures code in {77, 85, 86} ==>
      WeatherDisplay.WeatherDescription(code) == "Unknown" &&
      BackendApp.GetWeatherDescription(code).description != "Unknown"
  {
    DescriptionTablesDiffer();
  }

  /** Every code the backend describes gets a glyph of its own except 85 and 86
      (snow showers), which fall in the gap between the showers and the
      thunderstorm ranges and get the default glyph. */
  lemma DescribedCodesClassified(code: int)
    requires code in BackendApp.Descriptions
    ensures Classify(code) == Fallback <==> code == 85 || code == 86
  {
  }
}
