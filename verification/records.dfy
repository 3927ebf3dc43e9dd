/** The JSON records the backend sends and the frontend components consume. */
module Records {

  /** One geocoded place, as listed by `/api/search-location`. */
  datatype Location = Location(
    name: string,
    admin1: string,
    country: string,
    latitude: real,
    longitude: real)

  /** Current conditions (`current` of `/api/weather`), as the frontend reads them. */
  datatype Conditions = Conditions(
    temperature: real,
    humidity: real,
    windSpeed: real,
    precipitation: real,
    weatherCode: int)

  /** One day of the forecast (`forecast[i]` of `/api/weather`). */
  datatype ForecastDay = ForecastDay(
    date: string,
    tempMax: real,
    tempMin: real,
    precipitation: real,
    weatherCode: int)

  /** The whole body of a successful `/api/weather` answer. */
  datatype WeatherData = WeatherData(current: Conditions, forecast: seq<ForecastDay>)
}
