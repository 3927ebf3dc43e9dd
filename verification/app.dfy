/** The application shell (App.jsx): the search / selection state and what the
    page shows for it. */
module AppShell {
  import opened Wrappers
  import opened Records
  import WeatherDisplay

  /** The settled outcome of one request to the backend: the response body, or
      a thrown error (network failure or non-2xx status, not distinguished). */
  datatype Call<+T> = Resolved(data: T) | Rejected

  /** The body of a `/api/search-location` answer: `locations` may be missing. */
  datatype SearchBody = SearchBody(locations: Option<seq<Location>>)

  /** The backend as the shell sees it: the answer to a search for a term, and
      to a weather request for a latitude and longitude. */
  type SearchService = string -> Call<SearchBody>
  type WeatherService = (real, real) -> Call<WeatherData>

  const NoLocationsFound: string := "No locations found. Try a different search term."
  const SearchFailed: string := "Failed to search location. Please try again."
  const WeatherFailed: string := "Failed to fetch weather data. Please try again."

  /** The locations of a search answer, `[]` when the list is missing. */
  function Listed(body: SearchBody): (locs: seq<Location>)
    ensures body.locations.Some? ==> locs == body.locations.value
    ensures body.locations.None? ==> locs == []
  {
    body.locations.GetOr([])
  }

  /** The six state variables of the page. */
  class App {
    var loading: bool
    var locations: seq<Location>
    var selectedLocation: Option<Location>
    var weatherData: Option<WeatherData>
    var error: Option<string>
    var showMap: bool

    /** Weather is only ever stored for a selected location, and the only error
        texts are the three fixed messages. */
    ghost predicate Valid()
      reads this
    {
      (weatherData.Some? ==> selectedLocation.Some?) &&
      (error.Some? ==> error.value in {NoLocationsFound, SearchFailed, WeatherFailed})
    }

    /** The initial state: nothing loaded, nothing selected, no error, map hidden. */
    constructor ()
      ensures Valid()
      ensures !loading && locations == [] && selectedLocation == None
      ensures weatherData == None && error == None && !showMap
    {
      loading := false;
      locations := [];
      selectedLocation := None;
      weatherData := None;
      error := None;
      showMap := false;
    }

    // -------------------------------------------------------------------------
    // What the page shows

    /** The error box. The welcome panel never shows beside it. */
    predicate ShowsError()
      reads this
      ensures ShowsError() ==> !ShowsWelcome()
    {
      error.Some?
    }

    /** "Select a location:" with one button per location. It needs a choice
        still to be made, so the weather panel is never beside it, and a list,
        so the welcome panel is not either. */
    predicate ShowsPicker()
      reads this
      ensures ShowsPicker() ==> !ShowsWeather() && !ShowsWelcome()
    {
      |locations| > 1 && selectedLocation.None?
    }

    /** The weather panel. It is mounted only with both a location and weather,
        so the panel it mounts always renders (never `null`). */
    predicate ShowsWeather()
      reads this
      ensures ShowsWeather() ==>
        selectedLocation.Some? && WeatherDisplay.Render(selectedLocation.value, weatherData).Some?
    {
      selectedLocation.Some? && weatherData.Some?
    }

    /** The welcome panel: shown only when nothing has been searched, so there
        is no weather panel beside it. */
    predicate ShowsWelcome()
      reads this
      ensures ShowsWelcome() ==> !ShowsWeather()
    {
      !loading && weatherData.None? && error.None? && |locations| == 0
    }

    // -------------------------------------------------------------------------
    // Handlers

    /** The part of `handleSearch` before the request: every result of the
        previous search is cleared and `loading` is set. */
    method StartSearch()
      requires Valid()
      modifies this
      ensures Valid()
      ensures loading && error == None && locations == []
      ensures weatherData == None && selectedLocation == None
      ensures showMap == old(showMap)
    {
      loading := true;
      error := None;
      locations := [];
      weatherData := None;
      selectedLocation := None;
    }

    /** `handleLocationSelect`: the location is selected and its weather
        requested by its latitude and longitude. On success the answer is
        stored and there is no error; on failure the selection stays, the stored
        weather is left as it was, and the weather error is shown. Either way
        `loading` ends false. */
    method HandleLocationSelect(location: Location, weather: WeatherService)
      requires Valid()
      modifies this
      ensures Valid()
      ensures selectedLocation == Some(location) && !loading
      ensures locations == old(locations) && showMap == old(showMap)
      ensures match weather(location.latitude, location.longitude)
        case Resolved(data) => weatherData == Some(data) && error == None
        case Rejected => weatherData == old(weatherData) && error == Some(WeatherFailed)
    {
      selectedLocation := Some(location);
      loading := true;
      error := None;
      match weather(location.latitude, location.longitude) {
        case Resolved(data) =>
          weatherData := Some(data);
        case Rejected =>
          error := Some(WeatherFailed);
      }
      loading := false;
    }

    /** `handleSearch`, run to completion (the weather request of an
        auto-selection settles before the handler's own `finally`).
        - The search throws: the search error, nothing listed.
        - The answer lists no location (list missing or empty): the
          "no locations" error, nothing listed.
        - One location: it is listed and selected, and its weather fetched.
        - Several: all are listed, none is selected, no weather, no error.
        `loading` ends false and the map toggle is untouched. */
    method HandleSearch(searchTerm: string, search: SearchService, weather: WeatherService)
      requires Valid()
      modifies this
      ensures Valid()
      ensures !loading && showMap == old(showMap)
      ensures ShowsPicker() <==> search(searchTerm).Resolved? && |Listed(search(searchTerm).data)| > 1
      ensures ShowsWeather() <==> weatherData.Some?
      ensures !ShowsWelcome()
      ensures match search(searchTerm)
        case Rejected =>
          error == Some(SearchFailed) && locations == [] &&
          selectedLocation == None && weatherData == None
        case Resolved(body) =>
          var found := Listed(body);
          if |found| == 0 then
            error == Some(NoLocationsFound) && locations == [] &&
            selectedLocation == None && weatherData == None
          else if |found| == 1 then
            locations == found && selectedLocation == Some(found[0]) &&
            (match weather(found[0].latitude, found[0].longitude)
             case Resolved(data) => weatherData == Some(data) && error == None
             case Rejected => weatherData == None && error == Some(WeatherFailed))
          else
            locations == found && selectedLocation == None &&
            weatherData == None && error == None
    {
      StartSearch();
      match search(searchTerm) {
        case Rejected =>
          error := Some(SearchFailed);
        case Resolved(body) =>
          if body.locations.Some? && |body.locations.value| > 0 {
            locations := body.locations.value;
            if |body.locations.value| == 1 {
              HandleLocationSelect(body.locations.value[0], weather);
            }
          } else {
            error := Some(NoLocationsFound);
          }
      }
      loading := false;
    }

    /** The "Show Country Map" / "Hide Map" button: flips `showMap` and nothing else. */
    method ToggleMap()
      requires Valid()
      modifies this`showMap
      ensures Valid()
      ensures showMap == !old(showMap)
    {
      showMap := !showMap;
    }

    /** When the picker is on screen no weather is stored, so choosing from it
        starts from an empty weather panel. */
    lemma PickerHasNoWeather()
      requires Valid() && ShowsPicker()
      ensures weatherData.None? && !ShowsWeather()
    {
    }
  }
}
