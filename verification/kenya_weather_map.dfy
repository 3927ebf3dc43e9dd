/** The country overview (KenyaWeatherMap.jsx): a batch of weather lookups over a
    fixed list of towns, colour bands for the markers, and summary statistics. */
module KenyaWeatherMap {
  import opened Wrappers
  import opened Records
  import opened WeatherCodes

  /** A named town with its coordinates. */
  datatype Site = Site(name: string, lat: real, lon: real)

  /** A town whose lookup succeeded, with the current conditions attached. */
  datatype WeatherPoint = WeatherPoint(name: string, lat: real, lon: real, weather: Conditions)

  /** `kenyaLocations`: the twenty towns, in the order they are looked up. */
  const KenyaLocations: seq<Site> := [
    Site("Nairobi", -1.2921, 36.8219),
    Site("Mombasa", -4.0435, 39.6682),
    Site("Kisumu", -0.0917, 34.7680),
    Site("Nakuru", -0.3031, 36.0800),
    Site("Eldoret", 0.5143, 35.2698),
    Site("Thika", -1.0332, 37.0690),
    Site("Malindi", -3.2167, 40.1167),
    Site("Garissa", -0.4536, 39.6401),
    Site("Kitale", 1.0167, 35.0000),
    Site("Machakos", -1.5177, 37.2634),
    Site("Nyeri", -0.4197, 36.9470),
    Site("Meru", 0.0469, 37.6500),
    Site("Kakamega", 0.2827, 34.7519),
    Site("Lamu", -2.2717, 40.9020),
    Site("Lodwar", 3.1167, 35.5986),
    Site("Mandera", 3.9366, 41.8550),
    Site("Wajir", 1.7471, 40.0573),
    Site("Marsabit", 2.3284, 37.9908),
    Site("Embu", -0.5310, 37.4575),
    Site("Kericho", -0.3676, 35.2839)
  ]

  // ---------------------------------------------------------------------------
  // Batch collection

  /** `{ ...location, weather }`: the point keeps the town's name and coordinates. */
  function PointAt(site: Site, weather: Conditions): (p: WeatherPoint)
    ensures p.name == site.name && p.lat == site.lat && p.lon == site.lon
    ensures p.weather == weather
  {
    WeatherPoint(site.name, site.lat, site.lon, weather)
  }

  /** The positions whose lookup succeeded, in increasing order. */
  function SuccessIndices(outcomes: seq<Option<Conditions>>): (idx: seq<nat>)
    ensures |idx| <= |outcomes|
    ensures forall k :: 0 <= k < |idx| ==> idx[k] < |outcomes| && outcomes[idx[k]].Some?
    ensures forall k, l :: 0 <= k < l < |idx| ==> idx[k] < idx[l]
    decreases |outcomes|
  {
    if |outcomes| == 0 then []
    else
      var n := |outcomes| - 1;
      var front := SuccessIndices(outcomes[..n]);
      if outcomes[n].Some? then front + [n] else front
  }

  /** Every successful position is listed among the success positions. */
  lemma {:induction false} SuccessIndicesComplete(outcomes: seq<Option<Conditions>>, i: nat)
    requires i < |outcomes| && outcomes[i].Some?
    ensures i in SuccessIndices(outcomes)
    decreases |outcomes|
  {
    var n := |outcomes| - 1;
    if i < n {
      SuccessIndicesComplete(outcomes[..n], i);
    }
  }

  /** The points a batch produces from one lookup outcome per town (`None` for a
      lookup that threw): the successful towns in the list's order, each with its
      own conditions (see `CollectedAt`). */
  function Collected(sites: seq<Site>, outcomes: seq<Option<Conditions>>): (points: seq<WeatherPoint>)
    requires |sites| == |outcomes|
    ensures |points| <= |outcomes|
    decreases |outcomes|
  {
    if |outcomes| == 0 then []
    else
      var n := |outcomes| - 1;
      var front := Collected(sites[..n], outcomes[..n]);
      match outcomes[n]
      case Some(w) => front + [PointAt(sites[n], w)]
      case None => front
  }

  /** Point `k` of a batch is the town at the `k`-th successful position, with
      the conditions that lookup returned; there is one point per success. */
  lemma {:induction false} CollectedAt(sites: seq<Site>, outcomes: seq<Option<Conditions>>)
    requires |sites| == |outcomes|
    ensures |Collected(sites, outcomes)| == |SuccessIndices(outcomes)|
    ensures forall k :: 0 <= k < |SuccessIndices(outcomes)| ==>
      Collected(sites, outcomes)[k] ==
        PointAt(sites[SuccessIndices(outcomes)[k]], outcomes[SuccessIndices(outcomes)[k]].value)
    decreases |outcomes|
  {
    if |outcomes| > 0 {
      var n := |outcomes| - 1;
      CollectedAt(sites[..n], outcomes[..n]);
      var front, idx := Collected(sites[..n], outcomes[..n]), SuccessIndices(outcomes[..n]);
      var points, all := Collected(sites, outcomes), SuccessIndices(outcomes);
      assert all == if outcomes[n].Some? then idx + [n] else idx;
      assert points == if outcomes[n].Some? then front + [PointAt(sites[n], outcomes[n].value)] else front;
      forall k | 0 <= k < |all|
        ensures points[k] == PointAt(sites[all[k]], outcomes[all[k]].value)
      {
        if k < |idx| {
          assert sites[..n][idx[k]] == sites[idx[k]];
          assert outcomes[..n][idx[k]] == outcomes[idx[k]];
        }
      }
    }
  }

  /** Every lookup succeeded exactly when every position is a success position. */
  lemma {:induction false} AllSucceeded(outcomes: seq<Option<Conditions>>)
    ensures |SuccessIndices(outcomes)| == |outcomes| <==> forall i :: 0 <= i < |outcomes| ==> outcomes[i].Some?
    decreases |outcomes|
  {
    if |outcomes| > 0 {
      var n := |outcomes| - 1;
      var front, idx := outcomes[..n], SuccessIndices(outcomes[..n]);
      AllSucceeded(front);
      assert forall i :: 0 <= i < n ==> front[i] == outcomes[i];
      if outcomes[n].Some? {
        assert |SuccessIndices(outcomes)| == |idx| + 1;
        assert (forall i :: 0 <= i < |outcomes| ==> outcomes[i].Some?) <==>
               (forall i :: 0 <= i < n ==> front[i].Some?);
      } else {
        assert |SuccessIndices(outcomes)| == |idx| <= n;
      }
    }
  }

  /** A batch yields one point per successful lookup, so never more than the
      twenty towns, and all twenty only when no lookup failed. */
  lemma CollectedCount(sites: seq<Site>, outcomes: seq<Option<Conditions>>)
    requires |sites| == |outcomes|
    ensures |Collected(sites, outcomes)| == |SuccessIndices(outcomes)| <= |sites|
    ensures |Collected(sites, outcomes)| == |sites| <==> forall i :: 0 <= i < |outcomes| ==> outcomes[i].Some?
  {
    CollectedAt(sites, outcomes);
    AllSucceeded(outcomes);
  }

  /** A failed lookup drops only its own town: turning the outcome of town `i`
      into a failure removes that town's point and leaves every other point, in
      order. */
  lemma FailureDropsOnlyThatTown(sites: seq<Site>, outcomes: seq<Option<Conditions>>, i: nat)
    requires |sites| == |outcomes| && i < |outcomes| && outcomes[i].Some?
    ensures
      var before := Collected(sites[..i], outcomes[..i]);
      var after := Collected(sites[i + 1..], outcomes[i + 1..]);
      Collected(sites, outcomes) == before + [PointAt(sites[i], outcomes[i].value)] + after &&
      Collected(sites, outcomes[i := None]) == before + after
  {
    var failed := outcomes[i := None];
    var front, back := sites[..i + 1], sites[i + 1..];
    assert sites == front + back;
    assert outcomes == outcomes[..i + 1] + outcomes[i + 1..];
    assert failed == failed[..i + 1] + failed[i + 1..];
    assert failed[i + 1..] == outcomes[i + 1..];
    assert front[..i] == sites[..i];
    assert outcomes[..i + 1][..i] == outcomes[..i] == failed[..i + 1][..i];
    CollectedAppend(front, back, outcomes[..i + 1], outcomes[i + 1..]);
    CollectedAppend(front, back, failed[..i + 1], failed[i + 1..]);
  }

  /** Collecting over two lists one after the other is collecting over each. */
  lemma {:induction false} CollectedAppend(
    sites1: seq<Site>, sites2: seq<Site>,
    outcomes1: seq<Option<Conditions>>, outcomes2: seq<Option<Conditions>>)
    requires |sites1| == |outcomes1| && |sites2| == |outcomes2|
    ensures Collected(sites1 + sites2, outcomes1 + outcomes2) ==
      Collected(sites1, outcomes1) + Collected(sites2, outcomes2)
    decreases |outcomes2|
  {
    if |outcomes2| == 0 {
      assert sites1 + sites2 == sites1 && outcomes1 + outcomes2 == outcomes1;
    } else {
      var n := |outcomes2| - 1;
      var sites, outcomes := sites1 + sites2, outcomes1 + outcomes2;
      assert sites[..|outcomes| - 1] == sites1 + sites2[..n];
      assert outcomes[..|outcomes| - 1] == outcomes1 + outcomes2[..n];
      assert sites[|outcomes| - 1] == sites2[n] && outcomes[|outcomes| - 1] == outcomes2[n];
      CollectedAppend(sites1, sites2[..n], outcomes1, outcomes2[..n]);
      var last := if outcomes2[n].Some? then [PointAt(sites2[n], outcomes2[n].value)] else [];
      assert Collected(sites, outcomes) ==
        Collected(sites1 + sites2[..n], outcomes1 + outcomes2[..n]) + last;
      assert Collected(sites2, outcomes2) == Collected(sites2[..n], outcomes2[..n]) + last;
    }
  }

  // ---------------------------------------------------------------------------
  // Temperature colour bands

  /** The six colour bands of the legend, from coldest to hottest. */
  datatype Band = VeryCold | Cold | Cool | Mild | Warm | Hot

  /** Position of a band on the scale, 0 for the coldest. */
  function Rank(b: Band): nat
  {
    match b
    case VeryCold => 0
    case Cold => 1
    case Cool => 2
    case Mild => 3
    case Warm => 4
    case Hot => 5
  }

  /** The temperatures (degrees C) each band covers; every lower bound is inclusive. */
  predicate InTempBand(b: Band, temp: real)
  {
    match b
    case Hot => temp >= 35.0
    case Warm => 30.0 <= temp < 35.0
    case Mild => 25.0 <= temp < 30.0
    case Cool => 20.0 <= temp < 25.0
    case Cold => 15.0 <= temp < 20.0
    case VeryCold => temp < 15.0
  }

  /** The marker fill colour of each band. */
  function BandColour(b: Band): string
  {
    match b
    case Hot => "#dc2626"
    case Warm => "#f97316"
    case Mild => "#fbbf24"
    case Cool => "#84cc16"
    case Cold => "#10b981"
    case VeryCold => "#3b82f6"
  }

  /** `getTemperatureColor`: the colour is that of the one band holding `temp`. */
  function TemperatureColor(temp: real): (colour: string)
    ensures forall b :: colour == BandColour(b) <==> InTempBand(b, temp)
  {
    if temp >= 35.0 then "#dc2626"
    else if temp >= 30.0 then "#f97316"
    else if temp >= 25.0 then "#fbbf24"
    else if temp >= 20.0 then "#84cc16"
    else if temp >= 15.0 then "#10b981"
    else "#3b82f6"
  }

  /** A warmer reading never gets a colder colour. */
  lemma TemperatureColorMonotone(t1: real, t2: real, b1: Band, b2: Band)
    requires t1 <= t2
    requires TemperatureColor(t1) == BandColour(b1) && TemperatureColor(t2) == BandColour(b2)
    ensures Rank(b1) <= Rank(b2)
  {
  }

  // ---------------------------------------------------------------------------
  // Summary statistics (the four tiles under the map)

  /** `weatherPoints.map(p => p.weather.temperature)` */
  function Temperatures(points: seq<WeatherPoint>): (ts: seq<real>)
    ensures |ts| == |points|
    ensures forall i :: 0 <= i < |points| ==> ts[i] == points[i].weather.temperature
  {
    if |points| == 0 then [] else [points[0].weather.temperature] + Temperatures(points[1..])
  }

  /** `Math.max(...ts)` on a non-empty list: an upper bound that is one of the values. */
  function Hottest(ts: seq<real>): (m: real)
    requires |ts| > 0
    ensures forall i :: 0 <= i < |ts| ==> ts[i] <= m
    ensures m in ts
  {
    if |ts| == 1 then ts[0]
    else
      var rest := Hottest(ts[1..]);
      if ts[0] >= rest then ts[0] else rest
  }

  /** `Math.min(...ts)` on a non-empty list: a lower bound that is one of the values. */
  function Coolest(ts: seq<real>): (m: real)
    requires |ts| > 0
    ensures forall i :: 0 <= i < |ts| ==> m <= ts[i]
    ensures m in ts
  {
    if |ts| == 1 then ts[0]
    else
      var rest := Coolest(ts[1..]);
      if ts[0] <= rest then ts[0] else rest
  }

  /** `ts.reduce((sum, t) => sum + t, 0)`, adding from the left: the total
      starts from 0, so no readings total 0 and one reading totals itself. */
  function Sum(ts: seq<real>): (total: real)
    ensures ts == [] ==> total == 0.0
  {
    if |ts| == 0 then 0.0 else Sum(ts[..|ts| - 1]) + ts[|ts| - 1]
  }

  /** Adding from the right gives the same total: the first reading plus the
      total of the rest. */
  lemma {:induction false} SumFromFront(ts: seq<real>)
    requires |ts| > 0
    ensures Sum(ts) == ts[0] + Sum(ts[1..])
    decreases |ts|
  {
    var n := |ts| - 1;
    if n > 0 {
      SumFromFront(ts[..n]);
      assert ts[..n][1..] == ts[1..][..n - 1];
    }
  }

  /** A sum of `n` values that are all at most `hi` (at least `lo`) is at most
      `n * hi` (at least `n * lo`). */
  lemma {:induction false} SumBounds(ts: seq<real>, lo: real, hi: real)
    requires forall i :: 0 <= i < |ts| ==> lo <= ts[i] <= hi
    ensures |ts| as real * lo <= Sum(ts) <= |ts| as real * hi
    decreases |ts|
  {
    if |ts| > 0 {
      var n := |ts| - 1;
      SumBounds(ts[..n], lo, hi);
      assert (n + 1) as real * hi == n as real * hi + hi;
      assert (n + 1) as real * lo == n as real * lo + lo;
    }
  }

  /** The four tiles: "Locations", "Hottest", "Coolest" and "Avg Temp". */
  datatype Summary = Summary(locations: nat, hottest: real, coolest: real, average: real)

  /** The summary of a non-empty point list: the count of points, the largest and
      smallest temperature (each one of the readings), and sum / count. */
  function Summarize(points: seq<WeatherPoint>): (s: Summary)
    requires |points| > 0
    ensures s.locations == |points|
    ensures forall p :: p in points ==> s.coolest <= p.weather.temperature <= s.hottest
    ensures exists p :: p in points && p.weather.temperature == s.hottest
    ensures exists p :: p in points && p.weather.temperature == s.coolest
    ensures s.average == Sum(Temperatures(points)) / |points| as real
  {
    var ts := Temperatures(points);
    var hottest, coolest := Hottest(ts), Coolest(ts);
    assert forall p :: p in points ==> p.weather.temperature in ts by {
      forall p | p in points ensures p.weather.temperature in ts {
        var i :| 0 <= i < |points| && points[i] == p;
        assert ts[i] == p.weather.temperature;
      }
    }
    var ih :| 0 <= ih < |ts| && ts[ih] == hottest;
    assert points[ih] in points;
    var ic :| 0 <= ic < |ts| && ts[ic] == coolest;
    assert points[ic] in points;
    Summary(|points|, hottest, coolest, Sum(ts) / |points| as real)
  }

  /** The mean of a non-empty list whose values all lie in `[lo, hi]` lies there too. */
  lemma MeanWithin(ts: seq<real>, lo: real, hi: real)
    requires |ts| > 0
    requires forall i :: 0 <= i < |ts| ==> lo <= ts[i] <= hi
    ensures lo <= Sum(ts) / |ts| as real <= hi
  {
    SumBounds(ts, lo, hi);
    DivideBounds(Sum(ts), |ts|, lo, hi);
  }

  /** The "Avg Temp" tile lies between the "Coolest" and the "Hottest" tiles. */
  lemma AverageBetweenExtremes(points: seq<WeatherPoint>)
    requires |points| > 0
    ensures Summarize(points).coolest <= Summarize(points).average <= Summarize(points).hottest
  {
    var ts := Temperatures(points);
    MeanWithin(ts, Coolest(ts), Hottest(ts));
  }

  /** From `n * lo <= x <= n * hi` and `n > 0`: `lo <= x / n <= hi`. */
  lemma DivideBounds(x: real, n: nat, lo: real, hi: real)
    requires n > 0 && n as real * lo <= x <= n as real * hi
    ensures lo <= x / n as real <= hi
  {
    assert x / n as real * n as real == x;
  }

  // ---------------------------------------------------------------------------
  // Emoji of a marker's popup

  /** The glyph this component shows for each bucket (display strings, compared only for equality). */
  function Glyph(c: Category): string
  {
    match c
    case ClearSky => "\U{2600}\U{FE0F}"
    case PartlyCloudy => "\U{26C5}"
    case Fog => "\U{1F32B}\U{FE0F}"
    case Rain => "\U{1F327}\U{FE0F}"
    case Snow => "\U{1F328}\U{FE0F}"
    case Showers => "\U{1F326}\U{FE0F}"
    case Thunderstorm => "\U{26C8}\U{FE0F}"
    case Fallback => "\U{1F324}\U{FE0F}"
  }

  /** `getWeatherEmoji`: this component's if-chain, which picks the glyph of the
      bucket `Classify` assigns. */
  function WeatherEmoji(code: int): (emoji: string)
    ensures emoji == Glyph(Classify(code))
  {
    if code == 0 || code == 1 then "\U{2600}\U{FE0F}"
    else if code == 2 || code == 3 then "\U{26C5}"
    else if code >= 45 && code <= 48 then "\U{1F32B}\U{FE0F}"
    else if code >= 51 && code <= 67 then "\U{1F327}\U{FE0F}"
    else if code >= 71 && code <= 77 then "\U{1F328}\U{FE0F}"
    else if code >= 80 && code <= 82 then "\U{1F326}\U{FE0F}"
    else if code >= 95 then "\U{26C8}\U{FE0F}"
    else "\U{1F324}\U{FE0F}"
  }

  // ---------------------------------------------------------------------------
  // Component state

  /** The component's two state variables. */
  class MapOverview {
    var weatherPoints: seq<WeatherPoint>
    var loading: bool

    /** First render: no points yet, and the batch about to start. */
    constructor ()
      ensures weatherPoints == [] && loading
    {
      weatherPoints := [];
      loading := true;
    }

    /** `fetchAllWeather` (on mount and on "Refresh Data"), with `outcomes[i]` the
        answer of the lookup for town `i`. `loading` is set first and stays true
        while the towns are looked up one after the other; then the collected
        points replace `weatherPoints` wholesale and `loading` is cleared. */
    method FetchAllWeather(outcomes: seq<Option<Conditions>>)
      requires |outcomes| == |KenyaLocations|
      modifies this
      ensures weatherPoints == Collected(KenyaLocations, outcomes)
      ensures !loading
    {
      loading := true;
      var weatherData: seq<WeatherPoint> := [];
      for i := 0 to |KenyaLocations|
        invariant loading
        invariant weatherData == Collected(KenyaLocations[..i], outcomes[..i])
      {
        assert KenyaLocations[..i + 1][..i] == KenyaLocations[..i];
        assert outcomes[..i + 1][..i] == outcomes[..i];
        match outcomes[i] {
          case Some(weather) =>
            weatherData := weatherData + [PointAt(KenyaLocations[i], weather)];
          case None =>
        }
      }
      assert KenyaLocations[..|KenyaLocations|] == KenyaLocations;
      assert outcomes[..|outcomes|] == outcomes;
      weatherPoints := weatherData;
      loading := false;
    }

  }
}
