/**
 * The weather client: selecting the geocoding match, reading the current
 * point off the forecast feed, and reducing the feed to at most five points
 * (the current one, then one per later calendar day taken near local noon).
 *
 * Network calls are not modelled: the geocoding response is a parameter and
 * the forecast fetch is a function from coordinates to the feed it returns.
 * The time-zone dependent `Date` methods are the two functions of a `Clock`.
 */
module WeatherService {
  import opened Wrappers

  /**
   * A match returned by the geocoding lookup. `country` stands for the
   * match's other fields (`country`, `state`, `local_names`), which the
   * client drops.
   */
  datatype Location = Location(lat: real, lon: real, name: string, country: string)

  datatype Coordinates = Coordinates(lat: real, lon: real, name: string)

  /**
   * One entry of the forecast feed: `dt` is in seconds since the epoch; the
   * measurements are passed through untouched.
   */
  datatype Reading = Reading(dt: int, temp: real, humidity: real, windSpeed: real, description: string, icon: string)

  /** A forecast point; `date` is in milliseconds since the epoch, as a JavaScript `Date` holds it. */
  datatype Weather = Weather(date: int, temperature: real, humidity: real, windSpeed: real, description: string, icon: string)

  /**
   * Local calendar functions on epoch milliseconds: `dateString` stands for
   * `Date.prototype.toDateString` and `hours` for `Date.prototype.getHours`,
   * both in the server's time zone.
   */
  datatype Clock = Clock(dateString: int -> string, hours: int -> int)

  datatype CityForecast = CityForecast(cityName: string, forecast: seq<Weather>)

  /** At most five points: the current one and up to four later days. */
  const MaxPoints: nat := 5

  // ---------------------------------------------------------------- location

  /** The best geocoding match, or "City not found" when there is none. */
  function FetchLocationData(matches: seq<Location>): (r: Result<Location>)
    ensures r.Err? <==> |matches| == 0
    ensures r.Err? ==> r.error == CityNotFound
    ensures r.Ok? ==> r.value == matches[0]
  {
    if |matches| == 0 then Err(CityNotFound) else Ok(matches[0])
  }

  /** Copies latitude, longitude and name out of a geocoding match. */
  function DestructureLocationData(location: Location): (c: Coordinates)
    ensures c.lat == location.lat && c.lon == location.lon && c.name == location.name
  {
    Coordinates(location.lat, location.lon, location.name)
  }

  // ----------------------------------------------------------- forecast feed

  function ToWeather(item: Reading): Weather {
    Weather(item.dt * 1000, item.temp, item.humidity, item.windSpeed, item.description, item.icon)
  }

  /** The current point is the feed's first entry; an empty feed has none to read. */
  function ParseCurrentWeather(list: seq<Reading>): (r: Result<Weather>)
    ensures r.Err? <==> list == []
    ensures r.Err? ==> r.error == MalformedResponse
    ensures r.Ok? ==> r.value == ToWeather(list[0]) && r.value.date == list[0].dt * 1000
  {
    if list == [] then Err(MalformedResponse) else Ok(ToWeather(list[0]))
  }

  /** The calendar day of a feed entry, in local time. */
  function DayOf(clock: Clock, item: Reading): string {
    clock.dateString(item.dt * 1000)
  }

  /** A moment whose local hour lies in the window 11..14 around noon. */
  predicate NearNoon(clock: Clock, millis: int) {
    11 <= clock.hours(millis) <= 14
  }

  predicate InWindow(clock: Clock, item: Reading) {
    NearNoon(clock, item.dt * 1000)
  }

  /**
   * Entry `i` represents its day: it lies in the noon window, its day is not
   * `today`, and no earlier entry of the same day lies in the window.
   */
  predicate IsRepresentative(clock: Clock, today: string, list: seq<Reading>, i: nat)
    requires i < |list|
  {
    InWindow(clock, list[i]) && DayOf(clock, list[i]) != today &&
    forall j :: 0 <= j < i && InWindow(clock, list[j]) ==> DayOf(clock, list[j]) != DayOf(clock, list[i])
  }

  /** The indices below `n` of the entries that represent their day, in increasing order. */
  function Representatives(clock: Clock, today: string, list: seq<Reading>, n: nat): (idx: seq<nat>)
    requires n <= |list|
    ensures forall k :: 0 <= k < |idx| ==> idx[k] < n && IsRepresentative(clock, today, list, idx[k])
    ensures forall k, l :: 0 <= k < l < |idx| ==> idx[k] < idx[l]
    ensures forall i :: 0 <= i < n && IsRepresentative(clock, today, list, i) ==> i in idx
    decreases n
  {
    if n == 0 then []
    else Representatives(clock, today, list, n - 1) + (if IsRepresentative(clock, today, list, n - 1) then [n - 1] else [])
  }

  /** The forecast points built from the feed entries at the given indices. */
  function Points(list: seq<Reading>, idx: seq<nat>): (ps: seq<Weather>)
    requires forall k :: 0 <= k < |idx| ==> idx[k] < |list|
  {
    seq(|idx|, k requires 0 <= k < |idx| => ToWeather(list[idx[k]]))
  }

  /** The feed indices the forecast takes after its first point: the first four representatives. */
  function Chosen(clock: Clock, current: Weather, list: seq<Reading>): (idx: seq<nat>)
    ensures |idx| <= MaxPoints - 1
    ensures forall k :: 0 <= k < |idx| ==> idx[k] < |list|
  {
    var all := Representatives(clock, clock.dateString(current.date), list, |list|);
    if |all| <= MaxPoints - 1 then all else all[..MaxPoints - 1]
  }

  /** The reference forecast: the current point, then the chosen feed entries in feed order. */
  function Forecast(clock: Clock, current: Weather, list: seq<Reading>): (f: seq<Weather>)
    ensures 1 <= |f| <= MaxPoints && f[0] == current
  {
    [current] + Points(list, Chosen(clock, current, list))
  }

  lemma {:induction false} RepresentativesPrefix(clock: Clock, today: string, list: seq<Reading>, m: nat, n: nat)
    requires m <= n <= |list|
    ensures |Representatives(clock, today, list, m)| <= |Representatives(clock, today, list, n)|
    ensures Representatives(clock, today, list, n)[..|Representatives(clock, today, list, m)|]
            == Representatives(clock, today, list, m)
    decreases n - m
  {
    if m < n {
      RepresentativesPrefix(clock, today, list, m, n - 1);
    }
  }

  /**
   * Every in-window entry on a day other than `today` has a representative
   * of its day at or before it.
   */
  lemma {:induction false} EarliestOfDayRepresents(clock: Clock, today: string, list: seq<Reading>, i: nat)
    requires i < |list| && InWindow(clock, list[i]) && DayOf(clock, list[i]) != today
    ensures exists j :: 0 <= j <= i && IsRepresentative(clock, today, list, j) && DayOf(clock, list[j]) == DayOf(clock, list[i])
    decreases i
  {
    if !IsRepresentative(clock, today, list, i) {
      var j :| 0 <= j < i && InWindow(clock, list[j]) && DayOf(clock, list[j]) == DayOf(clock, list[i]);
      EarliestOfDayRepresents(clock, today, list, j);
    }
  }

  /** Each point after the first is the feed entry at its chosen index, and the indices increase. */
  lemma ForecastIsSubsequence(clock: Clock, current: Weather, list: seq<Reading>)
    ensures var f, idx := Forecast(clock, current, list), Chosen(clock, current, list);
      |f| == |idx| + 1 &&
      (forall k :: 0 <= k < |idx| ==> f[k + 1] == ToWeather(list[idx[k]])) &&
      (forall k, l :: 0 <= k < l < |idx| ==> idx[k] < idx[l])
  {
  }

  /** Every point after the first lies in the noon window. */
  lemma ForecastNearNoon(clock: Clock, current: Weather, list: seq<Reading>)
    ensures var f := Forecast(clock, current, list);
      forall k :: 1 <= k < |f| ==> NearNoon(clock, f[k].date)
  {
  }

  /** No two points fall on the same calendar day; in particular none repeats the current point's day. */
  lemma ForecastDistinctDays(clock: Clock, current: Weather, list: seq<Reading>)
    ensures var f := Forecast(clock, current, list);
      forall k, l :: 0 <= k < l < |f| ==> clock.dateString(f[k].date) != clock.dateString(f[l].date)
  {
  }

  /** A chosen entry is the earliest in-window entry of its day: no earlier one shares its day. */
  lemma ForecastTakesFirstOfDay(clock: Clock, current: Weather, list: seq<Reading>)
    ensures var idx := Chosen(clock, current, list);
      forall k, j :: 0 <= k < |idx| && 0 <= j < idx[k] && InWindow(clock, list[j]) ==>
        DayOf(clock, list[j]) != DayOf(clock, list[idx[k]])
  {
  }

  /**
   * When fewer than five points come back, every day other than the current
   * one that has an in-window entry in the feed is represented.
   */
  lemma {:induction false} ForecastComplete(clock: Clock, current: Weather, list: seq<Reading>, i: nat)
    requires i < |list| && InWindow(clock, list[i]) && DayOf(clock, list[i]) != clock.dateString(current.date)
    requires |Forecast(clock, current, list)| < MaxPoints
    ensures var f := Forecast(clock, current, list);
      exists k :: 1 <= k < |f| && clock.dateString(f[k].date) == DayOf(clock, list[i])
  {
    var today := clock.dateString(current.date);
    var all := Representatives(clock, today, list, |list|);
    var idx := Chosen(clock, current, list);
    var f := Forecast(clock, current, list);
    assert idx == all;
    EarliestOfDayRepresents(clock, today, list, i);
    var j :| 0 <= j <= i && IsRepresentative(clock, today, list, j) && DayOf(clock, list[j]) == DayOf(clock, list[i]);
    assert j in all;
    var k :| 0 <= k < |all| && all[k] == j;
    assert f[k + 1] == ToWeather(list[j]);
  }

  /**
   * Exactly five points come back when the feed has at least four
   * representatives, and then they are its first four.
   */
  lemma ForecastFull(clock: Clock, current: Weather, list: seq<Reading>)
    ensures var all := Representatives(clock, clock.dateString(current.date), list, |list|);
      (|Forecast(clock, current, list)| == MaxPoints <==> |all| >= MaxPoints - 1) &&
      Chosen(clock, current, list) == all[..|Chosen(clock, current, list)|]
  {
  }

  /**
   * With the current point read off the feed, the feed's first entry is never
   * chosen again: all chosen indices are at least 1.
   */
  lemma CurrentFromFeedNotRepeated(clock: Clock, list: seq<Reading>)
    requires list != []
    ensures var idx := Chosen(clock, ToWeather(list[0]), list);
      forall k :: 0 <= k < |idx| ==> 1 <= idx[k]
  {
  }

  /** `days` holds `today` and exactly the days of the in-window entries below `n`. */
  ghost predicate SeenDays(clock: Clock, today: string, list: seq<Reading>, n: nat, days: set<string>)
    requires n <= |list|
  {
    forall d :: d in days <==>
      d == today || exists j :: 0 <= j < n && InWindow(clock, list[j]) && DayOf(clock, list[j]) == d
  }

  /**
   * One step of the scan: testing the entry's day against the seen days and
   * its hour against the window decides exactly whether it represents its
   * day, and adding its day when it does keeps the seen days exact.
   */
  lemma SeenDaysStep(clock: Clock, today: string, list: seq<Reading>, i: nat, days: set<string>)
    requires i < |list| && SeenDays(clock, today, list, i, days)
    ensures IsRepresentative(clock, today, list, i) == (DayOf(clock, list[i]) !in days && InWindow(clock, list[i]))
    ensures SeenDays(clock, today, list, i + 1,
                     if IsRepresentative(clock, today, list, i) then days + {DayOf(clock, list[i])} else days)
  {
  }

  lemma PointsAppend(list: seq<Reading>, idx: seq<nat>, i: nat)
    requires i < |list| && forall k :: 0 <= k < |idx| ==> idx[k] < |list|
    ensures Points(list, idx + [i]) == Points(list, idx) + [ToWeather(list[i])]
  {
  }

  /**
   * The chosen indices are the representatives below `m` once there are four
   * of them, or once the whole feed has been scanned.
   */
  lemma ChosenAt(clock: Clock, current: Weather, list: seq<Reading>, m: nat)
    requires m <= |list|
    requires var r := Representatives(clock, clock.dateString(current.date), list, m);
      |r| == MaxPoints - 1 || (m == |list| && |r| < MaxPoints - 1)
    ensures Chosen(clock, current, list) == Representatives(clock, clock.dateString(current.date), list, m)
  {
    RepresentativesPrefix(clock, clock.dateString(current.date), list, m, |list|);
  }

  /**
   * The day-bucketing loop: scan the whole feed, keep a set of days already
   * represented (the current point's day to begin with), take the first entry
   * of each new day whose hour is in the noon window, and stop at five points.
   */
  method BuildForecastArray(clock: Clock, currentWeather: Weather, list: seq<Reading>) returns (forecast: seq<Weather>)
    ensures forecast == Forecast(clock, currentWeather, list)
  {
    forecast := [currentWeather];
    var today := clock.dateString(currentWeather.date);
    var uniqueDays: set<string> := {today};
    var i := 0;
    while i < |list|
      invariant 0 <= i <= |list|
      invariant |Representatives(clock, today, list, i)| < MaxPoints - 1
      invariant forecast == [currentWeather] + Points(list, Representatives(clock, today, list, i))
      invariant SeenDays(clock, today, list, i, uniqueDays)
    {
      var item := list[i];
      var date := item.dt * 1000;
      var dateString := clock.dateString(date);
      ghost var before := Representatives(clock, today, list, i);
      SeenDaysStep(clock, today, list, i, uniqueDays);
      if !(dateString in uniqueDays) && clock.hours(date) >= 11 && clock.hours(date) <= 14 {
        uniqueDays := uniqueDays + {dateString};
        forecast := forecast + [Weather(date, item.temp, item.humidity, item.windSpeed, item.description, item.icon)];
        PointsAppend(list, before, i);
        if |forecast| >= MaxPoints {
          ChosenAt(clock, currentWeather, list, i + 1);
          break;
        }
      }
      i := i + 1;
    }
    if i == |list| {
      ChosenAt(clock, currentWeather, list, i);
    }
  }

  /**
   * The client as a whole. `cityName` is the field the service overwrites
   * with the resolved place name once geocoding succeeds.
   */
  class WeatherService {
    var cityName: string

    constructor()
      ensures cityName == ""
    {
      cityName := "";
    }

    /** Geocoding step: fails with "City not found" when there is no match. */
    method FetchAndDestructureLocationData(matches: seq<Location>) returns (r: Result<Coordinates>)
      modifies this
      ensures r.Err? <==> |matches| == 0
      ensures r.Err? ==> r.error == CityNotFound && cityName == old(cityName)
      ensures r.Ok? ==> r.value == DestructureLocationData(matches[0]) && cityName == matches[0].name
    {
      var locationData := FetchLocationData(matches);
      if locationData.Err? {
        return Err(locationData.error);
      }
      cityName := locationData.value.name;
      r := Ok(DestructureLocationData(locationData.value));
    }

    /**
     * Geocode, fetch the feed for the coordinates, read the current point and
     * bucket the feed by day. `fetchForecast` stands for the forecast request.
     */
    method GetWeatherForCity(clock: Clock, matches: seq<Location>, fetchForecast: Coordinates -> seq<Reading>)
      returns (r: Result<CityForecast>)
      modifies this
      ensures |matches| == 0 ==> r == Err(CityNotFound) && cityName == old(cityName)
      ensures |matches| > 0 ==> cityName == matches[0].name
      ensures |matches| > 0 ==>
        var list := fetchForecast(DestructureLocationData(matches[0]));
        r == if list == [] then Err(MalformedResponse)
             else Ok(CityForecast(matches[0].name, Forecast(clock, ToWeather(list[0]), list)))
    {
      var coordinates := FetchAndDestructureLocationData(matches);
      if coordinates.Err? {
        return Err(coordinates.error);
      }
      var weatherData := fetchForecast(coordinates.value);
      var currentWeather := ParseCurrentWeather(weatherData);
      if currentWeather.Err? {
        return Err(currentWeather.error);
      }
      var forecast := BuildForecastArray(clock, currentWeather.value, weatherData);
      r := Ok(CityForecast(cityName, forecast));
    }
  }
}
