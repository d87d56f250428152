# Weather backend: forecast day-bucketing and search history

A Dafny model of the two pieces of logic in a small weather backend.

**The weather client** (`weather.dfy`, module `WeatherService`) picks the
first geocoding match, or fails with "City not found" when there is none. It
copies latitude, longitude and name out of that match. It reads the current
point off the first entry of the forecast feed. Then comes the day-bucketing:
it scans the feed with a set of days already seen. The current point's day is
in that set from the start. For each new day it takes the first entry whose
local hour lies in 11..14, and it stops once it has five points.

The loop is the method `BuildForecastArray`. It is proved equal to a reference
definition, `Forecast`, which says the same thing without a loop:

- call an entry a *representative* of its day when it is in the noon window,
  is not on the current day, and no earlier in-window entry shares its day;
- the forecast is the current point followed by the first four representatives
  in feed order.

The lemmas about `Forecast` give the properties that matter:

- 1 to 5 points, with the current point first;
- every point after the first lies in the noon window;
- no two points share a day;
- the points after the first follow feed order;
- each of them is the earliest in-window entry of its day;
- when fewer than five points come back, every day with an in-window entry is
  represented.

The time-zone dependent `toDateString` and `getHours` are the two functions
of a `Clock`, applied to epoch milliseconds (`dt * 1000`).

**The history store** (`history.dfy`, module `HistoryService`) is a class
whose field `store` is the JSON file. It is `None` when the file is absent or
not valid JSON, and that reads as the empty list.

- `AddCity` returns the first stored city whose name matches ignoring case and
  writes nothing. Otherwise it appends one new city and writes the list.
- `RemoveCity` filters out every city with the given id. It writes and answers
  true only when that changed the list.
- Pure functions `FindByName`, `Added`, `Count` and `Without` state these
  effects. The lemmas beside them prove three things. Adding keeps names
  distinct ignoring case. Adding the same name twice in any casing stores one
  entry. Filtering keeps order and removes exactly the matching entries.

Case folding (`toLowerCase`) is the class constant `lower`. The id of a new
city is a parameter, in place of the UUID generator.

Three points where the code does less or more than its own wording suggests;
the model follows the code:

- The comment at `weatherService.ts:99` speaks of one point per day "for the
  next 5 days". The break at line 121 counts the current point among the
  five, so at most four later days come back, and so does the model.
- The loop at `weatherService.ts:104` runs over the whole feed, including its
  first entry. That entry is skipped only because its day was marked as seen
  at line 102. `CurrentFromFeedNotRepeated` proves that it is never chosen
  again.
- The comment at `historyService.ts:60` speaks of removing a city. The filter
  at line 65 drops *every* city with the id, and so does the model.

## Model

| member | source | states |
|---|---|---|
| WeatherService.FetchLocationData | 02-Challenge/Develop/server/src/service/weatherService.ts:32-43 | fails with CityNotFound exactly when the geocoding list is empty, otherwise yields its first element |
| WeatherService.DestructureLocationData | 02-Challenge/Develop/server/src/service/weatherService.ts:46-52 | latitude, longitude and name are copied unchanged from the match |
| WeatherService.ParseCurrentWeather | 02-Challenge/Develop/server/src/service/weatherService.ts:83-93 | the current point is built (by `ToWeather`, the `Weather` construction) from the feed's first entry with date `dt * 1000`; an empty feed is an error |
| WeatherService.Representatives | 02-Challenge/Develop/server/src/service/weatherService.ts:104-110 | the indices below n that are in the noon window, off the current day and first in-window of their day: all of them, only them, strictly increasing |
| WeatherService.Forecast | 02-Challenge/Develop/server/src/service/weatherService.ts:96-126 | reference forecast: between 1 and 5 points, and element 0 is exactly the current point passed in |
| WeatherService.BuildForecastArray | 02-Challenge/Develop/server/src/service/weatherService.ts:96-126 | the scanning loop with its seen-days set and its break at five points returns exactly the reference forecast |
| WeatherService.EarliestOfDayRepresents | 02-Challenge/Develop/server/src/service/weatherService.ts:109-110 | every in-window entry off the current day has a representative of its day at or before it |
| WeatherService.ForecastIsSubsequence | 02-Challenge/Develop/server/src/service/weatherService.ts:104-111 | points after the first are the feed entries at strictly increasing indices, in feed order |
| WeatherService.ForecastNearNoon | 02-Challenge/Develop/server/src/service/weatherService.ts:109 | every point at index 1 or more has local hour in 11..14 |
| WeatherService.ForecastDistinctDays | 02-Challenge/Develop/server/src/service/weatherService.ts:100-110 | no two points share a calendar day, so none after the first is on the current point's day |
| WeatherService.ForecastTakesFirstOfDay | 02-Challenge/Develop/server/src/service/weatherService.ts:109-110 | each chosen entry is the earliest in-window entry of its day; no earlier in-window entry shares its day |
| WeatherService.ForecastComplete | 02-Challenge/Develop/server/src/service/weatherService.ts:104-123 | when fewer than five points are returned, every day off the current one with an in-window entry is represented |
| WeatherService.ForecastFull | 02-Challenge/Develop/server/src/service/weatherService.ts:121 | five points come back exactly when the feed has at least four representatives, and the chosen ones are the first of them |
| WeatherService.CurrentFromFeedNotRepeated | 02-Challenge/Develop/server/src/service/weatherService.ts:101-109 | when the current point is the feed's first entry, that entry is never chosen again |
| WeatherService.WeatherService.FetchAndDestructureLocationData | 02-Challenge/Develop/server/src/service/weatherService.ts:65-69 | fails with CityNotFound and leaves `cityName` alone on no match; otherwise sets `cityName` to the match's name and returns its coordinates |
| WeatherService.WeatherService.GetWeatherForCity | 02-Challenge/Develop/server/src/service/weatherService.ts:129-145 | result is CityNotFound, an error for an empty feed, or the resolved name with the reference forecast of the fetched feed |
| HistoryService.FindByName | 02-Challenge/Develop/server/src/service/historyService.ts:47 | the first index whose name matches ignoring case, or none exactly when no name matches |
| HistoryService.Added | 02-Challenge/Develop/server/src/service/historyService.ts:46-57 | unchanged when the name is present; otherwise exactly one city with that name and id appended, the earlier entries unchanged and in order |
| HistoryService.Count | 02-Challenge/Develop/server/src/service/historyService.ts:65 | the number of entries with the id; zero exactly when no entry has it |
| HistoryService.Without | 02-Challenge/Develop/server/src/service/historyService.ts:65 | the filtered list keeps exactly the entries without the id; its length is the old length minus the matches; nothing matching means unchanged |
| HistoryService.AddedKeepsDistinct | 02-Challenge/Develop/server/src/service/historyService.ts:47-54 | adding preserves "stored names pairwise distinct ignoring case" |
| HistoryService.AddedIdempotent | 02-Challenge/Develop/server/src/service/historyService.ts:47-50 | adding the same name in any casing a second time changes nothing and finds the stored city |
| HistoryService.AddedLeavesOneMatch | 02-Challenge/Develop/server/src/service/historyService.ts:47-54 | after adding a name to a list of distinct names, exactly one entry carries it ignoring case |
| HistoryService.WithoutMultiplicity | 02-Challenge/Develop/server/src/service/historyService.ts:65 | every copy of a city without the id is kept and every copy of a city with it is dropped |
| HistoryService.WithoutKeepsDistinct | 02-Challenge/Develop/server/src/service/historyService.ts:65 | removing preserves "stored names pairwise distinct ignoring case" |
| HistoryService.WithoutConcat | 02-Challenge/Develop/server/src/service/historyService.ts:65 | filtering distributes over concatenation, so the remaining entries keep their relative order |
| HistoryService.WithoutRemovesAll | 02-Challenge/Develop/server/src/service/historyService.ts:65 | afterwards no entry has the id |
| HistoryService.HistoryService.GetCities | 02-Challenge/Develop/server/src/service/historyService.ts:14-40 | covers `read()` (through `Read`) and `getCities()`: an absent file or one that is not valid JSON reads as the empty list; otherwise the stored list as it is, in insertion order |
| HistoryService.HistoryService.AddCity | 02-Challenge/Develop/server/src/service/historyService.ts:43-58 | returns the first case-insensitive match and leaves the file untouched, or appends and writes a new city with the given name and id and returns it |
| HistoryService.HistoryService.RemoveCity | 02-Challenge/Develop/server/src/service/historyService.ts:61-73 | true exactly when some entry had the id; then the filtered list is written; otherwise the file is untouched |

## Left out

- HTTP calls through axios, URL building with `encodeURIComponent`, and the API key from the environment. These are network I/O and configuration. The geocoding response is a parameter, and the forecast request is a function from coordinates to feed.
- Transport and HTTP failures of either request. The model has no network, so it has no such failures to propagate.
- Malformed feed entries (a missing `main`, `wind` or `weather[0]`). A reading is a flat record. The one malformed case modelled is an empty feed, which has no first entry.
- File reads and writes, directory creation and JSON (de)serialisation. The file is the field `store`. Write failures, which propagate in the source, do not arise in the model.
- A history file that is valid JSON but not an array of `{name, id}` records (`{}`, `null`, `[{"id":"x"}]`). `read()` returns such a value unchecked, `getCities` passes it on, and `addCity`/`removeCity` then throw a TypeError. The model has no state for such a file, so those TypeErrors are not modelled.
- UUID generation. The new id is a parameter, and nothing is claimed about its freshness.
- The Unicode semantics of `toLowerCase` and the time-zone rules behind `toDateString` and `getHours`. These are the functions `lower` and `Clock`, and nothing is assumed about them.
- Temperature, humidity and wind speed are passed through as opaque `real` values, not as floating point.
- The Express route handlers. They only map results to status codes.
- Concurrent requests. Read-modify-write races on the history file are not modelled. Nor is the weather service being one shared instance (`weatherService.ts:148`): its `cityName` is written at line 67 and read at line 138 with `await`s in between, so an overlapping request can overwrite it. `WeatherService.WeatherService.GetWeatherForCity` returns the matched name only for calls made one after another.
- `console.error` logging.
