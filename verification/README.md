# Weather client: saved cities, weather cache, search form and forecast

This project models, in Dafny, the sequential logic of a small browser weather
client. The user types a city into a search form and gets fuzzy-matched
suggestions. A search shows that city's current weather in a search panel.
The user can save cities, and each saved city gets its own panel. The saved
list and a per-city weather cache are kept in the browser's local storage.
Each shown panel lists a 5-day forecast, taken from the provider's 3-hour
readings.

The model is built from immutable datatypes and pure transition functions:

- `Results`: `Option` and `Response`. A `Response` is one network call's
  result: a parsed body, or any failure.
- `Seqs`: JavaScript's `Array.prototype.filter` with an index-aware predicate
  (`FilterIndexed`), the removal filter `Without`, duplicate-freedom and
  subsequences, with their laws.
- `Forecast` (`WeatherForecast.js`): the `index % 8 === 0` down-sampling, the
  forecast state under successful and failed responses, and the panel's
  title and entries across a change of city.
- `LocationForm` (`LocationForm.js`): the form state `(city, showSuggestions)`.
  Each handler returns the next state and the request it makes, if any:
  `LookUp`, `Search` or `Add`. Blank input is decided by a model of
  `String.prototype.trim`, which strips the WhiteSpace and LineTerminator
  code points of ECMA-262 (sections 12.2 and 12.3).
- `Weather` (`Weather.js`): the view's state. It has the saved list, the
  cache, the search slot, the error line and the did-you-mean list. The
  module defines adding, deleting, searching, typing, a request completing
  with a cache or search destination, start-up, and the panel
  classification (Loading, Unavailable, Showing).
- `WeatherLaws`: how those transitions relate to each other and to the
  panels. This covers undo, idempotence, commutation, last-write-wins and
  panel effects.
- `WeatherSession`: the whole page over time. A page is the view, the form
  and the requests in flight. Requests complete in any order, and each
  completion is one atomic step. The module proves that no city is ever
  saved twice and that every saved city has a cache entry or a request on
  the way.

Network results, fuzzy-match results and stored data are inputs to the
model. A request is a value (`Request(city, destination)`) that a transition
emits. Its completion is a later event that carries the two responses of
the request: the weather call's and the air-quality call's, each a parsed
body or a failure. `Weather.FetchOutcome` combines them into an `Outcome`:
`Ok` with a snapshot, or `Fail`.

Three consequences of the code as written are proved as lemmas:

- `WeatherSession.DeleteDuringFailedFetchStrands` and
  `WeatherSession.StrandedIsPermanent`. If a city is added and deleted while
  its request is in flight, and the request then fails, the failure writes
  the not-available marker after the delete removed the entry. From then on
  nothing can add the city again. The marker is also in the stored cache,
  so a reload does not help.
- `WeatherSession.DeleteThenSucceedShowsOldSnapshot`. The success-side twin
  of the case above. If the request succeeds after the delete, its snapshot
  is written to the cache of a city that is no longer saved. Adding the city
  again then shows that snapshot at once, with no placeholder.
- `Forecast.StaleForecastAfterFailedChange`. When a forecast panel's city
  changes and the new request fails, the panel keeps listing the previous
  city's days under the new city's title.

In these places the code behaves differently from what a reader might expect;
the model follows the code:

- After a failed forecast request, the code keeps the previous forecast; it
  does not empty it.
- A successful weather request clears the did-you-mean list.
- `addLocation` itself rejects only the empty string. The whitespace check
  is the form's.
- Forecast requests for a city that is no longer shown are not cancelled.
- Stored data that is not valid JSON makes `JSON.parse` throw; the code
  does not fall back to an empty default.

## Model

| member | source | states |
|---|---|---|
| Seqs.FilterIndexedMembers | src/components/WeatherForecast.js:15 | an element is in the filtered list exactly when it sits at an index the predicate keeps |
| Seqs.FilterIndexedIsSubsequence | src/components/WeatherForecast.js:15 | filtering only deletes elements, so the result is a subsequence of the input |
| Seqs.WithoutMembers | src/components/Weather.js:44 | after the delete filter, the values left are exactly the other cities of the list |
| Seqs.WithoutIsSubsequence | src/components/Weather.js:44 | the cities left after a delete keep their relative order (a subsequence) |
| Seqs.WithoutCounts | src/components/Weather.js:44 | the delete filter removes every occurrence of the city and keeps each other city's number of occurrences |
| Seqs.WithoutConcat | src/components/Weather.js:44 | the delete filter distributes over concatenation, so the cities on either side of the deleted one stay in order |
| Seqs.WithoutAbsent | src/components/Weather.js:44 | deleting a city that is not in the list leaves the list unchanged |
| Seqs.WithoutUnique | src/components/Weather.js:44 | in a duplicate-free list, the delete filter cuts out exactly the one position holding the city |
| Seqs.WithoutKeepsNoDuplicates | src/components/Weather.js:44 | the delete filter keeps a duplicate-free list duplicate-free |
| Seqs.WithoutCommutes | src/components/Weather.js:44 | deleting two cities gives the same list in either order |
| Seqs.WithoutIdempotent | src/components/Weather.js:44 | deleting a city twice gives the same list as deleting it once |
| Forecast.DownsampleShape | src/components/WeatherForecast.js:15 | the down-sampled forecast has (n+7)/8 entries, and entry k is reading 8k |
| Forecast.DownsampleMembers | src/components/WeatherForecast.js:15 | a reading is kept exactly when it occurs at an index that is a multiple of 8 |
| Forecast.DownsampleIsSubsequence | src/components/WeatherForecast.js:15 | the kept readings are a subsequence of the response, in their original order |
| Forecast.DownsampleEnds | src/components/WeatherForecast.js:15 | no readings give no entries; otherwise the first reading is always kept as the first entry |
| Forecast.DownsampleFiveDays | src/components/WeatherForecast.js:15 | 40 readings give exactly the 5 readings at indices 0, 8, 16, 24 and 32; at most 40 readings give at most 5 entries |
| Forecast.OnForecastResponse | src/components/WeatherForecast.js:11-19 | a response replaces the forecast with ceil(n/8) entries taken at indices 8k; a failure leaves the forecast as it was |
| Forecast.ForecastIgnoresFailures | src/components/WeatherForecast.js:7-19 | after any series of responses, the forecast equals what the successful responses alone would give |
| Forecast.ForecastAfterLatest | src/components/WeatherForecast.js:7-19 | with only failures the forecast is still the initial empty list; after a success it is that response down-sampled |
| Forecast.Complete | src/components/WeatherForecast.js:15-18 | a completed request keeps the panel's title; a successful one replaces the entries with ceil(n/8) entries, entry k being reading 8k of the response; a failed one changes nothing |
| Forecast.MountedPanelFollowsResponses | src/components/WeatherForecast.js:7-19 | a newly mounted panel keeps its title and, after any series of responses, lists exactly the forecast those responses produce from the initial empty list |
| Forecast.ChangeCityOnlyRetitles | src/components/WeatherForecast.js:9-26 | a change of the city prop only re-titles the panel: it commutes with every completion and changing back restores the panel, so the entries never depend on the title |
| Forecast.StaleForecastAfterFailedChange | src/components/WeatherForecast.js:7-26 | after a successful forecast for A, a change to B and a failed request, the panel is titled B but lists A's days |
| LocationForm.TrimStart | src/components/LocationForm.js:17 | the result is a suffix of the input; everything dropped is trimmable and the result does not start with a trimmable code point |
| LocationForm.TrimEnd | src/components/LocationForm.js:17 | the result is a prefix of the input; everything dropped is trimmable and the result does not end with a trimmable code point |
| LocationForm.BlankIffAllTrimmable | src/components/LocationForm.js:17 | `city.trim() === ''` holds exactly when every code point of the city is whitespace or a line terminator |
| LocationForm.Submit | src/components/LocationForm.js:15-20 | a search is emitted exactly when the field has a non-whitespace code point; then it searches the field as typed, keeps the field and closes the dropdown; otherwise nothing changes |
| LocationForm.AddClick | src/components/LocationForm.js:22-27 | an add is emitted exactly when the field has a non-whitespace code point; then it adds the field as typed and resets the form to empty and closed; otherwise nothing changes |
| LocationForm.DropdownAfterHandlers | src/components/LocationForm.js:8-49 | after typing, the dropdown shows exactly when the value and the suggestions are non-empty; after an accepted search or add, or a picked suggestion, it is hidden |
| LocationForm.EmittedCitiesAreNotBlank | src/components/LocationForm.js:15-27 | a city the form emits through Search or Add is neither empty nor all whitespace |
| LocationForm.AddThenNothing | src/components/LocationForm.js:22-27 | after an accepted add, an immediate second add or search does nothing |
| LocationForm.TypeThenSearch | src/components/LocationForm.js:8-20 | a typed non-blank value is searched exactly as typed, surrounding spaces included |
| LocationForm.TypingLastValueWins | src/components/LocationForm.js:8-13 | typing replaces the field whatever was typed or picked before, and every keystroke asks for suggestions for the new value |
| LocationForm.PickedSuggestionIsSubmitSkippingBlankCheck | src/components/LocationForm.js:15-33 | picking a suggestion searches for it as pressing Search with it typed in would, exactly when it is not blank; a blank suggestion is searched for anyway, where Search would do nothing |
| Weather.FetchOutcome | src/components/Weather.js:53-78 | a request succeeds exactly when the weather call succeeds and the air-quality call returns at least one reading; the snapshot carries the weather fields and the first air-quality index |
| Weather.AddLocation | src/components/Weather.js:35-41 | when the guard holds (non-empty, not saved, not marked not available), the city is appended, the search result is cleared and one cache-bound request starts; otherwise nothing changes; the cache is untouched, earlier cities keep their places, and duplicate-freedom is kept |
| Weather.DeleteLocation | src/components/Weather.js:43-50 | the city leaves the list entirely, every other city keeps its number of occurrences and the survivors stay in order (together this fixes the list exactly), and no duplicates appear; its cache key goes and every other key keeps its value |
| Weather.FetchCompleted | src/components/Weather.js:69-93 | a cache-bound completion sets only its own city's cache entry (snapshot or marker); a search-bound one sets only the search slot; success clears the error and the suggestions; failure sets "City not found: " + city and the matches |
| Weather.Refresh | src/components/Weather.js:97-101 | start-up refresh issues one cache-bound request per saved city, in list order |
| Weather.Startup | src/components/Weather.js:19-25 | the stored list and cache are loaded, each defaulting to empty when absent; every saved city is refreshed, and nothing else is requested |
| Weather.SavedPanel | src/components/Weather.js:174-210 | a saved city's panel is Loading exactly when the cache has no entry, Unavailable exactly when the entry is the marker, and otherwise shows the cached snapshot |
| Weather.SearchPanel | src/components/Weather.js:127-166 | the search panel is drawn exactly when there is a search result; it is never a placeholder, and it is unavailable exactly for the marker |
| Weather.SearchHeading | src/components/Weather.js:129 | the heading is the provider's name when there is a non-empty one, else "City not available"; it is never empty |
| WeatherLaws.CanAddIffNotShownUnavailable | src/components/Weather.js:35-41 | a city can be added exactly when it is non-empty, not saved, and its panel would not read "not available" |
| WeatherLaws.AddTwiceIsAddOnce | src/components/Weather.js:35-41 | adding the same city twice in a row: the second add changes nothing and requests nothing |
| WeatherLaws.DeleteUndoesAdd | src/components/Weather.js:35-50 | deleting a just-added city with no cache entry restores the earlier state, except that the search panel stays cleared |
| WeatherLaws.DeleteThenAddRefetches | src/components/Weather.js:35-50 | immediately after a delete, with no earlier request for the city completing in between, the city can be added again; this starts a fresh request and its panel shows Loading, not old data |
| WeatherLaws.DeleteTwiceIsDeleteOnce | src/components/Weather.js:43-50 | deleting is idempotent on the whole state |
| WeatherLaws.DeletesCommute | src/components/Weather.js:43-50 | deleting two cities gives the same state in either order |
| WeatherLaws.DeleteCutsOnePosition | src/components/Weather.js:44 | in a duplicate-free list, deleting the city at position k removes exactly that position; deleting an unsaved city leaves the list as it was |
| WeatherLaws.CacheFetchDrivesPanel | src/components/Weather.js:69-72 | a cache-bound completion shows its city's snapshot or "not available" and leaves every other panel as it was |
| WeatherLaws.SearchFetchDrivesPanel | src/components/Weather.js:73-86 | a search-bound completion decides the search panel and leaves every saved city's panel as it was |
| WeatherLaws.ErrorLineFollowsOutcome | src/components/Weather.js:76-93 | after a completion the error line is shown exactly when the request failed |
| WeatherLaws.HintsFollowOutcome | src/components/Weather.js:77-92 | after a success no panel shows a did-you-mean list; after a failed cache-bound request its city's panel shows one exactly when there are matches |
| WeatherLaws.LaterCompletionWins | src/components/Weather.js:69-85 | two completions of the same request leave the state the later one alone would leave |
| WeatherLaws.CacheWritesCommute | src/components/Weather.js:69-72 | two cache-bound completions for different cities leave the same cache in either order |
| WeatherSession.Boot | src/components/Weather.js:19-25 | after start-up the saved list is the stored one (or empty), each saved panel is what the stored cache gives, exactly the saved cities have a cache-bound request in flight and nothing else is requested, the page is consistent when the stored list has no duplicates, and the form, dropdown, search panel and error line are empty |
| WeatherSession.StepKeepsConsistent | src/components/Weather.js:35-115 | every user action or completion keeps the list duplicate-free and keeps each saved city either cached or with a cache-bound request in flight |
| WeatherSession.CompleteKeepsConsistent | src/components/Weather.js:69-93 | a completion, in any order, keeps the page consistent: the request it ends covered only its own city, and a cache-bound completion writes that city's entry |
| WeatherSession.RunKeepsConsistent | src/components/Weather.js:35-115 | any series of events keeps the page consistent |
| WeatherSession.NeverSavedTwice | src/components/Weather.js:36-37 | from a duplicate-free stored list, no series of adds, deletes, searches or completions ever saves a city twice |
| WeatherSession.SettledPageHasNoPlaceholders | src/components/Weather.js:97-101 | once no cache-bound request is in flight, no saved city's panel is Loading |
| WeatherSession.RestartShowsCacheThenRefetches | src/components/Weather.js:19-25 | restarting with Paris cached and Tokyo not: Paris shows its cached weather, Tokyo shows Loading, and both are refetched |
| WeatherSession.FormAddPassesEmptinessCheck | src/components/LocationForm.js:22-27 | a city added from the form always passes the view's emptiness check; only the duplicate and marker checks can reject it |
| WeatherSession.StepKeepsStranded | src/components/Weather.js:35-93 | once a city is unsaved, marked not available and has no cache-bound request in flight, no event changes that |
| WeatherSession.AddKeepsStranded | src/components/Weather.js:35-41 | no add, of any city, un-strands a stranded city |
| WeatherSession.CompleteKeepsStranded | src/components/Weather.js:69-93 | no completion un-strands a stranded city |
| WeatherSession.StrandedIsPermanent | src/components/Weather.js:35-50 | a stranded city stays out of the saved list after any series of events |
| WeatherSession.TypeThenAddFromForm | src/components/LocationForm.js:8-27 | typing an addable non-blank city and pressing Add saves it and leaves exactly its cache-bound request in flight |
| WeatherSession.DeleteThenFailStrands | src/components/Weather.js:43-83 | deleting a city while its only request is in flight, then having that request's weather call fail, strands the city |
| WeatherLaws.AirQualityDecidesSavedPanel | src/components/Weather.js:53-83 | after a successful weather call, the saved panel reads "not available" exactly when the air-quality call fails or lists no reading, and then the state is as if the weather call had failed |
| WeatherSession.DeleteDuringFailedFetchStrands | src/components/Weather.js:36-83 | type, add, delete before the request completes, then the request fails: the city ends up stranded |
| WeatherSession.TypingOnlyShowsMatches | src/components/Weather.js:103-110 | typing starts no request and changes no panel; the did-you-mean list becomes the matches and the dropdown shows exactly when both the value and the matches are non-empty |
| WeatherSession.SearchStartsOneRequest | src/components/Weather.js:112-115 | a search from the form or from a shown suggestion changes nothing in the view and starts exactly one search-bound request for that name; a blank field or a hidden dropdown starts nothing |
| WeatherSession.DeleteThenSucceedShowsOldSnapshot | src/components/Weather.js:43-78 | a request that succeeds after its city was deleted writes the snapshot into the cache anyway, so the city can be re-added and at once shows that snapshot |

## Left out

- HTTP calls to the weather, air-quality and forecast endpoints (`Weather.js` 55-64, `WeatherForecast.js` 12-14). They are network I/O, so their results are the `Response` and `Outcome` inputs.
- Writing the list and cache to local storage, and JSON parsing and stringifying (`Weather.js` 19-33). This is browser I/O. Start-up takes the stored values as `Option` inputs. A stored value that is not valid JSON makes the code throw; this case is not modelled.
- Fuzzy matching with Fuse.js (`Weather.js` 87-92, 104-109). It is a third-party library, so its matches are an arbitrary `seq<City>` input.
- Kelvin to Celsius with `Math.round(temp - 273.15)` (`Weather.js` 149, 193; `WeatherForecast.js` 31). This is floating-point display arithmetic.
- Date formatting with `toLocaleDateString` (`WeatherForecast.js` 30). It depends on the host locale.
- Concurrency inside one request. The two calls of a weather request and React's batching of its state updates are one atomic completion. Completions of different requests may happen in any order.
- Forecast responses are not tied to the city they were requested for. The panel applies completions in arrival order, which is what the code does: it does not cancel requests.
- Response shape errors. A body without `coord`, `main` or a first `weather` element throws in the code or in rendering. The model treats any unusable body as a failed `Response` and assumes stored snapshots are well formed.
- Console logging, JSX, icons, CSS, and `src/App.js`. They are layout with no logic.
- Weather.SavedPanel: the cache is a map with exactly the cities written to it. In the code it is a plain object, so a name inherited from `Object.prototype` ("constructor", "toString", "__proto__", ...) reads as present: adding "constructor" passes the guard on line 36, and rendering its panel reads `.main.temp` of a function and throws (lines 174 and 193), where the model shows Loading. Weather.CanAdd and Weather.MarkedNotAvailable likewise do not model inherited keys.
- Weather.FetchOutcome: the snapshot keeps only the fields the panels read (name, temperature, humidity, description, air-quality index). The code keeps the whole response body.
