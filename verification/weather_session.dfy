/** The whole page over time: the weather view, the search form inside it, and
    the weather requests that have started but not completed. Requests may
    complete in any order; each completion is one atomic step. */
module WeatherSession {
  import opened Results
  import opened Seqs
  import opened Weather
  import LocationForm

  /** The page: the view's state, the form's state, and the requests in flight. */
  datatype World = World(app: State, form: LocationForm.FormState, pending: seq<Request>)

  /** Something that happens on the page. */
  datatype Event =
    | Type(value: string, matches: seq<City>)          // a keystroke; `matches` are the fuzzy matches of `value`
    | SubmitForm                                        // Search button or Enter
    | AddFromForm                                       // the form's Add button
    | PickSuggestion(suggestion: City)                  // a click on a dropdown entry
    | AddShownResult                                    // the search panel's Add button
    | DeleteCity(city: City)                            // a saved city's Delete button
    | Complete(index: nat, weather: Response<WeatherBody>, air: Response<AirQualityBody>, matches: seq<City>)
        // the pending request at `index` ends with these two responses; `matches` are the fuzzy matches of its city

  /** The page right after start-up: saved data loaded, the form empty, one
      request in flight per saved city. */
  function Boot(saved: Option<seq<City>>, savedCache: Option<map<City, Entry>>): (w: World)
    ensures w.app.locations == (if saved.Some? then saved.value else [])
    ensures forall c :: SavedPanel(w.app.cache, c) == SavedPanel(if savedCache.Some? then savedCache.value else map[], c)
    ensures forall c :: Request(c, ToCache) in w.pending <==> c in w.app.locations
    ensures forall r :: r in w.pending ==> r.destination == ToCache
    ensures (saved.None? || NoDuplicates(saved.value)) ==> Consistent(w)
    ensures w.form.city == "" && !LocationForm.DropdownShown(w.form, w.app.suggestions)
    ensures SearchPanel(w.app.searchResult).None? && !ErrorShown(w.app)
  {
    var t := Startup(saved, savedCache);
    World(t.state, LocationForm.Initial, t.requests)
  }

  /** Starts the requests of a transition. */
  function Apply(w: World, t: Transition, form: LocationForm.FormState): World {
    World(t.state, form, w.pending + t.requests)
  }

  /** The page after one event. Buttons that are not drawn cannot be pressed:
      a suggestion can be picked only from a shown dropdown, the search
      panel's Add exists only over a snapshot, and Delete only for a saved
      city. */
  function Step(w: World, e: Event): World {
    match e
    case Type(value, matches) =>
      World(ShowMatches(w.app, matches), LocationForm.InputChange(w.form, value).state, w.pending)
    case SubmitForm =>
      var f := LocationForm.Submit(w.form);
      if f.emitted.Some? then Apply(w, Search(w.app, f.emitted.value.city), f.state) else w
    case AddFromForm =>
      var f := LocationForm.AddClick(w.form);
      if f.emitted.Some? then Apply(w, AddLocation(w.app, f.emitted.value.city), f.state) else w
    case PickSuggestion(suggestion) =>
      if LocationForm.DropdownShown(w.form, w.app.suggestions) && suggestion in w.app.suggestions then
        var f := LocationForm.SuggestionClick(w.form, suggestion);
        Apply(w, Search(w.app, suggestion), f.state)
      else w
    case AddShownResult =>
      if w.app.searchResult.Some? && w.app.searchResult.value.Available? then
        Apply(w, AddLocation(w.app, w.app.searchResult.value.snapshot.name), w.form)
      else w
    case DeleteCity(city) =>
      if city in w.app.locations then w.(app := DeleteLocation(w.app, city)) else w
    case Complete(i, weather, air, matches) =>
      if i < |w.pending| then
        World(FetchCompleted(w.app, w.pending[i], FetchOutcome(weather, air), matches), w.form,
              w.pending[..i] + w.pending[i + 1..])
      else w
  }

  /** The page after a series of events. */
  function Run(w: World, events: seq<Event>): World
    decreases |events|
  {
    if |events| == 0 then w
    else Step(Run(w, events[..|events| - 1]), events[|events| - 1])
  }

  /** Every saved city either has a cache entry or a cache-bound request in
      flight, so its placeholder will be replaced. */
  ghost predicate Covered(w: World) {
    forall c :: c in w.app.locations ==> c in w.app.cache || Request(c, ToCache) in w.pending
  }

  /** The page's invariant: no city is saved twice, and every saved city is
      covered. */
  ghost predicate Consistent(w: World) {
    NoDuplicates(w.app.locations) && Covered(w)
  }

  /** Completing request `i` leaves every other request in flight. */
  lemma RemoveAtKeepsOthers(pending: seq<Request>, i: nat, r: Request)
    requires i < |pending| && r in pending && r != pending[i]
    ensures r in pending[..i] + pending[i + 1..]
  {
    var j :| 0 <= j < |pending| && pending[j] == r;
    if j < i {
      assert (pending[..i] + pending[i + 1..])[j] == r;
    } else {
      assert (pending[..i] + pending[i + 1..])[j - 1] == r;
    }
  }

  /** Every event keeps the page consistent. */
  lemma StepKeepsConsistent(w: World, e: Event)
    requires Consistent(w)
    ensures Consistent(Step(w, e))
  {
    match e
    case Type(_, _) =>
    case SubmitForm =>
    case AddFromForm =>
    case PickSuggestion(_) =>
    case AddShownResult =>
    case DeleteCity(city) =>
    case Complete(i, weather, air, matches) =>
      if i < |w.pending| {
        CompleteKeepsConsistent(w, i, FetchOutcome(weather, air), matches);
      }
  }

  /** A completion keeps the page consistent: the request it ends covered
      only its own city, which the completion writes into the cache when the
      request was cache-bound. */
  lemma CompleteKeepsConsistent(w: World, i: nat, outcome: Outcome, matches: seq<City>)
    requires Consistent(w) && i < |w.pending|
    ensures Consistent(World(FetchCompleted(w.app, w.pending[i], outcome, matches), w.form,
                             w.pending[..i] + w.pending[i + 1..]))
  {
    var r := w.pending[i];
    var app' := FetchCompleted(w.app, r, outcome, matches);
    var rest := w.pending[..i] + w.pending[i + 1..];
    forall c | c in app'.locations
      ensures c in app'.cache || Request(c, ToCache) in rest
    {
      if c !in w.app.cache && Request(c, ToCache) != r {
        RemoveAtKeepsOthers(w.pending, i, Request(c, ToCache));
      }
    }
  }

  /** Any series of events keeps the page consistent. */
  lemma {:induction false} RunKeepsConsistent(w: World, events: seq<Event>)
    requires Consistent(w)
    ensures Consistent(Run(w, events))
    decreases |events|
  {
    if |events| > 0 {
      RunKeepsConsistent(w, events[..|events| - 1]);
      StepKeepsConsistent(Run(w, events[..|events| - 1]), events[|events| - 1]);
    }
  }

  /** A page booted from a duplicate-free saved list is consistent, and so
      stays after any events: no city is ever saved twice. */
  lemma NeverSavedTwice(saved: seq<City>, savedCache: Option<map<City, Entry>>, events: seq<Event>)
    requires NoDuplicates(saved)
    ensures Consistent(Run(Boot(Some(saved), savedCache), events))
    ensures NoDuplicates(Run(Boot(Some(saved), savedCache), events).app.locations)
  {
    RunKeepsConsistent(Boot(Some(saved), savedCache), events);
  }

  /** Once no cache-bound request is in flight, no saved city shows the
      loading placeholder. */
  lemma SettledPageHasNoPlaceholders(w: World, city: City)
    requires Consistent(w)
    requires forall i :: 0 <= i < |w.pending| ==> w.pending[i].destination == ToSearch
    requires city in w.app.locations
    ensures SavedPanel(w.app.cache, city) != Loading
  {
    assert Request(city, ToCache) !in w.pending;
  }

  /** The restart case: with "Paris" and "Tokyo" saved and only Paris cached,
      Paris shows its cached weather at once, Tokyo shows the placeholder, and
      both are refetched. */
  lemma RestartShowsCacheThenRefetches(paris: Snapshot)
    ensures var w := Boot(Some(["Paris", "Tokyo"]), Some(map["Paris" := Available(paris)]));
      && SavedPanel(w.app.cache, "Paris") == Showing(paris)
      && SavedPanel(w.app.cache, "Tokyo") == Loading
      && w.pending == [Request("Paris", ToCache), Request("Tokyo", ToCache)]
  {
    var w := Boot(Some(["Paris", "Tokyo"]), Some(map["Paris" := Available(paris)]));
    assert "Tokyo" != "Paris";
    assert |w.pending| == 2;
  }

  /** A city typed into the form and added is never rejected for being
      empty: the form's own blank check is the stronger one. */
  lemma FormAddPassesEmptinessCheck(w: World)
    requires LocationForm.AddClick(w.form).emitted.Some?
    ensures var city := LocationForm.AddClick(w.form).emitted.value.city;
      CanAdd(w.app, city) <==> city !in w.app.locations && !MarkedNotAvailable(w.app.cache, city)
  {
    LocationForm.EmittedCitiesAreNotBlank(w.form);
  }

  /** A city that is not saved, is marked not available, and has no cache-bound
      request in flight. */
  ghost predicate Stranded(w: World, city: City) {
    && city !in w.app.locations
    && MarkedNotAvailable(w.app.cache, city)
    && Request(city, ToCache) !in w.pending
  }

  /** Nothing on the page un-strands a city: it cannot be deleted (it is not
      listed), cannot be added (it is marked), and no request will overwrite
      its marker. */
  lemma StepKeepsStranded(w: World, e: Event, city: City)
    requires Stranded(w, city)
    ensures Stranded(Step(w, e), city)
  {
    match e
    case Type(_, _) =>
    case SubmitForm =>
    case AddFromForm =>
      var f := LocationForm.AddClick(w.form);
      if f.emitted.Some? {
        AddKeepsStranded(w, f.emitted.value.city, f.state, city);
      }
    case PickSuggestion(_) =>
    case AddShownResult =>
      if w.app.searchResult.Some? && w.app.searchResult.value.Available? {
        AddKeepsStranded(w, w.app.searchResult.value.snapshot.name, w.form, city);
      }
    case DeleteCity(c) =>
    case Complete(i, weather, air, matches) =>
      if i < |w.pending| {
        CompleteKeepsStranded(w, i, FetchOutcome(weather, air), matches, city);
      }
  }

  /** An add, of whatever city, cannot un-strand one. */
  lemma AddKeepsStranded(w: World, added: City, form: LocationForm.FormState, city: City)
    requires Stranded(w, city)
    ensures Stranded(Apply(w, AddLocation(w.app, added), form), city)
  {
  }

  /** A completion cannot un-strand a city: the request it ends is not a
      cache-bound one for that city. */
  lemma CompleteKeepsStranded(w: World, i: nat, outcome: Outcome, matches: seq<City>, city: City)
    requires Stranded(w, city) && i < |w.pending|
    ensures Stranded(World(FetchCompleted(w.app, w.pending[i], outcome, matches), w.form,
                           w.pending[..i] + w.pending[i + 1..]), city)
  {
    var rest := w.pending[..i] + w.pending[i + 1..];
    assert Request(city, ToCache) !in rest by {
      forall j | 0 <= j < |rest|
        ensures rest[j] != Request(city, ToCache)
      {
        if j < i {
          assert rest[j] == w.pending[j];
        } else {
          assert rest[j] == w.pending[j + 1];
        }
      }
    }
  }

  /** A stranded city stays out of the saved list whatever happens next. */
  lemma {:induction false} StrandedIsPermanent(w: World, events: seq<Event>, city: City)
    requires Stranded(w, city)
    ensures Stranded(Run(w, events), city)
    ensures city !in Run(w, events).app.locations
    decreases |events|
  {
    if |events| > 0 {
      StrandedIsPermanent(w, events[..|events| - 1], city);
      StepKeepsStranded(Run(w, events[..|events| - 1]), events[|events| - 1], city);
    }
  }

  /** Typing a non-blank city that can be added, then pressing the form's
      Add, saves it and leaves exactly its cache-bound request in flight. */
  lemma TypeThenAddFromForm(w: World, city: City, matches: seq<City>)
    requires w.pending == [] && CanAdd(w.app, city)
    requires exists i :: 0 <= i < |city| && !LocationForm.IsTrimmable(city[i])
    ensures var w2 := Step(Step(w, Type(city, matches)), AddFromForm);
      city in w2.app.locations && w2.pending == [Request(city, ToCache)]
  {
    var w1 := Step(w, Type(city, matches));
    assert w1.form.city == city && w1.pending == [];
    assert CanAdd(w1.app, city);
    assert LocationForm.AddClick(w1.form).emitted == Some(LocationForm.Add(city));
  }

  /** Deleting a saved city whose request is the only one in flight, and
      then having that request's weather call fail, strands the city. */
  lemma DeleteThenFailStrands(w: World, city: City, air: Response<AirQualityBody>, failMatches: seq<City>)
    requires city in w.app.locations && w.pending == [Request(city, ToCache)]
    ensures Stranded(Step(Step(w, DeleteCity(city)), Complete(0, Failed, air, failMatches)), city)
  {
    var w3 := Step(w, DeleteCity(city));
    assert w3.pending == [Request(city, ToCache)] && city !in w3.app.locations;
    assert FetchOutcome(Failed, air) == Fail;
    var w4 := Step(w3, Complete(0, Failed, air, failMatches));
    assert w4.app == FetchCompleted(w3.app, Request(city, ToCache), Fail, failMatches);
    assert w4.pending == [];
  }

  /** How a city gets stranded: it is typed and added, deleted while its
      request is still in flight, and the request then fails. The failure
      writes the marker after the delete removed the entry. */
  lemma DeleteDuringFailedFetchStrands(w: World, city: City, matches: seq<City>,
                                       air: Response<AirQualityBody>, failMatches: seq<City>)
    requires w.pending == [] && CanAdd(w.app, city)
    requires exists i :: 0 <= i < |city| && !LocationForm.IsTrimmable(city[i])
    ensures
      var w2 := Step(Step(w, Type(city, matches)), AddFromForm);
      && city in w2.app.locations
      && Stranded(Step(Step(w2, DeleteCity(city)), Complete(0, Failed, air, failMatches)), city)
  {
    TypeThenAddFromForm(w, city, matches);
    DeleteThenFailStrands(Step(Step(w, Type(city, matches)), AddFromForm), city, air, failMatches);
  }

  /** Typing touches only the form and the did-you-mean list: no request
      starts, no panel changes, and the dropdown shows exactly when both the
      typed value and its matches are non-empty. */
  lemma TypingOnlyShowsMatches(w: World, value: string, matches: seq<City>, city: City)
    ensures var w' := Step(w, Type(value, matches));
      && w'.pending == w.pending
      && w'.app.suggestions == matches
      && w'.app.(suggestions := w.app.suggestions) == w.app
      && SavedPanel(w'.app.cache, city) == SavedPanel(w.app.cache, city)
      && (LocationForm.DropdownShown(w'.form, w'.app.suggestions) <==> |value| > 0 && |matches| > 0)
  {
  }

  /** Searching, by Search button or by a shown suggestion, changes nothing in
      the view and starts exactly one search-bound request for the searched
      name; a blank field or a hidden dropdown starts nothing. */
  lemma SearchStartsOneRequest(w: World, suggestion: City)
    ensures var w' := Step(w, SubmitForm);
      && w'.app == w.app
      && ((w'.pending == w.pending + [Request(w.form.city, ToSearch)]) <==>
          (exists i :: 0 <= i < |w.form.city| && !LocationForm.IsTrimmable(w.form.city[i])))
      && (w'.pending == w.pending || w'.pending == w.pending + [Request(w.form.city, ToSearch)])
    ensures var w' := Step(w, PickSuggestion(suggestion));
      && w'.app == w.app
      && (if LocationForm.DropdownShown(w.form, w.app.suggestions) && suggestion in w.app.suggestions
          then w'.pending == w.pending + [Request(suggestion, ToSearch)]
          else w' == w)
  {
    var f := LocationForm.Submit(w.form);
    assert |w.pending + [Request(w.form.city, ToSearch)]| != |w.pending|;
  }

  /** A delete while the city's request is in flight does not stop it: when
      the request then succeeds, the snapshot lands in the cache of a city
      that is no longer saved, so adding it again shows that snapshot at once
      instead of a placeholder. */
  lemma DeleteThenSucceedShowsOldSnapshot(w: World, city: City, body: WeatherBody, aqi: int, matches: seq<City>)
    requires city in w.app.locations && w.pending == [Request(city, ToCache)]
    ensures var w' := Step(Step(w, DeleteCity(city)), Complete(0, Received(body), Received(AirQualityBody([aqi])), matches));
      && city !in w'.app.locations
      && w'.pending == []
      && SavedPanel(w'.app.cache, city) == Showing(Snapshot(body.name, body.temperature, body.humidity, body.description, aqi))
      && (city != "" ==>
            && CanAdd(w'.app, city)
            && SavedPanel(AddLocation(w'.app, city).state.cache, city) == SavedPanel(w'.app.cache, city))
  {
    var w3 := Step(w, DeleteCity(city));
    assert w3.pending == [Request(city, ToCache)] && city !in w3.app.locations;
    var o := FetchOutcome(Received(body), Received(AirQualityBody([aqi])));
    assert o == Ok(Snapshot(body.name, body.temperature, body.humidity, body.description, aqi));
  }
}
