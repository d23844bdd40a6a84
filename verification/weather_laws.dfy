/** How the weather view's transitions relate to each other and to what the
    panels show. */
module WeatherLaws {
  import opened Results
  import opened Seqs
  import opened Weather

  /** The add guard, phrased through what the user sees: a non-empty name
      that is not in the list and whose panel would not read "not available". */
  lemma CanAddIffNotShownUnavailable(s: State, city: City)
    ensures CanAdd(s, city) <==> city != "" && city !in s.locations && !SavedPanel(s.cache, city).Unavailable?
  {
  }

  /** Adding the same city twice in a row: the second add does nothing and
      starts no request. */
  lemma AddTwiceIsAddOnce(s: State, city: City)
    ensures var t := AddLocation(s, city);
      AddLocation(t.state, city) == Transition(t.state, [])
  {
    var t := AddLocation(s, city);
    if CanAdd(s, city) {
      assert city in t.state.locations;
    }
  }

  /** Adding a city that has no cache entry and then deleting it restores the
      state, except that the search panel stays cleared. */
  lemma DeleteUndoesAdd(s: State, city: City)
    requires CanAdd(s, city) && city !in s.cache
    ensures DeleteLocation(AddLocation(s, city).state, city) == s.(searchResult := None)
  {
    var t := AddLocation(s, city).state;
    WithoutConcat(s.locations, [city], city);
    WithoutAbsent(s.locations, city);
    assert [city][..0] == [];
    assert Without([city], city) == [];
    assert t.cache - {city} == s.cache;
  }

  /** After a city is deleted it can be added again, and the new panel waits
      for a fresh request instead of showing old data. */
  lemma DeleteThenAddRefetches(s: State, city: City)
    requires city != ""
    ensures var d := DeleteLocation(s, city);
      && CanAdd(d, city)
      && AddLocation(d, city).requests == [Request(city, ToCache)]
      && SavedPanel(AddLocation(d, city).state.cache, city) == Loading
  {
  }

  /** Deleting is idempotent. */
  lemma DeleteTwiceIsDeleteOnce(s: State, city: City)
    ensures DeleteLocation(DeleteLocation(s, city), city) == DeleteLocation(s, city)
  {
    WithoutIdempotent(s.locations, city);
    assert s.cache - {city} - {city} == s.cache - {city};
  }

  /** Deleting two cities gives the same state in either order. */
  lemma DeletesCommute(s: State, a: City, b: City)
    ensures DeleteLocation(DeleteLocation(s, a), b) == DeleteLocation(DeleteLocation(s, b), a)
  {
    WithoutCommutes(s.locations, a, b);
    assert s.cache - {a} - {b} == s.cache - {b} - {a};
  }

  /** In a duplicate-free list, deleting the city at position `k` cuts out
      exactly that position; deleting a city that is not saved leaves the
      list as it was. */
  lemma DeleteCutsOnePosition(s: State, k: nat, other: City)
    requires NoDuplicates(s.locations) && k < |s.locations|
    ensures DeleteLocation(s, s.locations[k]).locations == s.locations[..k] + s.locations[k + 1..]
    ensures other !in s.locations ==> DeleteLocation(s, other).locations == s.locations
  {
    WithoutUnique(s.locations, k);
    if other !in s.locations {
      WithoutAbsent(s.locations, other);
    }
  }

  /** A completed cache-bound request decides its own city's panel -- the
      snapshot on success, "not available" on failure -- and leaves every
      other saved city's panel and the search panel as they were. */
  lemma CacheFetchDrivesPanel(s: State, city: City, outcome: Outcome, matches: seq<City>, other: City)
    requires other != city
    ensures var t := FetchCompleted(s, Request(city, ToCache), outcome, matches);
      && SavedPanel(t.cache, city) == (if outcome.Ok? then Showing(outcome.snapshot) else Unavailable)
      && SavedPanel(t.cache, other) == SavedPanel(s.cache, other)
      && SearchPanel(t.searchResult) == SearchPanel(s.searchResult)
  {
  }

  /** A completed search-bound request decides the search panel and leaves
      every saved city's panel as it was. */
  lemma SearchFetchDrivesPanel(s: State, city: City, outcome: Outcome, matches: seq<City>, other: City)
    ensures var t := FetchCompleted(s, Request(city, ToSearch), outcome, matches);
      && SearchPanel(t.searchResult) == Some(if outcome.Ok? then Showing(outcome.snapshot) else Unavailable)
      && SavedPanel(t.cache, other) == SavedPanel(s.cache, other)
  {
  }

  /** A failure always leaves a visible error line naming the city; a success
      always removes it. */
  lemma ErrorLineFollowsOutcome(s: State, req: Request, outcome: Outcome, matches: seq<City>)
    ensures ErrorShown(FetchCompleted(s, req, outcome, matches)) <==> outcome.Fail?
  {
  }

  /** After a success no panel shows a did-you-mean list; after a failed
      cache-bound request, that city's panel shows one exactly when there
      are matches for its name. */
  lemma HintsFollowOutcome(s: State, req: Request, outcome: Outcome, matches: seq<City>, city: City)
    ensures var t := FetchCompleted(s, req, outcome, matches);
      outcome.Ok? ==> !HintsShown(SavedPanel(t.cache, city), t.suggestions)
    ensures var t := FetchCompleted(s, req, outcome, matches);
      req.destination.ToCache? && outcome.Fail? ==>
        (HintsShown(SavedPanel(t.cache, req.city), t.suggestions) <==> |matches| > 0)
  {
  }

  /** Re-fetching the same request overwrites: only the later completion is
      visible. */
  lemma LaterCompletionWins(s: State, req: Request, first: Outcome, m1: seq<City>, second: Outcome, m2: seq<City>)
    ensures FetchCompleted(FetchCompleted(s, req, first, m1), req, second, m2) == FetchCompleted(s, req, second, m2)
  {
    if req.destination.ToCache? {
      var e1 := EntryOf(first);
      var e2 := EntryOf(second);
      assert s.cache[req.city := e1][req.city := e2] == s.cache[req.city := e2];
    }
  }

  /** Cache writes are keyed by city, so two completed cache-bound requests
      for different cities leave the same cache whichever finishes first. */
  lemma CacheWritesCommute(s: State, a: City, oa: Outcome, ma: seq<City>, b: City, ob: Outcome, mb: seq<City>)
    requires a != b
    ensures
      FetchCompleted(FetchCompleted(s, Request(a, ToCache), oa, ma), Request(b, ToCache), ob, mb).cache ==
      FetchCompleted(FetchCompleted(s, Request(b, ToCache), ob, mb), Request(a, ToCache), oa, ma).cache
  {
    var ea := EntryOf(oa);
    var eb := EntryOf(ob);
    assert s.cache[a := ea][b := eb] == s.cache[b := eb][a := ea];
  }

  /** A weather call that succeeds is not enough: when the air-quality call
      fails or lists no reading, the saved city's panel reads "not available"
      and the error line names the city, exactly as if the weather call had
      failed. */
  lemma AirQualityDecidesSavedPanel(s: State, city: City, body: WeatherBody, air: Response<AirQualityBody>, matches: seq<City>)
    ensures var t := FetchCompleted(s, Request(city, ToCache), FetchOutcome(Received(body), air), matches);
      && (SavedPanel(t.cache, city) == Unavailable <==> air.Failed? || |air.body.aqi| == 0)
      && (air.Failed? || |air.body.aqi| == 0 ==>
            t == FetchCompleted(s, Request(city, ToCache), FetchOutcome(Failed, air), matches))
  {
  }
}
