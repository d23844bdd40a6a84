/** The weather view: the saved cities, the weather cache keyed by city name,
    the transient search result, the error line and the did-you-mean list,
    and the transitions the user's actions and the completed weather requests
    make on them. Requests to the weather service are emitted as values; their
    results come back as abstract outcomes. */
module Weather {
  import opened Results
  import opened Seqs

  /** A city name, as typed or chosen; compared exactly (case-sensitive). */
  type City = string

  /** What a successful request yields: the weather body's fields the panels
      read, merged with the first air-quality index. */
  datatype Snapshot = Snapshot(
    name: string,           // the provider's display name for the city
    temperature: real,      // Kelvin, as the provider reports it
    humidity: int,          // percent
    description: string,
    airQuality: int)

  /** A cache or search-result entry: a snapshot, or the `{notAvailable: true}`
      marker a failed request leaves behind. */
  datatype Entry = Available(snapshot: Snapshot) | NotAvailable

  /** The parts of the current-weather response the view uses. */
  datatype WeatherBody = WeatherBody(name: string, temperature: real, humidity: int, description: string)

  /** The air-quality response: its list of readings, reduced to their indices. */
  datatype AirQualityBody = AirQualityBody(aqi: seq<int>)

  /** How one weather request ended. */
  datatype Outcome = Ok(snapshot: Snapshot) | Fail

  /** One request combines the weather call and, on its success, the
      air-quality call at the returned coordinates. Any failure of either --
      including an air-quality list with no first reading -- fails the whole
      request; there is no partial snapshot without an air-quality index. */
  function FetchOutcome(weather: Response<WeatherBody>, air: Response<AirQualityBody>): (o: Outcome)
    ensures o.Ok? <==> weather.Received? && air.Received? && |air.body.aqi| > 0
    ensures o.Ok? ==>
      && o.snapshot.name == weather.body.name
      && o.snapshot.temperature == weather.body.temperature
      && o.snapshot.humidity == weather.body.humidity
      && o.snapshot.description == weather.body.description
      && o.snapshot.airQuality == air.body.aqi[0]
  {
    match weather
    case Failed => Fail
    case Received(w) =>
      match air
      case Failed => Fail
      case Received(a) =>
        if |a.aqi| == 0 then Fail
        else Ok(Snapshot(w.name, w.temperature, w.humidity, w.description, a.aqi[0]))
  }

  /** The entry an outcome is recorded as. */
  function EntryOf(o: Outcome): Entry {
    match o
    case Ok(snapshot) => Available(snapshot)
    case Fail => NotAvailable
  }

  /** The view's state. */
  datatype State = State(
    locations: seq<City>,           // saved cities, in the order they were added
    cache: map<City, Entry>,        // last result per city
    searchResult: Option<Entry>,    // the search panel's entry; None hides the panel
    error: Option<string>,          // the error line
    suggestions: seq<City>)         // the did-you-mean list

  /** The state before the saved data is loaded. */
  const Initial := State([], map[], None, None, [])

  /** Where a request's result is to be written. */
  datatype Destination = ToCache | ToSearch

  /** A weather request the view has started. */
  datatype Request = Request(city: City, destination: Destination)

  /** A new state, and the requests started on the way to it. */
  datatype Transition = Transition(state: State, requests: seq<Request>)

  /** The error line's text before the failing city's name. */
  const NotFoundPrefix := "City not found: "

  /** The text of a panel that holds the not-available marker. */
  const NotAvailableText := "City not available"

  /** `weatherData[city]?.notAvailable`. */
  predicate MarkedNotAvailable(cache: map<City, Entry>, city: City) {
    city in cache && cache[city].NotAvailable?
  }

  /** The guard of adding a city: the name is non-empty (JavaScript
      truthiness of a string), not yet saved, and not marked not available. */
  predicate CanAdd(s: State, city: City) {
    city != "" && city !in s.locations && !MarkedNotAvailable(s.cache, city)
  }

  /** Adding a city: when the guard holds, the city goes to the end of the
      list, the search panel is cleared and a cache-bound request starts;
      otherwise nothing at all happens. The cache is not touched until the
      request completes. */
  function AddLocation(s: State, city: City): (t: Transition)
    ensures CanAdd(s, city) ==>
      && t.state.locations == s.locations + [city]
      && t.state.searchResult == None
      && t.requests == [Request(city, ToCache)]
    ensures !CanAdd(s, city) ==> t == Transition(s, [])
    ensures |t.state.locations| >= |s.locations| && t.state.locations[..|s.locations|] == s.locations
    ensures t.state.cache == s.cache && t.state.error == s.error && t.state.suggestions == s.suggestions
    ensures NoDuplicates(s.locations) ==> NoDuplicates(t.state.locations)
  {
    if CanAdd(s, city) then
      Transition(s.(locations := s.locations + [city], searchResult := None), [Request(city, ToCache)])
    else
      Transition(s, [])
  }

  /** Deleting a city: every occurrence leaves the list, the rest keep their
      order, and the city's cache entry is dropped while every other entry is
      kept as it was. */
  function DeleteLocation(s: State, city: City): (t: State)
    ensures forall c :: c in t.locations <==> c in s.locations && c != city
    ensures forall y :: multiset(t.locations)[y] == if y == city then 0 else multiset(s.locations)[y]
    ensures IsSubsequence(t.locations, s.locations)
    ensures NoDuplicates(s.locations) ==> NoDuplicates(t.locations)
    ensures city !in t.cache
    ensures forall c :: c != city ==> (c in t.cache <==> c in s.cache)
    ensures forall c :: c in t.cache ==> t.cache[c] == s.cache[c]
    ensures t.searchResult == s.searchResult && t.error == s.error && t.suggestions == s.suggestions
  {
    WithoutMembers(s.locations, city);
    assert forall y :: multiset(Without(s.locations, city))[y] == if y == city then 0 else multiset(s.locations)[y] by {
      forall y
        ensures multiset(Without(s.locations, city))[y] == if y == city then 0 else multiset(s.locations)[y]
      {
        WithoutCounts(s.locations, city, y);
      }
    }
    WithoutIsSubsequence(s.locations, city);
    assert NoDuplicates(s.locations) ==> NoDuplicates(Without(s.locations, city)) by {
      if NoDuplicates(s.locations) {
        WithoutKeepsNoDuplicates(s.locations, city);
      }
    }
    s.(locations := Without(s.locations, city), cache := s.cache - {city})
  }

  /** A search starts a search-bound request and changes nothing else. */
  function Search(s: State, city: City): Transition {
    Transition(s, [Request(city, ToSearch)])
  }

  /** Typing in the form replaces the did-you-mean list with the matches for
      the typed text (the matching itself is an input here). */
  function ShowMatches(s: State, matches: seq<City>): State {
    s.(suggestions := matches)
  }

  /** A request completes. The entry goes to the cache under the requested
      name, or to the search slot, never both; success clears the error line
      and the did-you-mean list, failure sets the error line and shows the
      matches for the failed name (an input here). */
  function FetchCompleted(s: State, req: Request, outcome: Outcome, matches: seq<City>): (t: State)
    ensures t.locations == s.locations
    ensures req.destination.ToCache? ==>
      && req.city in t.cache && t.cache[req.city] == EntryOf(outcome)
      && t.searchResult == s.searchResult
    ensures req.destination.ToCache? ==>
      forall c :: c != req.city ==> (c in t.cache <==> c in s.cache) && (c in s.cache ==> t.cache[c] == s.cache[c])
    ensures req.destination.ToSearch? ==> t.cache == s.cache && t.searchResult == Some(EntryOf(outcome))
    ensures outcome.Ok? ==> t.error == None && t.suggestions == []
    ensures outcome.Fail? ==> t.error == Some(NotFoundPrefix + req.city) && t.suggestions == matches
  {
    var entry := EntryOf(outcome);
    var written :=
      match req.destination
      case ToCache => s.(cache := s.cache[req.city := entry])
      case ToSearch => s.(searchResult := Some(entry));
    match outcome
    case Ok(_) => written.(error := None, suggestions := [])
    case Fail => written.(error := Some(NotFoundPrefix + req.city), suggestions := matches)
  }

  /** One cache-bound request per saved city, in list order. */
  function Refresh(locations: seq<City>): (rs: seq<Request>)
    ensures |rs| == |locations|
    ensures forall i :: 0 <= i < |rs| ==> rs[i] == Request(locations[i], ToCache)
    ensures forall c :: c in locations ==> Request(c, ToCache) in rs
  {
    var rs := seq(|locations|, i requires 0 <= i < |locations| => Request(locations[i], ToCache));
    assert forall c :: c in locations ==> Request(c, ToCache) in rs by {
      forall c | c in locations
        ensures Request(c, ToCache) in rs
      {
        var i :| 0 <= i < |locations| && locations[i] == c;
        assert rs[i] == Request(c, ToCache);
      }
    }
    rs
  }

  /** Start-up: the saved list and cache are loaded (each defaulting to empty
      when nothing was stored) and every saved city is refreshed. */
  function Startup(saved: Option<seq<City>>, savedCache: Option<map<City, Entry>>): (t: Transition)
    ensures t.state.locations == (if saved.Some? then saved.value else [])
    ensures t.state.cache == (if savedCache.Some? then savedCache.value else map[])
    ensures t.state.searchResult == None && t.state.error == None && t.state.suggestions == []
    ensures forall c :: c in t.state.locations ==> Request(c, ToCache) in t.requests
    ensures forall r :: r in t.requests ==> r.destination == ToCache && r.city in t.state.locations
  {
    var locations := match saved case Some(l) => l case None => [];
    var cache := match savedCache case Some(m) => m case None => map[];
    var rs := Refresh(locations);
    assert forall r :: r in rs ==> r.destination == ToCache && r.city in locations by {
      forall r | r in rs
        ensures r.destination == ToCache && r.city in locations
      {
        var i :| 0 <= i < |rs| && rs[i] == r;
        assert locations[i] in locations;
      }
    }
    Transition(Initial.(locations := locations, cache := cache), rs)
  }

  // ---------------------------------------------------------------------------
  // What the view draws

  /** The state a panel is drawn in. */
  datatype Panel = Loading | Unavailable | Showing(snapshot: Snapshot)

  /** The panel of a saved city: a placeholder until the cache has an entry,
      then the not-available text or the snapshot. */
  function SavedPanel(cache: map<City, Entry>, city: City): (p: Panel)
    ensures p.Loading? <==> city !in cache
    ensures p.Unavailable? <==> MarkedNotAvailable(cache, city)
    ensures p.Showing? <==> city in cache && cache[city].Available?
    ensures p.Showing? ==> cache[city] == Available(p.snapshot)
  {
    if city !in cache then Loading
    else match cache[city]
      case NotAvailable => Unavailable
      case Available(snapshot) => Showing(snapshot)
  }

  /** The search panel: not drawn without a search result; otherwise drawn
      in the state its entry gives. It is never a placeholder. */
  function SearchPanel(searchResult: Option<Entry>): (p: Option<Panel>)
    ensures p.None? <==> searchResult.None?
    ensures p.Some? ==> !p.value.Loading?
    ensures p.Some? ==> (p.value.Unavailable? <==> searchResult.value.NotAvailable?)
    ensures p.Some? && p.value.Showing? ==> searchResult.value == Available(p.value.snapshot)
  {
    match searchResult
    case None => None
    case Some(NotAvailable) => Some(Unavailable)
    case Some(Available(snapshot)) => Some(Showing(snapshot))
  }

  /** The search panel's heading: the provider's name when it is non-empty,
      the not-available text otherwise. Never empty. */
  function SearchHeading(e: Entry): (h: string)
    ensures |h| > 0
    ensures e.Available? && e.snapshot.name != "" ==> h == e.snapshot.name
    ensures !(e.Available? && e.snapshot.name != "") ==> h == NotAvailableText
  {
    if e.Available? && e.snapshot.name != "" then e.snapshot.name else NotAvailableText
  }

  /** The did-you-mean list is drawn under a not-available panel, and only
      when it has entries. */
  predicate HintsShown(p: Panel, suggestions: seq<City>) {
    p.Unavailable? && |suggestions| > 0
  }

  /** The error line is drawn when it holds a non-empty message. */
  predicate ErrorShown(s: State) {
    match s.error
    case Some(message) => message != ""
    case None => false
  }
}
