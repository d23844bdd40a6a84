/** The forecast panel of one displayed city: the provider returns readings in
    3-hour steps, and the panel keeps one reading per day by filtering on the
    reading's index. */
module Forecast {
  import opened Results
  import opened Seqs

  /** `list.filter((_, index) => index % 8 === 0)`: at a 3-hour granularity
      there are 8 readings per day, and the first of each day is kept. */
  function Downsample<T>(readings: seq<T>): seq<T> {
    FilterIndexed(readings, (x: T, i: nat) => i % 8 == 0)
  }

  /** The kept readings are exactly those at indices 0, 8, 16, ..., in order,
      so there are ceil(n / 8) of them. */
  lemma {:induction false} DownsampleShape<T>(readings: seq<T>)
    ensures |Downsample(readings)| == (|readings| + 7) / 8
    ensures forall k :: 0 <= k < |Downsample(readings)| ==> Downsample(readings)[k] == readings[8 * k]
    decreases |readings|
  {
    if |readings| > 0 {
      var n := |readings|;
      var i := n - 1;
      var prefix := readings[..i];
      DownsampleShape(prefix);
      var p := Downsample(prefix);
      assert forall k :: 0 <= k < |p| ==> p[k] == readings[8 * k] by {
        forall k | 0 <= k < |p|
          ensures p[k] == readings[8 * k]
        {
          assert p[k] == prefix[8 * k];
        }
      }
      if i % 8 == 0 {
        assert Downsample(readings) == p + [readings[i]];
        assert |p| == i / 8;
      } else {
        assert Downsample(readings) == p;
      }
    }
  }

  /** A reading is kept exactly when it occurs at an index that is a multiple
      of 8. */
  lemma DownsampleMembers<T>(readings: seq<T>, x: T)
    ensures x in Downsample(readings) <==> exists j :: 0 <= j < |readings| && j % 8 == 0 && readings[j] == x
  {
    FilterIndexedMembers(readings, (y: T, i: nat) => i % 8 == 0, x);
  }

  /** Down-sampling only drops readings; the rest keep their order. */
  lemma DownsampleIsSubsequence<T>(readings: seq<T>)
    ensures IsSubsequence(Downsample(readings), readings)
  {
    FilterIndexedIsSubsequence(readings, (y: T, i: nat) => i % 8 == 0);
  }

  /** No readings give no days; otherwise the first reading always survives. */
  lemma DownsampleEnds<T>(readings: seq<T>)
    ensures |Downsample(readings)| == 0 <==> |readings| == 0
    ensures |readings| > 0 ==> Downsample(readings)[0] == readings[0]
  {
    DownsampleShape(readings);
  }

  /** The provider's five days of 3-hour readings become five daily entries,
      taken at indices 0, 8, 16, 24 and 32; a shorter list gives at most five. */
  lemma DownsampleFiveDays<T>(readings: seq<T>)
    requires |readings| <= 40
    ensures |Downsample(readings)| <= 5
    ensures |readings| == 40 ==>
      Downsample(readings) == [readings[0], readings[8], readings[16], readings[24], readings[32]]
  {
    DownsampleShape(readings);
  }

  /** The panel's state after one forecast request completes: a response is
      down-sampled; a failure is only logged and leaves the state as it was. */
  function OnForecastResponse<T>(current: seq<T>, response: Response<seq<T>>): (next: seq<T>)
    ensures response.Failed? ==> next == current
    ensures response.Received? ==> |next| == (|response.body| + 7) / 8
    ensures response.Received? ==>
      forall k :: 0 <= k < |next| ==> next[k] == response.body[8 * k]
  {
    match response
    case Received(list) => DownsampleShape(list); Downsample(list)
    case Failed => current
  }

  /** The forecast after a series of completed requests, starting from the
      initial empty list. */
  function ForecastAfter<T>(responses: seq<Response<seq<T>>>): seq<T>
    decreases |responses|
  {
    if |responses| == 0 then []
    else
      var i := |responses| - 1;
      OnForecastResponse(ForecastAfter(responses[..i]), responses[i])
  }

  /** The successful responses of a series, in order. */
  function Successes<T>(responses: seq<Response<seq<T>>>): seq<Response<seq<T>>> {
    FilterIndexed(responses, (r: Response<seq<T>>, i: nat) => r.Received?)
  }

  /** Failures are invisible: the forecast is the one the successful responses
      alone would have produced. */
  lemma {:induction false} ForecastIgnoresFailures<T>(responses: seq<Response<seq<T>>>)
    ensures ForecastAfter(responses) == ForecastAfter(Successes(responses))
    decreases |responses|
  {
    if |responses| > 0 {
      var i := |responses| - 1;
      var prefix := responses[..i];
      ForecastIgnoresFailures(prefix);
      var s := Successes(prefix);
      if responses[i].Received? {
        assert Successes(responses) == s + [responses[i]];
        assert (s + [responses[i]])[..|s|] == s;
      } else {
        assert Successes(responses) == s;
      }
    }
  }

  /** With no successful response the panel still holds the initial empty
      list; after a successful one it holds that response down-sampled. */
  lemma ForecastAfterLatest<T>(responses: seq<Response<seq<T>>>)
    ensures (forall i :: 0 <= i < |responses| ==> responses[i].Failed?) ==> ForecastAfter(responses) == []
    ensures |responses| > 0 && responses[|responses| - 1].Received? ==>
      ForecastAfter(responses) == Downsample(responses[|responses| - 1].body)
  {
    if forall i :: 0 <= i < |responses| ==> responses[i].Failed? {
      ForecastIgnoresFailures(responses);
      var s := Successes(responses);
      if |s| > 0 {
        assert s[0] in s;
        FilterIndexedMembers(responses, (r: Response<seq<T>>, i: nat) => r.Received?, s[0]);
      }
    }
  }

  /** One mounted forecast panel: the city it is titled with and the entries it
      lists. */
  datatype Panel<T> = Panel(city: string, forecast: seq<T>)

  /** A newly mounted panel starts with no entries. */
  function Mount<T>(city: string): Panel<T> {
    Panel(city, [])
  }

  /** A new `city` prop re-titles the panel and starts a new request, but the
      entries already held are kept until that request completes. */
  function ChangeCity<T>(p: Panel<T>, city: string): Panel<T> {
    p.(city := city)
  }

  /** A completed request updates the entries and nothing else. */
  function Complete<T>(p: Panel<T>, response: Response<seq<T>>): (q: Panel<T>)
    ensures q.city == p.city
    ensures response.Failed? ==> q == p
    ensures response.Received? ==>
      && |q.forecast| == (|response.body| + 7) / 8
      && forall k :: 0 <= k < |q.forecast| ==> q.forecast[k] == response.body[8 * k]
  {
    p.(forecast := OnForecastResponse(p.forecast, response))
  }

  /** The panel after a series of completed requests, applied in arrival
      order. */
  function CompleteAll<T>(p: Panel<T>, responses: seq<Response<seq<T>>>): Panel<T>
    decreases |responses|
  {
    if |responses| == 0 then p
    else Complete(CompleteAll(p, responses[..|responses| - 1]), responses[|responses| - 1])
  }

  /** A mounted panel keeps its title and lists exactly the forecast its
      responses produce from the initial empty list. */
  lemma {:induction false} MountedPanelFollowsResponses<T>(city: string, responses: seq<Response<seq<T>>>)
    ensures CompleteAll(Mount(city), responses) == Panel(city, ForecastAfter(responses))
    decreases |responses|
  {
    if |responses| > 0 {
      MountedPanelFollowsResponses(city, responses[..|responses| - 1]);
    }
  }

  /** A change of city only re-titles: it commutes with every completion, and
      changing back restores the panel. The entries never depend on the
      title. */
  lemma ChangeCityOnlyRetitles<T>(p: Panel<T>, city: string, response: Response<seq<T>>)
    ensures Complete(ChangeCity(p, city), response) == ChangeCity(Complete(p, response), city)
    ensures ChangeCity(ChangeCity(p, city), p.city) == p
  {
  }

  /** When the shown city changes and the new city's request fails, the panel
      titled with the new city keeps listing the previous city's days. */
  lemma StaleForecastAfterFailedChange<T>(a: string, b: string, list: seq<T>)
    requires |list| > 0
    ensures var p := Complete(ChangeCity(Complete(Mount(a), Received(list)), b), Failed);
      p.city == b && p.forecast == Downsample(list) && |p.forecast| > 0
  {
    DownsampleEnds(list);
  }
}
