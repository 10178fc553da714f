/**
 * The page component as an object: its state variables are fields that the handlers
 * update in place. Each handler is specified by the `Controller` function that gives
 * its effect on the state.
 */
module App {
  import opened Wrappers
  import opened Text
  import opened Sequences
  import opened Json
  import opened History
  import opened Lookup
  import opened Controller

  class WeatherApp {
    /** The text in the search box. */
    var city: string
    var weather: Option<WeatherData>
    var forecast: Option<ForecastData>
    var loading: bool
    /** The in-memory recent-searches list. */
    var history: seq<string>
    /** `localStorage`. */
    var store: map<string, string>

    /** The state as a value. */
    function State(): Page
      reads this
    {
      Page(city, weather, forecast, loading, history, store)
    }

    /** The first render, over whatever the store holds. */
    constructor(saved: map<string, string>)
      ensures State() == Initial(saved)
    {
      city := "";
      weather := None;
      forecast := None;
      loading := false;
      history := [];
      store := saved;
    }

    /**
     * `updateSearchHistory(cityName)` in a handler that captured the list `seen`: the
     * promoted list becomes the in-memory list and is written to the store together
     * with the last-searched name.
     */
    method UpdateSearchHistory(cityName: string, seen: seq<string>)
      modifies this
      ensures State() == Updated(old(State()), cityName, seen)
    {
      var updated := Take([cityName] + Without(seen, cityName), MaxEntries);
      history := updated;
      store := store[HistoryKey := Stringify(updated)];
      store := store[LastKey := cityName];
    }

    /**
     * `removeFromHistory(cityToRemove)`: every case-insensitive match leaves the list and
     * the store; the last-searched key goes too when it is set and matches.
     */
    method RemoveFromHistory(cityToRemove: string)
      modifies this
      ensures State() == Removed(old(State()), cityToRemove)
    {
      var updated := Without(history, cityToRemove);
      history := updated;
      store := store[HistoryKey := Stringify(updated)];
      if LastKey in store && SameIgnoringCase(cityToRemove, store[LastKey]) {
        store := store - {LastKey};
      }
    }

    /**
     * `fetchWeather(cityName)` in a handler that captured the list `seen`, with the
     * provider's two responses given as `w` and `f`.
     */
    method FetchWeather(cityName: string, seen: seq<string>, w: Response<WeatherData>, f: Response<ForecastData>)
      returns (requests: seq<Request>, notices: seq<Notice>)
      modifies this
      ensures Step(State(), requests, notices) == Looked(old(State()), cityName, seen, w, f)
    {
      if TrimsToEmpty(cityName) {
        requests, notices := [], [ErrorToast(BlankMessage)];
        return;
      }
      loading := true;
      requests, notices := TryLookup(cityName, seen, w, f);
      loading := false;
    }

    /**
     * The `try` and `catch` blocks of `fetchWeather`: the two requests in turn, the `ok`
     * check, the two body decodings, then the success path or the failure path.
     */
    method TryLookup(cityName: string, seen: seq<string>, w: Response<WeatherData>, f: Response<ForecastData>)
      returns (requests: seq<Request>, notices: seq<Notice>)
      modifies this
      ensures Step(State(), requests, notices) == Attempted(old(State()), cityName, seen, w, f)
    {
      var failure: Option<string> := None;
      requests := [CurrentWeather(cityName)];
      if w.Rejected? {
        failure := Some(Message(w.reason));
      } else {
        requests := requests + [FiveDayForecast(cityName)];
        if f.Rejected? {
          failure := Some(Message(f.reason));
        } else if !w.ok || !f.ok {
          failure := Some(NotFoundMessage);
        } else if w.body.BadJson? {
          failure := Some(Message(w.body.reason));
        } else if f.body.BadJson? {
          failure := Some(Message(f.body.reason));
        }
      }
      if failure.Some? {
        assert Query(w, f) == Failed(failure.value);
        notices := [ErrorToast(failure.value)];
        city := "";
      } else {
        assert Query(w, f) == Found(w.body.value, f.body.value);
        weather := Some(w.body.value);
        forecast := Some(f.body.value);
        notices := [SuccessToast(SuccessPrefix + w.body.value.name)];
        UpdateSearchHistory(cityName, seen);
      }
    }

    /** The search button and the Enter key: look up what is in the box, with the current list. */
    method Search(w: Response<WeatherData>, f: Response<ForecastData>)
      returns (requests: seq<Request>, notices: seq<Notice>)
      modifies this
      ensures Step(State(), requests, notices) == Looked(old(State()), old(city), old(history), w, f)
    {
      requests, notices := FetchWeather(city, history, w, f);
    }

    /** A click on a history entry: look that name up, with the current list. */
    method SelectHistoryEntry(entry: string, w: Response<WeatherData>, f: Response<ForecastData>)
      returns (requests: seq<Request>, notices: seq<Notice>)
      modifies this
      ensures Step(State(), requests, notices) == Looked(old(State()), entry, old(history), w, f)
    {
      requests, notices := FetchWeather(entry, history, w, f);
    }

    /**
     * The mount effect: restore the stored list, then, when a last search is stored, put
     * it in the box and look it up with the first render's handler, whose captured list
     * is the initial empty one.
     */
    method Mount(w: Response<WeatherData>, f: Response<ForecastData>)
      returns (crashed: bool, requests: seq<Request>, notices: seq<Notice>)
      modifies this
      ensures Mounted(old(State()), w, f) == if crashed then Crashed else Ran(Step(State(), requests, notices))
      ensures crashed ==> State() == old(State()) && requests == [] && notices == []
    {
      crashed, requests, notices := Restore(false, w, f);
    }

    /** The mount effect as evidently intended: the startup lookup uses the restored list. */
    method MountKeepingHistory(w: Response<WeatherData>, f: Response<ForecastData>)
      returns (crashed: bool, requests: seq<Request>, notices: seq<Notice>)
      modifies this
      ensures MountedKeepingHistory(old(State()), w, f) == if crashed then Crashed else Ran(Step(State(), requests, notices))
      ensures crashed ==> State() == old(State()) && requests == [] && notices == []
    {
      crashed, requests, notices := Restore(true, w, f);
    }

    /** The body of the mount effect, with the startup lookup's captured list chosen by `keepRestored`. */
    method Restore(keepRestored: bool, w: Response<WeatherData>, f: Response<ForecastData>)
      returns (crashed: bool, requests: seq<Request>, notices: seq<Notice>)
      modifies this
      ensures MountedWith(old(State()), w, f, keepRestored) == if crashed then Crashed else Ran(Step(State(), requests, notices))
      ensures crashed ==> State() == old(State()) && requests == [] && notices == []
    {
      requests, notices := [], [];
      crashed := HistoryUnreadable(store);
      if crashed {
        return;
      }
      history := Loaded(store, history);
      requests, notices := ResumeLastSearch(keepRestored, w, f);
    }

    /** The mount effect after the list is restored: look up the stored last search, if any. */
    method ResumeLastSearch(keepRestored: bool, w: Response<WeatherData>, f: Response<ForecastData>)
      returns (requests: seq<Request>, notices: seq<Notice>)
      modifies this
      ensures Step(State(), requests, notices) == Resumed(old(State()), keepRestored, w, f)
    {
      requests, notices := [], [];
      if Truthy(store, LastKey) {
        var last := store[LastKey];
        city := last;
        requests, notices := FetchWeather(last, if keepRestored then history else [], w, f);
      }
    }
  }
}
