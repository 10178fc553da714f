/**
 * The page component's state as a value, and what each handler does to it:
 * the history update after a successful lookup, removal from the history, one lookup,
 * and the mount-time effect that restores the last search. The browser's
 * `localStorage` is the `store` map.
 */
module Controller {
  import opened Wrappers
  import opened Text
  import opened Sequences
  import opened Json
  import opened History
  import opened Lookup

  /** The key holding the JSON text of the history list. */
  const HistoryKey := "searchHistory"

  /** The key holding the last successfully searched city name. */
  const LastKey := "lastSearched"

  const BlankMessage := "Please enter a city name"
  const SuccessPrefix := "Weather data fetched for "

  /** A toast notification: the only trace of the `sonner` calls the model keeps. */
  datatype Notice = ErrorToast(text: string) | SuccessToast(text: string)

  /** The component's state variables and the store. */
  datatype Page = Page(
    city: string,
    weather: Option<WeatherData>,
    forecast: Option<ForecastData>,
    loading: bool,
    history: seq<string>,
    store: map<string, string>)

  /** A handler's effect: the new state, the requests it sent and the toasts it raised. */
  datatype Step = Step(page: Page, requests: seq<Request>, notices: seq<Notice>)

  /** The mount effect either stops at an unreadable stored history or runs to its end. */
  datatype MountResult = Crashed | Ran(step: Step)

  /** The first render: empty box, nothing shown, not loading, empty list, over whatever the store holds. */
  function Initial(saved: map<string, string>): Page {
    Page("", None, None, false, [], saved)
  }

  /** The store after the history is written: the list under one key, the city under the other. */
  function Recorded(store: map<string, string>, h: seq<string>, city: string): map<string, string> {
    store[HistoryKey := Stringify(h)][LastKey := city]
  }

  /**
   * What the write leaves in the store: text that parses back to exactly the list,
   * the city, and every other key as it was.
   */
  lemma RecordedReadsBack(store: map<string, string>, h: seq<string>, city: string)
    ensures var s := Recorded(store, h, city);
      HistoryKey in s && Parse(s[HistoryKey]) == Some(h)
      && LastKey in s && s[LastKey] == city
      && (forall k :: k in store && k != HistoryKey && k != LastKey ==> k in s && s[k] == store[k])
      && s.Keys == store.Keys + {HistoryKey, LastKey}
  {
    ParseStringify(h);
  }

  /** `updateSearchHistory(cityName)` in a handler that captured the list `seen`. */
  function Updated(p: Page, cityName: string, seen: seq<string>): (r: Page)
    ensures r.history != [] && r.history[0] == cityName && |r.history| <= MaxEntries
    ensures r.(history := p.history, store := p.store) == p
  {
    var h := Promote(seen, cityName);
    p.(history := h, store := Recorded(p.store, h, cityName))
  }

  /** `removeFromHistory(cityToRemove)`. */
  function Removed(p: Page, cityToRemove: string): (r: Page)
    ensures |r.history| <= |p.history| && HistoryKey in r.store
    ensures r.(history := p.history, store := p.store) == p
  {
    var h := Without(p.history, cityToRemove);
    var written := p.store[HistoryKey := Stringify(h)];
    var store := if LastKey in written && SameIgnoringCase(cityToRemove, written[LastKey])
                 then written - {LastKey} else written;
    p.(history := h, store := store)
  }

  /**
   * The `try`/`catch` part of `fetchWeather(cityName)`: on success both payloads are
   * shown, the location is announced and the history is updated; on failure the
   * message is shown and the box is cleared.
   */
  function Attempted(p: Page, cityName: string, seen: seq<string>,
                     w: Response<WeatherData>, f: Response<ForecastData>): (r: Step)
    ensures |r.notices| == 1 && 1 <= |r.requests| <= 2
    ensures r.page.loading == p.loading
  {
    match Query(w, f)
    case Found(wd, fd) =>
      Step(Updated(p.(weather := Some(wd), forecast := Some(fd)), cityName, seen),
           Requests(cityName, w), [SuccessToast(SuccessPrefix + wd.name)])
    case Failed(m) =>
      Step(p.(city := ""), Requests(cityName, w), [ErrorToast(m)])
  }

  /**
   * `fetchWeather(cityName)` in a handler that captured the list `seen`: the blank check,
   * then `setLoading(true)`, the `try`/`catch`, and `setLoading(false)` in `finally`.
   */
  function Looked(p: Page, cityName: string, seen: seq<string>,
                  w: Response<WeatherData>, f: Response<ForecastData>): (r: Step)
    ensures |r.notices| == 1 && |r.requests| <= 2
    ensures r.requests == [] <==> IsBlank(cityName)
    ensures !IsBlank(cityName) ==> !r.page.loading
  {
    if TrimsToEmpty(cityName) then Step(p, [], [ErrorToast(BlankMessage)])
    else
      var s := Attempted(p.(loading := true), cityName, seen, w, f);
      s.(page := s.page.(loading := false))
  }

  /** A blank name sends nothing, changes nothing, and only raises the error toast. */
  lemma LookedBlank(p: Page, cityName: string, seen: seq<string>,
                    w: Response<WeatherData>, f: Response<ForecastData>)
    requires IsBlank(cityName)
    ensures Looked(p, cityName, seen, w, f) == Step(p, [], [ErrorToast(BlankMessage)])
  {
  }

  /**
   * A failed lookup of a non-blank name clears the box and ends loading, and leaves
   * what is shown, the list and the store exactly as they were.
   */
  lemma LookedFailure(p: Page, cityName: string, seen: seq<string>,
                      w: Response<WeatherData>, f: Response<ForecastData>)
    requires !IsBlank(cityName) && !(Usable(w) && Usable(f))
    ensures var s := Looked(p, cityName, seen, w, f);
      s.page == p.(city := "", loading := false)
      && s.requests == Requests(cityName, w)
      && s.notices == [ErrorToast(Query(w, f).message)]
  {
    QueryFoundPayloads(w, f);
  }

  /**
   * A successful lookup of a non-blank name shows both payloads, keeps the box, ends
   * loading and updates the history with the name; both requests were sent.
   */
  lemma LookedSuccess(p: Page, cityName: string, seen: seq<string>,
                      w: Response<WeatherData>, f: Response<ForecastData>)
    requires !IsBlank(cityName) && Usable(w) && Usable(f)
    ensures var s := Looked(p, cityName, seen, w, f);
      s.page == Updated(p.(weather := Some(w.body.value), forecast := Some(f.body.value), loading := false), cityName, seen)
      && s.requests == [CurrentWeather(cityName), FiveDayForecast(cityName)]
      && s.notices == [SuccessToast(SuccessPrefix + w.body.value.name)]
  {
    QueryFoundPayloads(w, f);
  }

  /**
   * The history update puts the name at the head of a list of at most five, keeps it free
   * of case-insensitive duplicates, writes that list and the name to the store, and
   * changes nothing else.
   */
  lemma UpdatedSpec(p: Page, cityName: string, seen: seq<string>)
    ensures var q := Updated(p, cityName, seen);
      q.history == Promote(seen, cityName)
      && q.history[0] == cityName && |q.history| <= MaxEntries
      && (NoCaseDuplicates(seen) ==> NoCaseDuplicates(q.history))
      && HistoryKey in q.store && Parse(q.store[HistoryKey]) == Some(q.history)
      && LastKey in q.store && q.store[LastKey] == cityName
      && q.city == p.city && q.weather == p.weather && q.forecast == p.forecast && q.loading == p.loading
  {
    var h := Promote(seen, cityName);
    PromoteShape(seen, cityName);
    if NoCaseDuplicates(seen) {
      PromoteKeepsNoDuplicates(seen, cityName);
    }
    RecordedReadsBack(p.store, h, cityName);
  }

  /**
   * Removal takes exactly the name's case-insensitive matches out of the list, in order,
   * stores the new list, and removes the last search exactly when it is set and matches.
   */
  lemma RemovedSpec(p: Page, cityToRemove: string)
    ensures var q := Removed(p, cityToRemove);
      q.history == Without(p.history, cityToRemove)
      && IsSubsequence(q.history, p.history)
      && Parse(q.store[HistoryKey]) == Some(q.history)
      && (LastKey !in q.store <==>
            LastKey !in p.store || SameIgnoringCase(cityToRemove, p.store[LastKey]))
      && (LastKey in q.store ==> q.store[LastKey] == p.store[LastKey])
      && (forall k :: k in p.store && k != HistoryKey && k != LastKey ==> k in q.store && q.store[k] == p.store[k])
      && HistoryKey in q.store && q.store.Keys <= p.store.Keys + {HistoryKey}
      && q.city == p.city && q.weather == p.weather && q.forecast == p.forecast && q.loading == p.loading
  {
    WithoutIsSubsequence(p.history, cityToRemove);
    ParseStringify(Without(p.history, cityToRemove));
  }

  /** `if (saved)`: a stored value counts only when the key is set to a non-empty string. */
  predicate Truthy(store: map<string, string>, key: string) {
    key in store && store[key] != ""
  }

  /** `JSON.parse` of a truthy stored history throws: the mount effect stops there. */
  predicate HistoryUnreadable(store: map<string, string>) {
    Truthy(store, HistoryKey) && Parse(store[HistoryKey]).None?
  }

  /** The list the mount effect installs: the parsed stored list when there is one, else the current list. */
  function Loaded(store: map<string, string>, current: seq<string>): seq<string>
    requires !HistoryUnreadable(store)
  {
    if Truthy(store, HistoryKey) then Parse(store[HistoryKey]).value else current
  }

  /**
   * The second half of the mount effect, after the list is restored: when a last search
   * is stored, put it in the box and look it up in a handler that captured the restored
   * list (`keepRestored`) or the initial empty one.
   */
  function Resumed(q: Page, keepRestored: bool, w: Response<WeatherData>, f: Response<ForecastData>): (r: Step)
    ensures Truthy(q.store, LastKey) ==> |r.notices| == 1
    ensures !Truthy(q.store, LastKey) ==> r.page == q && r.requests == [] && r.notices == []
  {
    if Truthy(q.store, LastKey) then
      var last := q.store[LastKey];
      Looked(q.(city := last), last, if keepRestored then q.history else [], w, f)
    else Step(q, [], [])
  }

  /** The mount effect: restore the stored list, or stop if it does not parse; then resume the last search. */
  function MountedWith(p: Page, w: Response<WeatherData>, f: Response<ForecastData>, keepRestored: bool): (r: MountResult)
    ensures r.Crashed? <==> HistoryUnreadable(p.store)
    ensures r.Ran? ==> (r.step.requests == [] <==> !Truthy(p.store, LastKey) || IsBlank(p.store[LastKey]))
  {
    if HistoryUnreadable(p.store) then Crashed
    else Ran(Resumed(p.(history := Loaded(p.store, p.history)), keepRestored, w, f))
  }

  /**
   * The mount effect as written: its lookup is the first render's handler, whose
   * captured list is the initial empty one.
   */
  function Mounted(p: Page, w: Response<WeatherData>, f: Response<ForecastData>): (r: MountResult)
    ensures r.Crashed? <==> HistoryUnreadable(p.store)
  {
    MountedWith(p, w, f, false)
  }

  /** The mount effect as evidently intended: the lookup promotes within the restored list. */
  function MountedKeepingHistory(p: Page, w: Response<WeatherData>, f: Response<ForecastData>): (r: MountResult)
    ensures r.Crashed? <==> HistoryUnreadable(p.store)
  {
    MountedWith(p, w, f, true)
  }

  /**
   * As written, a successful startup lookup leaves the list as just the last search,
   * whatever was restored, and writes that back to the store.
   */
  lemma MountedSuccessForgets(p: Page, w: Response<WeatherData>, f: Response<ForecastData>)
    requires !HistoryUnreadable(p.store) && Truthy(p.store, LastKey)
    requires !IsBlank(p.store[LastKey]) && Usable(w) && Usable(f)
    ensures var last := p.store[LastKey];
      Mounted(p, w, f).Ran? && Mounted(p, w, f).step.page.history == [last]
      && Mounted(p, w, f).step.page.store == Recorded(p.store, [last], last)
  {
    var last := p.store[LastKey];
    var q := p.(history := Loaded(p.store, p.history), city := last);
    LookedSuccess(q, last, [], w, f);
    UpdatedSpec(q.(weather := Some(w.body.value), forecast := Some(f.body.value), loading := false), last, []);
    assert Without([], last) == [];
  }

  /**
   * As intended, a successful startup lookup promotes the last search within the restored
   * list, so the other restored entries stay, in order, up to four of them.
   */
  lemma MountedKeepingHistorySuccess(p: Page, w: Response<WeatherData>, f: Response<ForecastData>)
    requires !HistoryUnreadable(p.store) && Truthy(p.store, LastKey)
    requires !IsBlank(p.store[LastKey]) && Usable(w) && Usable(f)
    ensures var last := p.store[LastKey];
      var restored := Loaded(p.store, p.history);
      var r := MountedKeepingHistory(p, w, f);
      r.Ran? && r.step.page.history == Promote(restored, last)
      && r.step.page.history[1..] == Take(Without(restored, last), MaxEntries - 1)
      && r.step.page.store == Recorded(p.store, r.step.page.history, last)
  {
    var last := p.store[LastKey];
    var restored := Loaded(p.store, p.history);
    var q := p.(history := restored, city := last);
    LookedSuccess(q, last, restored, w, f);
    UpdatedSpec(q.(weather := Some(w.body.value), forecast := Some(f.body.value), loading := false), last, restored);
    PromoteShape(restored, last);
  }

  /** A failed startup lookup keeps the restored list and store, and clears the box. */
  lemma MountedFailureKeepsRestored(p: Page, w: Response<WeatherData>, f: Response<ForecastData>)
    requires !HistoryUnreadable(p.store) && Truthy(p.store, LastKey)
    requires !IsBlank(p.store[LastKey]) && !(Usable(w) && Usable(f))
    ensures var r := Mounted(p, w, f);
      r.Ran? && r.step.page.history == Loaded(p.store, p.history)
      && r.step.page.store == p.store && r.step.page.city == ""
  {
    var last := p.store[LastKey];
    var q := p.(history := Loaded(p.store, p.history), city := last);
    LookedFailure(q, last, [], w, f);
  }

  /** Promoting "Tokyo" in the empty list and in ["Tokyo", "Paris"]. */
  lemma TokyoPromotions()
    ensures Promote([], "Tokyo") == ["Tokyo"]
    ensures Promote(["Tokyo", "Paris"], "Tokyo") == ["Tokyo", "Paris"]
  {
    var loaded := ["Tokyo", "Paris"];
    assert Without([], "Tokyo") == [];
    assert !SameIgnoringCase("Paris", "Tokyo") by {
      assert Lower("Paris")[0] == 'p' && Lower("Tokyo")[0] == 't';
    }
    assert loaded[1..] == ["Paris"];
    assert Without(loaded, "Tokyo") == ["Paris"];
  }

  /** The store a reload finds after the list ["Tokyo", "Paris"] with last search "Tokyo". */
  lemma TokyoStore(p: Page)
    requires p == Initial(map[HistoryKey := Stringify(["Tokyo", "Paris"]), LastKey := "Tokyo"])
    ensures !HistoryUnreadable(p.store) && Truthy(p.store, LastKey) && p.store[LastKey] == "Tokyo"
    ensures !IsBlank(p.store[LastKey])
    ensures Loaded(p.store, p.history) == ["Tokyo", "Paris"]
  {
    ParseStringify(["Tokyo", "Paris"]);
    assert !IsWhiteSpace("Tokyo"[0]);
  }

  /**
   * A reload whose store holds the list ["Tokyo", "Paris"] and the last search "Tokyo",
   * with both responses usable: the effect as written leaves the list as ["Tokyo"], the
   * intended one keeps both entries.
   */
  lemma StartupForgetsLoadedHistory(w: Response<WeatherData>, f: Response<ForecastData>)
    requires Usable(w) && Usable(f)
    ensures var p := Initial(map[HistoryKey := Stringify(["Tokyo", "Paris"]), LastKey := "Tokyo"]);
      Mounted(p, w, f).Ran? && Mounted(p, w, f).step.page.history == ["Tokyo"]
      && MountedKeepingHistory(p, w, f).Ran?
      && MountedKeepingHistory(p, w, f).step.page.history == ["Tokyo", "Paris"]
  {
    var p := Initial(map[HistoryKey := Stringify(["Tokyo", "Paris"]), LastKey := "Tokyo"]);
    TokyoStore(p);
    MountedSuccessForgets(p, w, f);
    MountedKeepingHistorySuccess(p, w, f);
    TokyoPromotions();
  }
}
