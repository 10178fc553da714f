# Weather lookup page: a verified model of its state logic

The weather page (`app/page.tsx`) lets a user type a city name, fetches the current
conditions and a three-hourly five-day forecast for it from the OpenWeather API, and keeps a
list of up to five recent searches in the browser's `localStorage`. This project models the
logic behind the page, leaving out the rendering:

- `Text`: the blank-name check (`trim`) and the case-insensitive comparison (`toLowerCase`).
- `Json`: the JSON text the history list is stored under, and the parse that reads it back.
- `History`: the recent-searches list. Promotion after a successful lookup is `updateSearchHistory`'s
  filter and `slice(0, 5)`; removal is `removeFromHistory`'s filter.
- `Forecast`: the five-day view, which keeps every eighth forecast entry and at most five of them.
- `Icons`: the six weather pictures and the condition-code bands that choose between them.
- `Lookup`: the two provider responses, given as inputs, and the outcome of the `try` block.
- `Controller`: the component state as a `Page` value. One pure function per handler gives
  its effect on that state: the history update, removal, one lookup (`fetchWeather`) and the
  mount effect. Lemmas state what each handler promises.
- `App`: class `WeatherApp` holds the component state as fields (`city`, `weather`,
  `forecast`, `loading`, `history`) and `localStorage` as a `map<string, string>`. Its methods
  update them in place, as the handlers do. Each method is proved to have exactly the effect
  its `Controller` function gives.

React handlers close over the state of the render that created them. The lookup handler
(`fetchWeather`) and the history update it calls therefore take the list they captured as an
explicit parameter (`seen`). This matters in the mount effect, whose lookup runs with the first
render's empty list (see Findings). Removal (`removeFromHistory`) takes no such parameter. It
filters the current list, the state the page was in when the cross button was clicked.

Three behaviours of the code that the model follows:
- The two requests are awaited one after the other (app/page.tsx:92-97), not concurrently. A
  rejected first request means the forecast is never requested.
- A stored history that does not parse is not replaced by an empty list. `JSON.parse` at
  app/page.tsx:74 is unguarded, so the mount effect stops there (`crashed`).
- After a reload, the restored history does not survive a successful lookup of the last
  search (see Findings).

## Model

| member | source | states |
|---|---|---|
| Text.TrimStart | app/page.tsx:84 | The result is the suffix of the input left after all leading white space is dropped, and it does not start with white space |
| Text.TrimEnd | app/page.tsx:84 | The result is the prefix of the input left after all trailing white space is dropped, and it does not end with white space |
| Text.Trim | app/page.tsx:84 | `trim` never lengthens the name, and what it leaves neither starts nor ends with white space |
| Text.TrimInfix | app/page.tsx:84 | What `trim` leaves is a contiguous part of the name with only white space before and after it |
| Text.TrimEmptyIffBlank | app/page.tsx:84 | Trimming leaves the empty string exactly when every character of the name is ECMAScript white space or a line terminator |
| Text.TrimsToEmpty | app/page.tsx:84 | The check `!cityName.trim()` holds exactly when the name is blank |
| Text.Lower | app/page.tsx:125-127 | `toLowerCase` keeps the length, turns each upper-case ASCII letter into its lower-case letter (32 code points on), and keeps every other character |
| Text.SameIgnoringCase | app/page.tsx:125-127 | Names equal ignoring case have the same length, and every name is equal to itself ignoring case |
| Text.SameIgnoringCaseCharwise | app/page.tsx:125-127 | Two names are equal ignoring case exactly when they have the same length and agree letter by letter after lower-casing |
| Sequences.Take | app/page.tsx:128 | `slice(0, n)` keeps the first n elements, or all of them when there are fewer |
| Json.HexDigit | app/page.tsx:130 | A hex digit written in a `\u00XX` escape reads back as the same value |
| Json.EscapeChar | app/page.tsx:130 | A character is written as itself exactly when it is printable and neither a quote nor a backslash; otherwise as an escape of 2 to 6 characters starting with a backslash |
| Json.Stringify | app/page.tsx:130 | The stored text is a bracketed array, and it is `[]` exactly for the empty list |
| Json.Parse | app/page.tsx:74 | Accepted text starts with `[`; the text `[]`, and only it, reads as the empty list |
| Json.HexQuad | app/page.tsx:74 | Four hex digits read as a value below 0x10000 |
| Json.Unescape | app/page.tsx:74 | An escape sequence that is accepted takes at least one character and no more than remain |
| Json.StringBody | app/page.tsx:74 | A string literal that is accepted leaves strictly less input to read after its closing quote |
| Json.StringBodyEscapeChar | app/page.tsx:130 | Reading back the escape `JSON.stringify` writes for a character gives that character and its length |
| Json.StringBodyStep | app/page.tsx:130 | One escaped character in front of a string body adds exactly that character to what is read |
| Json.StringBodyRoundTrip | app/page.tsx:130 | Reading back an escaped string and its closing quote gives the string and what follows, whatever follows |
| Json.ItemsLast | app/page.tsx:74 | A final string literal followed by `]` is read as a one-element list |
| Json.ItemsStep | app/page.tsx:74 | A string literal, a comma and the remaining elements are read as that string followed by those elements |
| Json.ItemsRoundTripLast | app/page.tsx:130 | The text of a one-element list reads back as that list |
| Json.ItemsRoundTripCons | app/page.tsx:130 | Putting one element in front of a list whose text reads back gives a list whose text also reads back |
| Json.ElementsCons | app/page.tsx:130 | The text of a list of two or more elements is the first one quoted, a comma, then the rest |
| Json.ItemsRoundTrip | app/page.tsx:130 | Reading back the elements of a non-empty list and the closing bracket gives the list |
| Json.ParseStringify | app/page.tsx:74 | `JSON.parse(JSON.stringify(h))` gives back `h` for every list of strings |
| Json.StringifyInjective | app/page.tsx:130 | Two different lists are never stored as the same text |
| History.Without | app/page.tsx:135-137 | Filtering never lengthens the list, keeps no entry equal to the city ignoring case, and adds no entry |
| History.Promote | app/page.tsx:123-128 | After an update the list has 1 to 5 entries and its head is the searched city (the rest in History.PromoteShape) |
| History.WithoutCounts | app/page.tsx:135-137 | Filtering removes exactly the entries equal to the city ignoring case; every other entry keeps its multiplicity |
| History.WithoutIsSubsequence | app/page.tsx:125-127 | The entries that survive filtering keep their original relative order |
| History.WithoutNoMatch | app/page.tsx:125-127 | When no entry matches the city, filtering returns the list unchanged |
| History.WithoutShrinks | app/page.tsx:125-127 | When some entry matches the city, filtering makes the list strictly shorter |
| History.WithoutKeepsNoDuplicates | app/page.tsx:135-137 | A list without case-insensitive duplicates stays without them after filtering |
| History.PromoteShape | app/page.tsx:123-128 | After an update the head is the city and there are 1 to 5 entries. The rest is the old list minus the city's case-insensitive matches, in order, cut to 4, so no later entry matches the city |
| History.PromoteInventsNothing | app/page.tsx:123-128 | Every entry after an update is the new city or was already in the list |
| History.PromoteExistingNoLonger | app/page.tsx:123-128 | Searching again for a city already listed, in any case, does not make the list longer |
| History.PromoteNewCity | app/page.tsx:123-128 | A city not yet listed goes in front; when five are already listed, the oldest is evicted |
| History.PromoteKeepsNoDuplicates | app/page.tsx:123-128 | If the old list has no case-insensitive duplicates, neither does the updated one |
| History.PromoteIdempotent | app/page.tsx:123-128 | Searching twice in a row for the same city leaves the list as after the first search |
| History.RemoveKeepsInvariant | app/page.tsx:134-137 | Removal keeps a list of at most five entries without case-insensitive duplicates that way |
| History.ExampleScenario | app/page.tsx:122-137 | Paris, london, PARIS, then removing london gives ["Paris"], ["london","Paris"], ["PARIS","london"], ["PARIS"] |
| Controller.TokyoPromotions | app/page.tsx:123-128 | Promoting "Tokyo" turns the empty list into ["Tokyo"] and leaves ["Tokyo","Paris"] as it is |
| Forecast.EveryEighthFrom | app/page.tsx:299 | The index filter from index k keeps at most one entry per index from k on, and from a multiple of 8 its first entry is entry k |
| Forecast.DailySnapshot | app/page.tsx:298-300 | The five-day view holds at most 5 entries and no more than the forecast has, and a non-empty forecast shows its first entry first (exact shape in Forecast.DailySnapshotShape) |
| Forecast.SkipToNextMultiple | app/page.tsx:299 | From an index that is not a multiple of 8, the index filter keeps nothing before the next multiple of 8 |
| Forecast.EveryEighthStep | app/page.tsx:299 | From a multiple of 8 the filter keeps that entry and goes on from the next multiple of 8, or stops when there is none |
| Forecast.EveryEighthFromMultiple | app/page.tsx:299 | From an index k that is a multiple of 8, the filter keeps ⌈(n-k)/8⌉ entries, the i-th being entry k+8i |
| Forecast.DailySnapshotShape | app/page.tsx:298-300 | The five-day view has min(5, ⌈n/8⌉) entries and its i-th entry is forecast entry 8i |
| Icons.WeatherIcon | app/page.tsx:148-161 | Any picture other than Cloud is chosen only for a code in its band |
| Icons.BandsDisjoint | app/page.tsx:148-161 | No condition code lies in the bands of two different pictures |
| Icons.WeatherIconMatchesBands | app/page.tsx:148-161 | Each code gets the picture whose band [200,300), [300,600), [600,700), [700,800) or {800} holds it, or Cloud when no band does, in both directions |
| Lookup.Requests | app/page.tsx:92-97 | The current-conditions request always goes out first; the forecast request goes out second exactly when the first one resolved |
| Lookup.Query | app/page.tsx:90-116 | The `try` block succeeds exactly when both responses resolved, are `ok` and decode (the payloads in Lookup.QueryFoundPayloads) |
| Lookup.QueryFoundPayloads | app/page.tsx:99-106 | When both responses resolved, are `ok` and decode, the lookup yields both payloads unchanged |
| Lookup.QueryNotOk | app/page.tsx:99-101 | When both requests resolve and either response is not `ok`, the failure message is "City not found" |
| Lookup.QueryFirstRejectionWins | app/page.tsx:92-97 | A rejected current-conditions request decides the failure message, whatever the forecast would have been |
| Controller.RecordedReadsBack | app/page.tsx:129-131 | After the write, `searchHistory` holds text that parses back to exactly the list, `lastSearched` holds the city, and every other key is unchanged |
| Controller.Updated | app/page.tsx:122-132 | The update puts the city first in a list of at most 5 entries and changes only the list and the store |
| Controller.Removed | app/page.tsx:134-146 | Removal never lengthens the list, always writes `searchHistory`, and changes only the list and the store |
| Controller.Attempted | app/page.tsx:90-116 | The `try`/`catch` raises exactly one toast, sends one or two requests, and leaves `loading` as it found it |
| Controller.Looked | app/page.tsx:83-120 | A lookup raises exactly one toast, sends at most two requests, sends none exactly when the name is blank, and otherwise ends with loading off |
| Controller.UpdatedSpec | app/page.tsx:122-132 | The update puts the city first in a list of at most 5. A list without duplicates stays so. The store gets that list and the city. Box, weather, forecast and loading are unchanged |
| Controller.RemovedSpec | app/page.tsx:134-146 | Removal takes out exactly the city's matches ignoring case, keeping order, and stores the new list. `lastSearched` goes exactly when it is set and matches. Other keys keep their values and no key other than `searchHistory` is added. Box, weather, forecast and loading are unchanged |
| Controller.LookedBlank | app/page.tsx:84-87 | A blank name sends no request, changes no state, and only raises the error toast |
| Controller.LookedFailure | app/page.tsx:89-119 | When either response is unusable, the box is cleared and loading ends off. Weather, forecast, list and store are unchanged, and the failure message is shown |
| Controller.LookedSuccess | app/page.tsx:89-119 | When both responses are usable, both requests were sent and both payloads replace what is shown. The history is updated with the name, loading ends off and the location is announced |
| Controller.Resumed | app/page.tsx:76-80 | With a last search stored, the startup lookup raises one toast; without one, nothing changes and nothing is sent |
| Controller.MountedWith | app/page.tsx:71-81 | The mount effect stops exactly when the stored list does not parse. Otherwise it sends no request exactly when there is no last search, or it is blank |
| Controller.Mounted | app/page.tsx:71-81 | The effect as written stops exactly when the stored list does not parse |
| Controller.MountedKeepingHistory | app/page.tsx:71-81 | The corrected effect stops exactly when the stored list does not parse |
| Controller.MountedSuccessForgets | app/page.tsx:71-81 | As written, a successful startup lookup leaves the list as just the last search, whatever was restored, and stores that one-entry list |
| Controller.MountedKeepingHistorySuccess | app/page.tsx:71-81 | As intended, a successful startup lookup promotes the last search within the restored list, so up to four other restored entries stay, in order |
| Controller.MountedFailureKeepsRestored | app/page.tsx:71-81 | A failed startup lookup keeps the restored list and the store, and clears the box |
| Controller.StartupForgetsLoadedHistory | app/page.tsx:71-81 | On a reload whose store holds the list ["Tokyo","Paris"] and last search "Tokyo", with both responses usable, the mount effect as written leaves the list as ["Tokyo"]; the intended effect keeps ["Tokyo","Paris"] |
| App.WeatherApp.constructor | app/page.tsx:64-68 | The first render has an empty box, nothing shown, loading off and an empty list |
| App.WeatherApp.UpdateSearchHistory | app/page.tsx:122-132 | The new state is exactly the history update of the old one (Controller.UpdatedSpec) |
| App.WeatherApp.RemoveFromHistory | app/page.tsx:134-146 | The new state is exactly the removal from the old one (Controller.RemovedSpec) |
| App.WeatherApp.FetchWeather | app/page.tsx:83-120 | The new state, the requests sent and the toasts are exactly one lookup (Controller.LookedBlank, LookedFailure, LookedSuccess) |
| App.WeatherApp.TryLookup | app/page.tsx:90-116 | The `try`/`catch` blocks have exactly the success or failure effect of the two responses |
| App.WeatherApp.Search | app/page.tsx:177-188 | The button or Enter looks up the box's text with the current list |
| App.WeatherApp.SelectHistoryEntry | app/page.tsx:210-213 | Clicking an entry looks that name up with the current list |
| App.WeatherApp.Mount | app/page.tsx:71-81 | The effect as written: restore the list or stop, then look up the last search with the empty captured list |
| App.WeatherApp.MountKeepingHistory | app/page.tsx:71-81 | The corrected effect: the startup lookup uses the restored list |
| App.WeatherApp.Restore | app/page.tsx:71-81 | The effect body either stops with nothing changed or restores the list and resumes the last search |
| App.WeatherApp.ResumeLastSearch | app/page.tsx:76-80 | When a last search is stored it is put in the box and looked up; otherwise nothing happens |

## Left out

- Rendering: JSX, layout, the `lucide-react` icons (kept only as the `Icons.Icon` names), the theme toggle, and the text of toasts beyond their kind and message (app/page.tsx:164-345). These are presentation and foreign libraries.
- Network: `fetch`, URL construction, the API key from the environment and the decoding of response bodies (app/page.tsx:91-104). Each response is an input: rejected, or resolved with an `ok` flag and a body that decodes or not.
- `Math.round` on temperatures and `toLocaleDateString` (app/page.tsx:247, 259, 307-315). These are floating-point and locale formatting.
- The search box's `onChange` handler (app/page.tsx:180) just sets `city` to the typed text.
- Concurrency: the model runs each handler to completion. An interleaving of handlers is not modelled, such as a removal while a lookup is awaiting, or a second Enter press while `loading`. The `disabled={loading}` guard covers only the button (app/page.tsx:188).
- App.WeatherApp.FetchWeather: `loading` is `true` only while the requests are awaited; the model states only its final value.
- Text.Lower: lower-cases ASCII letters only. JavaScript's `toLowerCase` also folds non-ASCII letters.
- Icons.WeatherIcon: condition codes are integers. A fractional code or `NaN` (a JavaScript `number`) is not modelled.
- Json.Parse: reads back only arrays of strings in the form `JSON.stringify` writes them (no white space between tokens, no surrogate escapes). Any other text is refused, while `JSON.parse` would accept any JSON value.
- App.WeatherApp.Mount: because of the narrower Json.Parse, stored text that is other valid JSON counts as unparsable and the effect stops. The page would go on with that value.
- `localStorage.setItem` failing (quota exceeded) is not modelled; the store is taken to be reliable.

## Findings

| source | as written | input that shows it | evidently intended | confidence | as-written member | corrected member |
|---|---|---|---|---|---|---|
| app/page.tsx:71-81 | The mount effect restores the stored list, then calls the first render's `fetchWeather`. Its `updateSearchHistory` filters the first render's empty list, so a successful startup lookup sets the list to `[lastSearched]` and writes that back to the store | Stored history `["Tokyo","Paris"]`, last search `"Tokyo"`, both responses ok: the list becomes `["Tokyo"]` and "Paris" is lost from the store | The startup lookup promotes the last search within the restored list, keeping `["Tokyo","Paris"]` | not executed; high (React handlers capture the state of the render that created them) | App.WeatherApp.Mount, Controller.MountedSuccessForgets, Controller.StartupForgetsLoadedHistory | App.WeatherApp.MountKeepingHistory, Controller.MountedKeepingHistorySuccess |
