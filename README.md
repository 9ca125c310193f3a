# Flight tracker: a Dafny model of its logic

The flight tracker is a single-page React application. A user types a flight
number. After a simulated two-second delay the app looks the number up in a
table of three canned flights. An unknown number gets a fixed "Flight Not
Found" record. For a flight that is "En Route" or "Departed", a repeating timer
then perturbs the displayed record every three seconds to simulate live
telemetry. This project models that logic and proves its properties:

- `Flights` (flights.dfy): the `FlightInfo` record and the lookup table
  (`generateMockFlightData`) with its not-found fallback. It also holds ASCII
  `toUpperCase` and `Resolve`, the lookup of the upper-cased query that a
  search performs.
- `Telemetry` (telemetry.dfy): the tick updater passed to `setFlightData`. It
  is a pure function of the previous record and of the tick's four
  `Math.random()` results, which are parameters in [0, 1). Runs of ticks are
  covered too.
- `Tracker` (tracker.dfy): the `App` component's state as the class
  `Tracker.App`. Its fields are the current record, the loading flag, the
  error, the last query, the searches waiting out their delay, and every
  interval started so far. `handleSearch` is split into `StartSearch`
  (before the delay) and `CompleteSearch` (after it). One timer firing is
  `Tick`.
- `FlightCard` (flight_card.dfy): `getStatusColor` and the rounded progress
  and remaining-distance labels.
- `FlightMap` (flight_map.dfy): the marker offset
  `max(10, min(90, 10 + progress * 0.8))` and the path width.
- `SearchForm` (search_form.dfy): `trim`, the submit handler, the
  submit-button rule, the example buttons, and the class `SearchForm.Form`
  that holds the query text.

The scheduler is modelled as the code behaves, not as one might expect it to:

- `handleSearch` throws away the cancel function that `startRealTimeUpdates`
  returns. No interval is ever cleared.
- Every search of an active flight adds one more interval.
- Each interval's gate tests the status captured when the interval started,
  which is always active.
- Each interval ticks whatever record is current.

So after searching "AA123" and then "DL789", the first interval keeps ticking
the landed Delta record. That record then shows a speed of at least 450 and an
altitude of at least 25000 (`Tracker.StaleIntervalScenario`). The loop also
never stops at 100% progress or zero remaining distance.

## Model

| member | source | states |
|---|---|---|
| `Flights.Lookup` | src/App.tsx:61-157 | total lookup; the result carries the key as its flight number, has status "Flight Not Found" exactly when the key is not one of the three table keys, and is well-formed (progress in [0,100], 0 <= remaining <= total, speed and altitude >= 0) |
| `Flights.LookupKnownFlights` | src/App.tsx:62-131 | "AA123", "UA456", "DL789" return exactly their canned records, with statuses En Route, Departed, Landed |
| `Flights.LookupUnknownFlight` | src/App.tsx:134-156 | any other key returns the fallback: flight number = key, status "Flight Not Found", airline "Unknown Airline", every other descriptive field "Unknown", all numbers 0 |
| `Flights.LookupActiveExactly` | src/App.tsx:172-174 | a looked-up record has status "En Route" or "Departed" (the gate that starts live updates) iff the key is "AA123" or "UA456"; "DL789" and unknown keys start none |
| `Flights.UpperChar` | src/App.tsx:168 | ASCII upper-casing of one character: lower-case letters map to their capitals, everything else is unchanged |
| `Flights.Upper` | src/App.tsx:168 | `toUpperCase` keeps the length, upper-cases each character, and leaves no lower-case ASCII letter |
| `Flights.UpperIdempotent` | src/App.tsx:168 | upper-casing twice equals upper-casing once |
| `Flights.Resolve` | src/App.tsx:168 | the record a search loads carries the upper-cased query as flight number and is well-formed |
| `Flights.ResolveCaseInsensitive` | src/App.tsx:168 | a query and its upper-cased form load the same record |
| `Flights.ResolveSameUpper` | src/App.tsx:168 | two queries that agree up to ASCII letter case load the same record |
| `Flights.ResolveLowerCaseExample` | src/App.tsx:168 | the query "aa123" loads exactly the American Airlines record |
| `Telemetry.TickRecord` | src/App.tsx:185-202 | one tick: progress <= 100 and, from progress <= 100, non-decreasing and less than 2 higher; speed >= 450 and altitude >= 25000 whatever they were, moving by less than 10 / 500 from above the floor; remaining in [0, max(old, 0)] and less than 10 lower; every other field copied unchanged |
| `Telemetry.Updater` | src/App.tsx:185-186 | the updater keeps a missing record missing and keeps a present record's flight number and status |
| `Telemetry.TickPreservesWellFormed` | src/App.tsx:192-201 | a tick keeps a well-formed record well-formed, so remaining <= total is preserved |
| `Telemetry.TickAllMonotone` | src/App.tsx:183-204 | over any run of ticks: well-formedness holds, progress never decreases and grows by less than 2 per tick, remaining never increases, identity, status, endpoints, aircraft, position and total distance never change |
| `Telemetry.TickAllNeverStops` | src/App.tsx:183-204 | after any non-empty run of ticks speed >= 450 and altitude >= 25000 whatever the progress, and a record at 100% stays at 100% |
| `Telemetry.TickMovesLandedRecord` | src/App.tsx:185-196 | a tick applied to the landed Delta record raises its speed from 0 to >= 450 and its altitude from 0 to >= 25000, keeping status "Landed" |
| `Tracker.App.constructor` | src/App.tsx:54-57 | initial state: empty query, no record, not loading, no error, no searches waiting, no intervals |
| `Tracker.App.StartSearch` | src/App.tsx:159-166 | at search start: loading is set, the error is cleared, the query is recorded and its continuation waits; the record and the intervals are untouched |
| `Tracker.App.CompleteSearch` | src/App.tsx:166-179 | after the delay: the record becomes the lookup of the upper-cased query; one interval is appended iff its status is "En Route" or "Departed", and earlier intervals are kept; loading is false; the invariant is kept |
| `Tracker.App.StartRealTimeUpdates` | src/App.tsx:182-207 | appends one uncleared interval capturing the record and returns its index as the cancel handle; nothing else changes |
| `Tracker.App.Cancel` | src/App.tsx:206 | the cancel closure marks exactly that interval cleared and changes nothing else, so a second call leaves the state as the first left it |
| `Tracker.App.Tick` | src/App.tsx:183-204 | one firing of any live interval applies the updater to the current record, whichever search loaded it; the record stays well-formed and nothing else changes |
| `Tracker.StaleIntervalScenario` | src/App.tsx:168-185 | after searching "AA123" then "DL789", one interval is alive and its tick leaves the shown Landed record with speed >= 450 and altitude >= 25000 |
| `Tracker.RepeatedSearchScenario` | src/App.tsx:172-174 | searching "aa123" twice leaves two intervals and shows the American Airlines record |
| `Tracker.UnknownFlightScenario` | src/App.tsx:134-174 | searching "zz000" shows the not-found record for "ZZ000" with progress 0 and starts no interval |
| `FlightCard.StatusColor` | src/components/FlightCard.tsx:39-52 | one of five distinct styles; green iff "En Route", blue iff "Departed", gray iff "Landed", yellow iff "Delayed", red iff any other string |
| `FlightCard.LoadedStatusStyles` | src/components/FlightCard.tsx:39-52 | the American flight is styled green, the United flight blue, the Delta flight gray, and every not-found record red |
| `FlightCard.Round` | src/components/FlightCard.tsx:105 | `Math.round` gives the integer n with n - 0.5 <= x < n + 0.5 |
| `FlightCard.RoundWithin` | src/components/FlightCard.tsx:105 | rounding keeps a value inside an integer range it lies in |
| `FlightCard.ProgressLabel` | src/components/FlightCard.tsx:105 | the progress label is within 0.5 of progress and lies in 0..100 when progress does |
| `FlightCard.RemainingLabel` | src/components/FlightCard.tsx:164 | the remaining label is within 0.5 of the remaining distance and lies between 0 and the rounded total for a well-formed record |
| `FlightMap.MarkerLeft` | src/components/FlightMap.tsx:102 | the marker offset lies in [10, 90]; for progress in [0, 100] it is exactly 10 + 0.8 * progress; at or below 0 it is 10, at or above 100 it is 90 |
| `FlightMap.MarkerEndpoints` | src/components/FlightMap.tsx:102 | progress 0 puts the marker at 10, progress 100 at 90 |
| `FlightMap.MarkerMonotonic` | src/components/FlightMap.tsx:102 | the offset is non-decreasing in progress |
| `FlightMap.PathWidth` | src/components/FlightMap.tsx:94 | the flown-path width lies in [0, 100] for a well-formed record |
| `FlightMap.PathWidthNotClamped` | src/components/FlightMap.tsx:94 | above 100 progress the width exceeds 100 while the marker stays clamped at 90 |
| `FlightMap.MarkerFollowsPath` | src/components/FlightMap.tsx:94-102 | on a well-formed record the marker offset is 10 + 0.8 * width |
| `SearchForm.Trim` | src/components/SearchForm.tsx:14-15 | `trim` returns the input without its leading and trailing white space: the slice of the input between an all-white-space prefix and an all-white-space suffix, empty iff the input is all white space, otherwise with no white space at either end |
| `SearchForm.TrimPaddedExample` | src/components/SearchForm.tsx:15 | the padded query "  AA123 " is searched as "AA123" |
| `SearchForm.TrimIdempotent` | src/components/SearchForm.tsx:15 | trimming a trimmed string changes nothing |
| `SearchForm.Submission` | src/components/SearchForm.tsx:12-17 | `onSearch` is called iff the query holds a non-white-space character, and then with the trimmed query, which is non-empty, has no white space at either end, and is fixed by trimming |
| `SearchForm.SubmitDisabled` | src/components/SearchForm.tsx:40 | the submit button is disabled iff loading or the query is all white space; when enabled, submitting searches |
| `SearchForm.ExampleFlightsAreKnownKeys` | src/components/SearchForm.tsx:19 | the example flights are exactly the lookup table's keys, and none loads the not-found record |
| `SearchForm.Form.constructor` | src/components/SearchForm.tsx:10 | the query starts empty |
| `SearchForm.Form.Change` | src/components/SearchForm.tsx:32 | typing sets the query to the typed value |
| `SearchForm.Form.ChooseExample` | src/components/SearchForm.tsx:61 | an example button sets the query to that example, a table key, which submitting then searches unchanged |
| `SearchForm.Form.Submit` | src/components/SearchForm.tsx:12-17 | `handleSubmit` passes to `onSearch` exactly what `Submission` describes for the current query |

## Left out

- Timing: the 2000 ms search delay and the 3000 ms interval period. Searches complete and intervals fire as discrete events (`CompleteSearch`, `Tick`) in any order a caller chooses. Searches complete in the order they started, because their delays are equal.
- `Math.random`: each draw is a parameter in [0, 1). The model keeps the source's arithmetic on it: `r * 2`, `(r - 0.5) * 20`, `(r - 0.5) * 1000` and `r * 10`.
- IEEE-754 doubles: numbers are reals, so rounding error and NaN are not modelled. The `toFixed(4)` and `toLocaleString()` formatting of coordinates and altitude is presentation and is left out.
- `Flights.Upper`: only ASCII letters are upper-cased. Full Unicode case mapping, where a character such as 'ß' can change the length, is not modelled.
- `SearchForm.IsSpace`: white space is the ASCII set (space and code points 9 to 13). ECMAScript `trim` also strips no-break space, the other Unicode space separators, U+2028, U+2029 and U+FEFF.
- `Flights.Lookup`: models the table as a map of its own three keys. It does not model a JavaScript property lookup that could reach `Object.prototype` members. Every such member name contains a lower-case letter, and the key is always upper-cased, so no reachable key is affected.
- The `catch` branch of `handleSearch` (src/App.tsx:175-176): nothing in the `try` block can throw. The error field stays `None`, which `Tracker.App.Valid` records.
- React machinery: hooks, re-rendering, batching of state updates, the JSX markup, CSS classes other than the five status styles, and icons.
- Unused state: the `FlightData` interface and the `realTimeData` state (src/App.tsx:9-21, 58) are never read.
- The `loading` guard on inputs: the disabled attributes on the text input and the example buttons (src/components/SearchForm.tsx:35, 63) are not modelled. `SearchForm.Form` accepts input in any state.
- `Tracker.App.StartRealTimeUpdates`: requires the record to be active and already stored. Its one caller guarantees both, and they are what keeps every interval's gate open in `Tracker.App.Valid`.
- The `Hero` and `LoadingSpinner` components and the build configuration are pure presentation or tooling.
