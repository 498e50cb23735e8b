# Tug tracker map pages — a Dafny model

This project models the client-side trajectory handling of the tug tracker's
map pages:

- **The combined map page** (`src/pages/MapPage.js`). In live mode it shows the
  latest snapshot of every vessel and has a search box. The search matches an
  all-digit text against the MMSI and any other text against the vessel name,
  ignoring padding and letter case. Clicking a marker switches to historical
  mode. That mode fetches the vessel's track and keeps the samples with both
  coordinates. It then plays the track back with a cursor that a timer tick
  advances and a range slider sets. The drawn path is the history up to the
  cursor. It is split into segments coloured by the speed of each segment's
  first point. "Back to Live" resets the playback state.
- **The stand-alone historical page** (`frontend/src/pages/HistoricalPage.js`).
  It keeps the fetched records with both coordinates and sorts them stably by
  `created_date`. It draws them as a path with start and end markers and
  direction arrows.
- **The stand-alone live page** (`frontend/src/pages/LivePage.js`). It keeps the
  vessels with both coordinates, draws one marker per vessel, and centres the
  map on the first one or on a fixed default.

Files:

- `VesselRecords.dfy` holds the shared record shape, JavaScript truthiness of a
  coordinate, the `data.data || []` fallback, the coordinate filter, JavaScript
  indexing (`undefined` outside the bounds), and the `[latitude, longitude]`
  projection.
- `JsText.dfy` holds `trim`, `toLowerCase`, `/^\d+$/` and `String(n)` of an
  integer, with the decimal round trips.
- `MapPage.dfy` holds `getColor`, the segmenter, the search and the playback
  cursor as functions. The page's React state is a class `MapPageState` whose
  methods are the event handlers, the timer tick and the prefix effect.
- `HistoricalPage.dfy` holds the stable sort by date, the positions and what is
  drawn for them.
- `LivePage.dfy` holds what is drawn for one `/live` response.

Modelling choices:

- A record is a `Sample` with an integer `mmsi`, an optional name, optional real
  coordinates (`None` is a missing or null field), a real speed and an integer
  `createdDate`.
- A coordinate is truthy when it is present and non-zero, so a latitude of 0
  counts as missing, as it does in the source.
- The network, the timers and the browser are the environment. A response
  arrives as a `Payload` passed to `ReceiveHistorical`, `ReceiveLiveData`,
  `Positions` or `LiveViewOf`. An interval firing is a call of `Tick`. React's
  effect on `[sliderIndex, history]` is a call of `SyncVisiblePath`.
- The class invariant `Valid()` says two things. The cursor lies inside a
  non-empty history, and it is 0 or -1 when the history is empty. The drawn
  path is always a prefix of the history. `Synced()` says the prefix effect
  has caught up with the cursor.

Facts about the code that shape the model:

- After a fetch the cursor is put on the last sample (`MapPage.js:66`).
- Each tick steps the cursor by 1 (`MapPage.js:47`).
- The colour thresholds are 6 and 8.5, and a speed of exactly 6 is yellow
  (`MapPage.js:116-120`).
- The map page does not sort what it fetches (`MapPage.js:63`); it relies on
  the backend's `ORDER BY timestamp ASC`.
- A late historical response is not checked against the current selection.
  `ReceiveHistorical` has no precondition on the mode, so a response that
  arrives after "Back to Live" still replaces the history.
- Apart from dropping samples without both coordinates, every fetched sample
  is kept.

## Model

| member | source | states |
|---|---|---|
| `VesselRecords.RecordsOf` | frontend/src/pages/LivePage.js:10 | a payload without `data` gives the empty list; otherwise its `data` list unchanged |
| `VesselRecords.KeepWithCoords` | src/pages/MapPage.js:63 | every kept record has truthy latitude and longitude; a record is kept exactly when it is in the input and has both; each such record is kept as often as it occurs |
| `VesselRecords.KeepWithCoordsIsSubsequence` | frontend/src/pages/LivePage.js:13 | the kept records are an order-preserving subsequence of the input |
| `VesselRecords.KeepWithCoordsAppend` | frontend/src/pages/HistoricalPage.js:22 | filtering a concatenation is the concatenation of the filtered parts, so the filter never reorders |
| `VesselRecords.KeepWithCoordsFirst` | frontend/src/pages/LivePage.js:15-16 | the first input record with both coordinates heads the filtered list |
| `VesselRecords.KeepWithCoordsNone` | frontend/src/pages/LivePage.js:17 | when no record has both coordinates the filtered list is empty |
| `VesselRecords.At` | frontend/src/pages/HistoricalPage.js:28-29 | JavaScript indexing: a value exactly for an index inside the bounds, `undefined` otherwise |
| `VesselRecords.PointsOf` | frontend/src/pages/HistoricalPage.js:30 | the projection has one `[latitude, longitude]` point per record, at the same index |
| `JsText.TrimStart` | src/pages/MapPage.js:85 | what remains is a suffix of the input, everything dropped is white space, and it does not start with white space |
| `JsText.TrimEnd` | src/pages/MapPage.js:85 | what remains is a prefix of the input, everything dropped is white space, and it does not end with white space |
| `JsText.Trim` | src/pages/MapPage.js:85 | the result is a contiguous slice of the input, with white space on neither end, and everything outside it is white space |
| `JsText.TrimIdempotent` | src/pages/MapPage.js:85 | trimming a trimmed text changes nothing |
| `JsText.ToLower` | src/pages/MapPage.js:87 | the result has the input's length and each character is the lower-case form of the input's |
| `JsText.ToLowerIdempotent` | src/pages/MapPage.js:87 | lower-casing is idempotent and leaves no upper-case letter |
| `JsText.ToLowerDigits` | src/pages/MapPage.js:86-87 | a text lower-cases to all digits exactly when it is all digits, and then lower-casing leaves it unchanged |
| `JsText.NatToString` | src/pages/MapPage.js:91 | `String(n)` of a non-negative integer is a non-empty digit string with no leading zero |
| `JsText.IntToString` | src/pages/MapPage.js:91 | `String(n)` is canonical digits for n >= 0 and starts with a minus sign for n < 0 |
| `JsText.ParseNatToString` | src/pages/MapPage.js:91 | reading back the digits `String(n)` prints gives n |
| `JsText.ParsePositive` | src/pages/MapPage.js:91 | a digit string starting with a non-zero digit has a positive value |
| `JsText.NatToStringParse` | src/pages/MapPage.js:91 | printing the value of a canonical digit string gives the same string |
| `JsText.IntToStringMatches` | src/pages/MapPage.js:91 | an all-digit text equals `String(n)` exactly when n >= 0, the text has no leading zero and its value is n |
| `MapPage.GetColor` | src/pages/MapPage.js:116-120 | green exactly below 6, yellow exactly from 6 to 8.5 inclusive, red exactly above 8.5 |
| `MapPage.GetColorMonotone` | src/pages/MapPage.js:116-120 | a higher speed never gets a slower colour band |
| `MapPage.Segments` | src/pages/MapPage.js:122-132 | a path of N points gives max(N-1, 0) segments; segment i joins point i to point i+1 and takes the colour of point i's speed |
| `MapPage.SegmentsOfPrefix` | src/pages/MapPage.js:122-128 | the segments of the first k+1 samples are the first k segments of the whole track |
| `MapPage.LastSpeedIsUnused` | src/pages/MapPage.js:124 | changing the last point's speed changes no segment: colour comes from the starting point, never the end point |
| `MapPage.FindIndex` | src/pages/MapPage.js:89 | `find` gives the first index the predicate accepts, or none when it accepts no element |
| `MapPage.FindMatch` | src/pages/MapPage.js:89-92 | the search finds the first vessel that matches the query, or none when no vessel matches |
| `MapPage.MmsiSearchMatches` | src/pages/MapPage.js:85-91 | an all-digit trimmed query matches a vessel exactly when it is the vessel's non-negative MMSI written without a leading zero |
| `MapPage.NameSearchMatches` | src/pages/MapPage.js:87-91 | any other query matches exactly when the vessel's trimmed, lower-cased name equals the lower-cased trimmed query |
| `MapPage.SearchIgnoresCaseAndPadding` | src/pages/MapPage.js:85-87 | two search texts that agree after trimming and lower-casing give the same query |
| `MapPage.TicksFrom` | src/pages/MapPage.js:46-50 | from index i inside the history, k ticks give index min(i+k, last), and playing continues exactly while i+k < length |
| `MapPage.PlaybackStopsAtEnd` | src/pages/MapPage.js:46-50 | from index i, length-i ticks reach the last index with playing off, and no number of ticks passes the last index |
| `MapPage.MapPageState.constructor` | src/pages/MapPage.js:16-25 | the initial state: live mode, no vessels, no match, no selection, empty history and path, index 0, not playing, empty name |
| `MapPage.MapPageState.ReceiveLiveData` | src/pages/MapPage.js:39 | the vessel list becomes the response's `data`, or empty without one |
| `MapPage.MapPageState.SelectVessel` | src/pages/MapPage.js:207-210 | a marker click selects the vessel's MMSI and enters historical mode; the history fetch is issued exactly when that MMSI is non-zero (truthy) |
| `MapPage.MapPageState.ReceiveHistorical` | src/pages/MapPage.js:62-67 | history is the fetched records with truthy coordinates in their original order, the drawn path is all of it, the index is length-1 (-1 when empty), and the name is taken from the first record only when there is one |
| `MapPage.MapPageState.Tick` | src/pages/MapPage.js:45-50 | below the last index the index grows by exactly 1 and playing is unchanged; at or past it the index stays and playing stops; the invariant is kept |
| `MapPage.MapPageState.Seek` | src/pages/MapPage.js:169-174 | the slider sets the index to its value, which lies in 0..length-1 |
| `MapPage.MapPageState.TogglePlay` | src/pages/MapPage.js:166 | the play button flips the playing flag |
| `MapPage.MapPageState.SyncVisiblePath` | src/pages/MapPage.js:78-82 | with a non-empty history the drawn path becomes the history up to and including the index, of length index+1; with an empty one it is left untouched |
| `MapPage.MapPageState.BackToLive` | src/pages/MapPage.js:153-161 | live mode, no selection, no match, empty history and path, index 0, not playing; so no timer runs and no fetch is issued |
| `MapPage.MapPageState.HandleSearch` | src/pages/MapPage.js:84-104 | with a match the match becomes the first matching vessel and is the only vessel shown; without one the match is unchanged |
| `MapPage.MapPageState.ResetSearch` | src/pages/MapPage.js:192 | the match is cleared and every vessel is shown again |
| `MapPage.MapPageState.VesselsToShow` | src/pages/MapPage.js:134 | the match alone when there is one, otherwise every vessel |
| `MapPage.MapPageState.LiveMarkers` | src/pages/MapPage.js:201-204 | in live mode one marker per vessel shown, at its position and in order; none in historical mode |
| `MapPage.MapPageState.SliderInRange` | src/pages/MapPage.js:164-174 | whenever the controls are shown, the slider's value lies between its `min` 0 and its `max` `history.length - 1` |
| `MapPage.MapPageState.CursorView` | src/pages/MapPage.js:222-238 | once the prefix effect has run, the start marker is the first sample of the history, the end marker is the sample under the cursor and the polylines are the first `sliderIndex` segments of the whole track |
| `HistoricalPage.InsertByDate` | frontend/src/pages/HistoricalPage.js:23 | inserting adds exactly the new record: the result's multiset is the input's plus it |
| `HistoricalPage.InsertSorted` | frontend/src/pages/HistoricalPage.js:23 | inserting into a date-ordered sequence keeps it date-ordered |
| `HistoricalPage.SortByDate` | frontend/src/pages/HistoricalPage.js:23 | the sorted records are a permutation of the input in non-decreasing `created_date` order |
| `HistoricalPage.InsertKeepsTies` | frontend/src/pages/HistoricalPage.js:23 | among records of one date, the inserted record comes first, as it did in the input |
| `HistoricalPage.SortIsStable` | frontend/src/pages/HistoricalPage.js:23 | records of equal date keep their input order |
| `HistoricalPage.PositionsSpec` | frontend/src/pages/HistoricalPage.js:21-24 | every position has truthy coordinates; every fetched record with both is a position; positions are date-ordered, a permutation of the filtered records, and stable on ties |
| `HistoricalPage.ViewOf` | frontend/src/pages/HistoricalPage.js:28-35 | `path[i]` is position i's `[latitude, longitude]`; start and end are the first and last positions, absent exactly when there are none and equal for one; the track and markers are drawn exactly for a non-empty path, the arrows exactly for at least 2 points; the centre is the first point or the default |
| `HistoricalPage.EndpointsBracketTrack` | frontend/src/pages/HistoricalPage.js:23-29 | on date-ordered positions the start is the oldest position and the end the newest |
| `LivePage.LiveViewOf` | frontend/src/pages/LivePage.js:10-24 | the valid vessels are the response's vessels with truthy coordinates; one marker per valid vessel at its position, in order; the centre is the first marker, or the default with none |
| `LivePage.MissingDataDrawsNothing` | frontend/src/pages/LivePage.js:10 | a response without `data` draws no marker and uses the default centre |
| `LivePage.CenterIsFirstVesselWithCoords` | frontend/src/pages/LivePage.js:13-17 | the centre is the position of the first vessel in the response with both coordinates, or `[37.7749, -122.4194]` when no vessel has both |
| `LivePage.OneMarkerPerValidVessel` | frontend/src/pages/LivePage.js:13-24 | the marked vessels are an order-preserving subsequence of the response holding exactly the vessels with both coordinates, one marker each |

## Left out

- Network requests are not modelled, and neither are the URLs built for them or the date strings formatted for the query (`MapPage.js:58-60`). The conditions that issue a request are modelled (`HistoryRequested`); the request itself is I/O.
- Timers are not modelled: `setInterval`, `clearInterval` and `setTimeout`. A tick is a call of `Tick`; `TimerRunning` states when the interval exists.
- The `mode === "live"` test in `fetchLiveData` (`MapPage.js:35`) is left out with the poll that it guards. Because the interval keeps the first render's closure, that test does not stop later polls. `ReceiveLiveData` therefore has no precondition on the mode.
- Leaflet and presentation are not modelled: icons, tiles, tooltips, popups, `fitBounds`, `flyTo`, the arrow-head pattern and `currentCenter` (`MapPage.js:135-137`). Only which markers and polylines are drawn, and where, is modelled.
- Browser dialogs are not modelled: the `alert` when no vessel is found leaves the state unchanged, and the `prompt` for the MMSI on the historical page is input.
- Date parsing in the sort comparator is not modelled; `created_date` is an integer timestamp.
- A missing or null `speed` is not modelled; speed is always a real. In the source an undefined speed colours red and a null one colours green.
- A NaN coordinate is not modelled (it is falsy in JavaScript).
- Names and MMSIs of types other than string and integer are not modelled.
- The backend (`backend/app/main.py`) is not part of this model: its SQL selects the latest row per vessel and the time range. Its error answer `{"error": ...}` appears here only as a payload without `data`.
- `JsText.ToLower`: only ASCII letters are lower-cased. The full Unicode case mapping of `toLowerCase` is not modelled, so names with non-ASCII capitals may compare differently than in a browser.
- `JsText.NatToString`: integers of 10^21 and above, which `String` prints in exponent form, are not modelled. MMSIs have nine digits.
- `MapPage.MapPageState.Seek`: the precondition `0 <= k < |history|` is the browser's guarantee for a range input with `min="0"` and `max={history.length - 1}`. The input is rendered only when the history is non-empty.
- The play button is rendered only in historical mode with a non-empty history (`ControlsShown`, whose slider bounds `SliderInRange` states). `TogglePlay` does not require this, because the handler does not check it.
