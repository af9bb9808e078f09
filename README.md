# QuakeWatch core, modelled in Dafny

QuakeWatch serves the USGS real-time earthquake feed through a small HTTP API
and shows it on a web page. This project models the two parts of it that hold
logic:

- the `/quakes` handler of the API (apps/api/main.py): choose the USGS summary
  feed for the requested window, walk the decoded feed's `features`, normalise
  each into a record (missing `properties`/`geometry` read as empty, missing
  coordinates read as three nulls, epoch milliseconds rendered by `iso_utc`),
  skip every feature whose magnitude is null or below `minMag`, sort in
  descending order of the key `time or ""` with Python's stable sort (newest
  first, as the rendered times sort as strings), keep the first
  `limit` records and wrap them in a `meta` record;
- the loading logic of the page (apps/web/src/App.tsx): `load` resolves its
  request from overrides and the current filters, sets `loading` and clears
  `error`, stores the response or the error when the request settles, and
  clears `loading` in `finally`; four guarded blocks then show the error
  alert, the loading indicator, the empty-state note or the results table.

Modules, one per concern:

- `Wrappers` (wrappers.dfy): `Option` and `Result`.
- `Api` (api.dfy): windows and their feed URLs, query validation, the decoded
  feed document, `iso_utc`, the record and envelope types.
- `TextOrder` (text_order.dfy): Python's `<` on strings, which orders the sort
  key, with its order laws.
- `RecencySort` (recency_sort.dfy): the sort key, a stable descending sort as
  a function, and the proof that it is descending by that key, a
  permutation, stable, and the only arrangement with those properties.
- `Quakes` (quakes.dfy): the handler. `Response` states the answer as one
  value; the method `CollectRecords` follows the handler's loop (append per
  kept feature) and is proved to return `Collect`, and the method `Quakes`
  runs it, then sorts, slices and wraps, and is proved to return `Response`.
  The lemmas state what every answer satisfies.
- `WebApp` (web_app.dfy): the load state machine as the class `App`, whose
  methods are proved against the transition functions `Begin` and
  `SettleAsWritten`, and the panel selection `Shown` with its lemmas.

Parameters stand in for what the model does not open: the decoded feed
document (the HTTP fetch), `generatedAt` (the clock), `iso` (the datetime
library's ISO-8601 formatting, taken to be total, so it never raises; beyond
that only "never returns the empty string" is assumed of it, and only where
stated) and `fetch` (the page's GET request).

On these edges the code behaves as follows, and the model follows the code:

- A feed document without `features` is answered as an empty list with
  `count` 0, not as a malformed-upstream error.
- A kept feature whose coordinate list has one or two entries makes the whole
  request fail (Python raises `IndexError`, a server error). It is not
  skipped or degraded to null fields. The model returns
  `Failure(CoordinateIndexError)` for it. A feature skipped by the magnitude
  gate never reaches the indexing, so it cannot fail.
- The page starts with `loading` false and no data or error, so no panel is
  shown until the first `load` begins. It does not start in a loading state.

## Model

| member | source | states |
|---|---|---|
| `Api.ParseWindow` | apps/api/main.py:23 | only "hour", "day" and "week" are windows, each reads back as its own name |
| `Api.FeedUrl` | apps/api/main.py:17-21 | the feed lookup never misses; each window gets the USGS summary feed `all_<window>.geojson` |
| `Api.ParseQuery` | apps/api/main.py:38-41 | missing parameters default to "day", 0.0, 50; the request is accepted iff the window is known, `minMag >= 0` and `1 <= limit <= 200`; a refusal names exactly the offending parameters |
| `Api.IsoUtc` | apps/api/main.py:26-29 | a null time stays null and a present one is exactly the formatter's rendering of it; with a formatter that never returns "", the rendering is non-empty |
| `TextOrder.Below` | apps/api/main.py:80 | Python's `<` on strings: a string is below only a different, non-empty one |
| `RecencySort.SortKey` | apps/api/main.py:80 | the sort key is the record's rendered time, or "" for a null time |
| `RecencySort.SortByTimeDesc` | apps/api/main.py:80 | the sort returns a permutation of its input |
| `RecencySort.SortDescending` | apps/api/main.py:80 | the sorted records are non-increasing under the key `time or ""` |
| `RecencySort.SortStable` | apps/api/main.py:80 | records with equal keys keep their input order |
| `RecencySort.SortCharacterized` | apps/api/main.py:80 | any newest-first arrangement that keeps every key's records in input order is the sort's output |
| `RecencySort.SortedPrefixFromInput` | apps/api/main.py:80-90 | sorting then slicing draws every record, with multiplicity, from the input |
| `RecencySort.SortedPrefixKeepsTies` | apps/api/main.py:80-90 | after sorting and slicing, each key's records are the first of that key in the input, in input order |
| `RecencySort.UntimedLast` | apps/api/main.py:80 | when no time is "", in a newest-first list every record without a time follows every record with one |
| `RecencySort.SortedPrefixNewestFirst` | apps/api/main.py:80-90 | the first `limit` sorted records are non-increasing under `time or ""` (newest first for an order-preserving formatter) and, when no time is "", every record without a time follows every record with one |
| `RecencySort.Prefix` | apps/api/main.py:90 | `items[:limit]` is a prefix of `items` of length `min(limit, len(items))` |
| `RecencySort.PrefixWithKey` | apps/api/main.py:90 | truncation keeps each key's records as a prefix of that key's records |
| `Quakes.FeaturesOf` | apps/api/main.py:50 | the features walked are the document's list, or none when the document has no list |
| `Quakes.PropertiesOf` | apps/api/main.py:54 | the properties read are the feature's own, or the empty object (so a null magnitude) when they are missing or null |
| `Quakes.CoordinatesOf` | apps/api/main.py:55-56 | the coordinate list used is never empty: a missing geometry, a missing list and an empty list give three nulls, any other list is used as given |
| `Quakes.Kept` | apps/api/main.py:58-59 | a feature is kept iff its magnitude is non-null and at least `minMag` |
| `Quakes.Normalize` | apps/api/main.py:62-77 | the record keeps the feature's id and its magnitude, place, url, tsunami, felt and sig; absent or empty coordinates give null longitude, latitude and depth (never 0); a given list supplies longitude, latitude, depth from entries 0, 1, 2; `time` and `updated` are `iso_utc` of the feature's values, null exactly when those are null |
| `Quakes.Passing` | apps/api/main.py:58-60 | every feature that passes the gate has a magnitude of at least `minMag` |
| `Quakes.NormalizeAll` | apps/api/main.py:53-77 | one record per kept feature, in feed order |
| `Quakes.Collect` | apps/api/main.py:53-77 | the loop fails iff some kept feature has one or two coordinates; otherwise it yields one record per kept feature, each with magnitude at least `minMag` |
| `Quakes.ResponseShown` | apps/api/main.py:53-90 | when every kept feature can be indexed, the items are exactly the first `limit` of the records of the kept features sorted by `SortByTimeDesc`, and `meta` carries source "USGS", the window, `minMag`, their count and `generated_at` |
| `Quakes.Response` | apps/api/main.py:50-91 | the answer fails iff some kept feature has one or two coordinates; otherwise `meta` echoes source "USGS", the window, `minMag` and `generated_at`, and `count == len(items) <= limit` |
| `Quakes.CollectRecords` | apps/api/main.py:53-77 | the loop that skips ungated features and appends a record per kept one produces exactly `Collect`, stopping with the index error at the first kept feature it cannot index |
| `Quakes.Quakes` | apps/api/main.py:50-91 | the loop, the sort, the slice and the envelope produce exactly `Response` |
| `Quakes.KeptUnindexableFails` | apps/api/main.py:73-75 | a kept feature with one or two coordinates makes the request fail |
| `Quakes.PassingExactly` | apps/api/main.py:58-60 | a feature passes iff it is in the feed and its magnitude is non-null and at least `minMag`; so magnitude 0.0 passes threshold 0.0 and a null magnitude never passes |
| `Quakes.ItemsMeetThreshold` | apps/api/main.py:58-60 | every returned record has magnitude at least `minMag` |
| `Quakes.CountIsCapped` | apps/api/main.py:87-90 | `count == len(items) == min(limit, number of features that passed)` |
| `Quakes.ItemsComeFromFeed` | apps/api/main.py:53-90 | the returned records are drawn, with multiplicity, from the records of the kept features |
| `Quakes.NormalizedTimesNonEmpty` | apps/api/main.py:67 | with a formatter that never returns "", no record's time is "" |
| `Quakes.ItemsNewestFirst` | apps/api/main.py:80 | the returned records are non-increasing under `time or ""` (newest first for an order-preserving formatter), and with a formatter that never returns "" records without a time come after all records with one |
| `Quakes.ItemsKeepFeedOrderOnTies` | apps/api/main.py:80 | records of equal time, and the records without a time, come back in feed order |
| `Quakes.MissingFeaturesGiveEmptyEnvelope` | apps/api/main.py:50 | a document without `features` gives an empty list with `count` 0 and the usual `meta` |
| `Quakes.ThresholdScenario` | apps/api/main.py:58-60 | magnitudes 5.0, 2.1 and null at threshold 3.0 give the single record 5.0, with null longitude, latitude and depth |
| `WebApp.Resolve` | apps/web/src/App.tsx:38-40 | each request parameter is its override when one is supplied, otherwise the current filter |
| `WebApp.RefreshRequestsCurrentFilters` | apps/web/src/App.tsx:80 | the Refresh button requests exactly what `load()` without overrides requests |
| `WebApp.Truthy` | apps/web/src/App.tsx:150-170 | a nullable string is truthy only when present, and "" is falsy |
| `WebApp.Shown` | apps/web/src/App.tsx:150-170 | at most one panel; the alert iff the error is truthy; the loading indicator iff there is no truthy error and `loading` is set |
| `WebApp.AtMostOnePanel` | apps/web/src/App.tsx:150-170 | at most one of alert, loading indicator, empty note and table is shown |
| `WebApp.ErrorWins` | apps/web/src/App.tsx:150-170 | with a (truthy) error only the alert is shown |
| `WebApp.SettledDataPanel` | apps/web/src/App.tsx:164-170 | with no error, not loading and data present, the empty note shows iff there are no records and the table iff there are some; never the alert |
| `WebApp.Begin` | apps/web/src/App.tsx:42-43 | at the start of `load`, `loading` is true, `error` is null, the old data is kept and only the loading indicator shows |
| `WebApp.FailureMessageAsWritten` | apps/web/src/App.tsx:50 | the stored error is the thrown message when it has one (even ""), else the fallback text |
| `WebApp.FailureMessage` | apps/web/src/App.tsx:50 | the corrected error text is never "" and is the thrown message when that is non-empty |
| `WebApp.SettleAsWritten` | apps/web/src/App.tsx:44-54 | after settling `loading` is false; success stores the response and leaves the error; failure clears the data and stores the thrown message, or the fallback text when there is none |
| `WebApp.Settle` | apps/web/src/App.tsx:44-54 | as `SettleAsWritten`, except that failure stores the corrected text `FailureMessage`, which is truthy |
| `WebApp.EmptyMessageShowsNoPanel` | apps/web/src/App.tsx:50 | as written, a failure with message "" ends with no panel shown at all |
| `WebApp.CompletedLoadIsReady` | apps/web/src/App.tsx:37-55 | with the corrected text, every completed load ends with exactly one panel: the alert on failure, the empty note for zero records, the table otherwise |
| `WebApp.CompletedLoadAsWritten` | apps/web/src/App.tsx:37-55 | as written, a completed load ends with exactly one of those panels unless the request threw an error whose message is "" |
| `WebApp.ZeroResultsAreEmptyNotError` | apps/web/src/App.tsx:164-168 | a successful answer in which no feature passed is shown as the empty note, never as an error |
| `WebApp.App.constructor` | apps/web/src/App.tsx:25-31 | the page starts with window "day", minMag 4.5, limit 50, not loading, no data, no error |
| `WebApp.App.BeginLoad` | apps/web/src/App.tsx:37-43 | resolves the request from overrides and filters, then sets `loading` and clears `error` |
| `WebApp.App.SettleLoad` | apps/web/src/App.tsx:44-54 | the state after the `try`/`catch`/`finally` blocks is `SettleAsWritten` of the state before |
| `WebApp.App.Load` | apps/web/src/App.tsx:37-55 | a whole `load` leaves the filters unchanged, ends not loading in `SettleAsWritten` of `Begin` of the state before, and shows at most one panel; exactly one unless the request threw an error whose message is "" |

## Findings

| source | as written | input that shows it | evidently intended | confidence | as-written member | corrected member |
|---|---|---|---|---|---|---|
| apps/web/src/App.tsx:50 | `e?.message ?? "Failed to load data"` keeps an empty message, and `""` is falsy, so none of the guards at lines 150-170 holds once `loading` is cleared | a request that throws an error whose `message` is `""` | fall back to the default text for an empty message too, so that a failed load always shows the alert | medium: needs an error with an empty message; not executed | `WebApp.EmptyMessageShowsNoPanel` | `WebApp.CompletedLoadIsReady` |

The class `WebApp.App` keeps the code as written; `WebApp.CompletedLoadAsWritten`
states what it guarantees for every outcome but the empty message.

## Left out

- The HTTP fetch, its 15-second timeout, `raise_for_status` and JSON decoding: network I/O. The decoded document is an input.
- A document whose `features` is null: Python's `get` returns the null and iterating it raises `TypeError`. The model's missing list stands only for an absent key.
- A decoded document that is not an object raises `AttributeError` at main.py:50, and so does any feature that is not an object, a `null` entry of `features` included, at main.py:54. `FeedDocument` and `RawFeature` can hold neither case.
- Values of the wrong JSON type inside a feature: a `geometry` or `properties` that is neither an object nor falsy raises `AttributeError` at the first `get` on it (main.py:56 and 58), an object as `coordinates` raises `KeyError` at the indexing, and a string of three or more characters is indexed without error. The model types every field and captures none of these.
- `iso_utc` raising for out-of-range milliseconds: `datetime.fromtimestamp` raises (main.py:29) and the request fails with a server error. The formatter `iso` is total, so the model assumes it never raises.
- Python's in-place `list.sort` algorithm: the model uses its result. That result is the stable descending sort `SortByTimeDesc`, which is proved a permutation, descending by its key and stable. The key is the rendered time compared as a string, so "descending" is "newest first" only for a formatter that preserves the order of times; the model does not assume one.
- The FastAPI app, its CORS middleware and the `/health` route: framework wiring with no logic.
- The datetime library's ISO-8601 formatting, and the clock behind `generated_at`: both are parameters.
- Float semantics of magnitudes and of `ms / 1000`: magnitudes are `real` and are only compared.
- The JSX markup, styling, the details modal, display formatting, axios, and React's effect scheduling: UI rendering. The filter setters, and the effect that calls `load` after each change, are left out with them.
- Overlapping `load` calls: each load is modelled as running to completion, so concurrent requests that settle out of order are not captured.
- JavaScript numbers in the page's filters are `real`/`int`. An emptied number input becomes 0 (`Number("")`, App.tsx:123 and 135): the server accepts `minMag` 0 but refuses `limit` 0, and the page then shows the alert. The filter setters are not modelled, so neither case is.
