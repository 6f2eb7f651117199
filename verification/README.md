# Smart-bin dashboard: log list and dashboard state, modelled in Dafny

The smart-bin dashboard shows waste-classification telemetry. Two pages hold
its logic. The **log page** keeps a list of classification records. The list
is loaded from the history endpoint and grows by one record per `new_log`
push. The operator can clear it, filter it, and rate a record's classification as
right or wrong. The
**dashboard page** keeps aggregate statistics and a weekly activity series.
These arrive from the stats endpoint or from an `update_stats` push, and the
page derives its charts and cards from them.

This project takes those transformations out of React. It states them as pure
functions over immutable records and sequences, and proves what they
guarantee.

Modules, one per concern:

- `Strings` (strings.dfy): backslash replacement, ASCII lower-casing, and
  substring search (`includes`).
- `Seqs` (seqs.dfy): `filter`, the order-preserving subsequence relation, and
  facts about filtering.
- `Wrappers` (wrappers.dfy): `Option`.
- `LogRecords` (log_records.dfy): the record type and image-path
  normalisation.
- `LogData` (log_data.dfy): the data hook's state: fetch, push,
  connect/disconnect, clear, and event runs.
- `LogFilter` (log_filter.dfy): the filtered view.
- `LogStats` (log_stats.dfy): the summary cards.
- `ConfidenceBar` (confidence_bar.dfy): the confidence-bar colour.
- `LogCorrection` (log_correction.dfy): applying a correction result.
- `Dashboard` (dashboard.dfy): the dashboard state machine.
- `DashboardView` (dashboard_view.dfy): charts, weekly total and daily average.

Inputs the model cannot see become parameters:

- the API base URL, which comes from a configuration module outside this
  model, is `base`;
- the wall clock is `now`;
- `new Date(apiData.lastUpdated)` is `parseDate`;
- the Indonesian-locale rendering of the date filter is `localeDate`;
- every HTTP request is reduced to its outcome, success with a payload or
  failure.

The code is followed where a richer design could be imagined. The list has
no de-duplication, so a pushed id that is already listed appears twice. The
list is not sorted. Pushes that arrive during a load are not buffered. A
reconnect does not trigger a resync. A correction has no optimistic "pending"
state. The weekly series is used as delivered and is not checked to have
seven entries. Both percentages come from the payload; neither is computed.
The log page never reads the connection flag: `isConnected` is not
destructured from the hook at src/pages/LogPage.tsx:227. The flag that
`ConnectionFlagIsLastSignal` describes is kept but never shown.

## Model

| member | source | states |
|---|---|---|
| Strings.ReplaceBackslashes | src/pages/LogPage.tsx:58 | The result has the input's length, holds no backslash, and at each position equals the input unless the input had a backslash there, in which case it is `/` |
| Strings.ReplaceBackslashesFixedPoint | src/pages/LogPage.tsx:58 | A path already written with forward slashes only passes through the replacement unchanged |
| Strings.ReplaceBackslashesIdempotent | src/pages/LogPage.tsx:77 | Replacing backslashes in an already replaced path changes nothing |
| Strings.ToLower | src/pages/LogPage.tsx:239-240 | Lower-casing keeps the length and maps each character independently |
| Strings.Contains | src/pages/LogPage.tsx:240-242 | `includes` is true exactly when the term occurs at some index; the empty term occurs everywhere |
| Strings.ContainsEmpty | src/pages/LogPage.tsx:239-242 | Every string contains the empty search term |
| Seqs.Filter | src/pages/LogPage.tsx:238 | A filter result is no longer than its input, holds only input elements that satisfy the predicate, and holds every such element |
| Seqs.FilterCounts | src/pages/LogPage.tsx:238 | Filtering keeps every copy of each element that satisfies the predicate and drops every copy of the others, so duplicates keep their multiplicity |
| Seqs.FilterIsSubsequence | src/pages/LogPage.tsx:238 | A filter result is an order-preserving subsequence of its input |
| Seqs.FilterMonotone | src/pages/LogPage.tsx:238-249 | When the predicate gets stronger, the filter result is a subsequence of the weaker predicate's result |
| Seqs.SubsequenceBounds | src/pages/LogPage.tsx:238 | A subsequence is no longer than its sequence and contains no other elements |
| Seqs.FilterPartition | src/pages/LogPage.tsx:253-254 | Filtering by two complementary predicates splits the sequence: the two lengths add up to its length |
| LogRecords.NormalizePath | src/pages/LogPage.tsx:77 | The normalised path is `base + "/"` followed by the raw path with every backslash turned into `/` and nothing else changed; the part after the prefix holds no backslash |
| LogRecords.NormalizeForwardSlashPath | src/pages/LogPage.tsx:58 | A path with no backslash only gets the `base + "/"` prefix |
| LogRecords.FormatLog | src/pages/LogPage.tsx:75-78 | A formatted record differs from the raw one only in its image path, which is normalised |
| LogData.Initial | src/pages/LogPage.tsx:44-47 | The hook starts with an empty list, loading, and the socket's current connection flag |
| LogData.FormatAll | src/pages/LogPage.tsx:56-59 | The fetched history keeps its length and order; each record is normalised |
| LogData.BeginFetch | src/pages/LogPage.tsx:50 | Starting a history fetch shows the loader and changes nothing else |
| LogData.CompleteFetch | src/pages/LogPage.tsx:51-67 | A successful fetch replaces the list with the normalised history and stamps the update time. A failed fetch keeps the list and the update time. Either way loading ends and the connection flag is kept |
| LogData.InitialFetch | src/pages/LogPage.tsx:49-68 | A whole fetch always ends not loading and keeps the connection flag. A failed fetch changes nothing else. A successful one replaces the list by the history, each record normalised, in the order received, and stamps the update time |
| LogData.Prepend | src/pages/LogPage.tsx:79 | The list grows by one: its head is the normalised new record and its tail is exactly the previous list |
| LogData.HandleNewLog | src/pages/LogPage.tsx:73-82 | A push prepends the record and stamps the update time; loading and connection flags are kept |
| LogData.NewLogNoDedup | src/pages/LogPage.tsx:79 | There is no de-duplication: a push raises the count of its own id by exactly one, even when the id is already listed, and leaves every other id's count unchanged |
| LogData.OnConnect | src/pages/LogPage.tsx:84 | The connect signal sets the connection flag and changes nothing else |
| LogData.OnDisconnect | src/pages/LogPage.tsx:85 | The disconnect signal clears the connection flag and changes nothing else |
| LogData.ClearLogs | src/pages/LogPage.tsx:99-104 | Clear empties the list whatever it held and changes no other state |
| LogData.RunSnoc | src/pages/LogPage.tsx:70-96 | Handling one more event after a run is the same as stepping from the run's final state. `Step` dispatches one event to its handler, and `Run` handles a sequence of events in order |
| LogData.ConnectionFlagIsLastSignal | src/pages/LogPage.tsx:84-88 | After any sequence of events, the connection flag is the value set by the latest connect or disconnect signal, or the initial value if there was none |
| LogFilter.MatchesSearch | src/pages/LogPage.tsx:239-242 | An empty search term matches every record |
| LogFilter.Matches | src/pages/LogPage.tsx:239-248 | A matching record reaches the minimum confidence. With an empty search term and the label, status and date filters at their initial settings, a record matches exactly when it reaches the minimum confidence. The conjunction is made of `MatchesSearch`, `MatchesLabel` (line 243), the confidence test (line 244), `MatchesStatus` (line 245) and `MatchesDate` (line 246) |
| LogFilter.FilteredLogs | src/pages/LogPage.tsx:238-249 | The view is an order-preserving subsequence of the list. Each shown record matches the search, label, minimum-confidence, status and date conditions. A record that matches them all is shown as many times as it is listed, and any other record not at all, so the count under the table is fixed |
| LogFilter.MinConfidenceMonotone | src/pages/LogPage.tsx:244 | Raising the minimum confidence gives a subsequence of the previous view, never a longer one |
| LogFilter.DefaultViewIsConfidenceFilter | src/pages/LogPage.tsx:231-249 | With an empty search and label, status and date at their initial settings, the view is exactly the records whose confidence reaches the minimum, in order |
| LogStats.Stats | src/pages/LogPage.tsx:251-256 | The total is the list's length. Each counter is at most the total, and is positive as soon as one record carries its label. An empty list averages 0. `SumConfidence` is the `reduce` at line 255, and `Average` divides it by the length |
| LogStats.LabelCountsPartition | src/pages/LogPage.tsx:251-254 | The organic and inorganic counters add up to the total, because every label is one of the two |
| LogStats.PrefixStep | src/pages/LogPage.tsx:253-255 | Counting one more record raises the counter of that record's label and adds its confidence to the sum |
| LogStats.Summarize | src/pages/LogPage.tsx:251-256 | The one-pass summary equals the per-label filter counts: total is the length, the counters add up to it, and the average is 0 for an empty list |
| LogStats.SumConfidenceBounds | src/pages/LogPage.tsx:255 | With confidences in [0, 100], the sum lies between 0 and 100 times the count |
| LogStats.AverageWithinRange | src/pages/LogPage.tsx:255 | With confidences in [0, 100], the average confidence is in [0, 100] |
| LogStats.NewLogCounts | src/pages/LogPage.tsx:79 | A push adds one to the total and one to the counter of its own label, and leaves the other counter unchanged |
| LogStats.ClearedStats | src/pages/LogPage.tsx:100 | After Clear every card reads zero |
| ConfidenceBar.ConfidenceColor | src/pages/LogPage.tsx:140-146 | Red exactly for errors and yellow exactly for warnings, whatever the confidence. A successful record is green from 95, blue in [85, 95) and gray below 85 |
| ConfidenceBar.ColorMonotone | src/pages/LogPage.tsx:143-145 | For a successful record, higher confidence never gives a less trusted colour |
| LogCorrection.ApplyCorrection | src/pages/LogPage.tsx:276-282 | The correction keeps the list's length. Every record with another id is unchanged; every record with the returned id becomes the normalised returned record |
| LogCorrection.CorrectionOfUnlistedId | src/pages/LogPage.tsx:276-282 | A correction for an id that is not listed leaves the list unchanged |
| LogCorrection.CorrectionKeepsIdsAndIsIdempotent | src/pages/LogPage.tsx:277-281 | Ids stay in place position by position, and applying the same correction twice equals applying it once |
| LogCorrection.UpdateSelected | src/pages/LogPage.tsx:285-287 | An open modal record takes the returned correction status and keeps its other fields. No modal stays no modal |
| LogCorrection.HandleKoreksi | src/pages/LogPage.tsx:259-295 | A successful correction updates the list and the modal and changes nothing else. A failed one changes nothing |
| LogCorrection.CorrectionVisibleInList | src/pages/LogPage.tsx:273-282 | After a successful correction the list has the same length, and every record with the corrected id carries the returned correction status |
| LogCorrection.HandleKoreksiAsWritten | src/pages/LogPage.tsx:259-295 | As written, whatever the backend answers, the page ends exactly as after a failed correction |
| LogCorrection.AsWrittenKeepsStaleRecord | src/pages/LogPage.tsx:276 | The handler as written keeps the stale record at the corrected position, where the intended handler shows the returned one |
| Dashboard.InitialData | src/pages/DashboardPage.tsx:36-45 | The placeholder has every statistic and percentage at zero and exactly seven weekly entries, each `('-', 0)` |
| Dashboard.Initial | src/pages/DashboardPage.tsx:36-46 | The hook starts loading, with the placeholder data |
| Dashboard.FromPayload | src/pages/DashboardPage.tsx:58-62 | Every field of the new data comes from the payload |
| Dashboard.BeginFetch | src/pages/DashboardPage.tsx:50 | On entry, only a non-manual fetch turns the loader on; the data is not touched |
| Dashboard.CompleteFetch | src/pages/DashboardPage.tsx:56-73 | Success replaces the data with the payload's mapping. Failure keeps the data. Only a non-manual fetch turns the loader off |
| Dashboard.FetchData | src/pages/DashboardPage.tsx:48-74 | A successful fetch replaces the data with the payload's mapping; a failed one leaves the data unchanged. A manual refresh never changes the loading flag. A non-manual fetch ends not loading, whether it succeeded or failed |
| Dashboard.HandleUpdateStats | src/pages/DashboardPage.tsx:81-89 | A push replaces the data wholesale with the payload's mapping and leaves the loading flag alone |
| Dashboard.PushForgetsPreviousData | src/pages/DashboardPage.tsx:83-88 | Nothing of the previous data survives a push: any two states that receive the same payload end with the same data |
| Dashboard.FetchAgreesWithPush | src/pages/DashboardPage.tsx:58-64 | A successful fetch and a push of the same payload produce the same data. For a manual refresh they produce the same whole state |
| Dashboard.RunSnoc | src/pages/DashboardPage.tsx:76-97 | Handling one more event after a run is the same as stepping from the run's final state. `Step` dispatches one event to its handler, and `Run` handles a sequence of events in order |
| Dashboard.DataIsLastPayload | src/pages/DashboardPage.tsx:48-89 | After any sequence of events, the data is the mapping of the latest payload received by push or successful fetch. Failed fetches leave no trace. With no payload, the data is the starting data |
| Dashboard.LoadingOnlyByAutomaticFetch | src/pages/DashboardPage.tsx:50-72 | After any sequence of events, the loading flag is off if any non-manual fetch occurred, and otherwise keeps its starting value |
| DashboardView.DoughnutData | src/pages/DashboardPage.tsx:159-162 | There is one slice per label. Each slice is the weight of the label it sits under, organic then inorganic, and the slices add up to the two weights together |
| DashboardView.BarLabels | src/pages/DashboardPage.tsx:178 | The bar labels have the weekly series' length and, at each position, that entry's day |
| DashboardView.BarData | src/pages/DashboardPage.tsx:181 | The bar values have the weekly series' length and, at each position, that entry's amount |
| DashboardView.BarsRebuildWeeklyActivity | src/pages/DashboardPage.tsx:177-181 | Labels and values have equal length. Pairing them position by position gives back the weekly series |
| DashboardView.WeeklyTotal | src/pages/DashboardPage.tsx:329 | With no negative amount, the weekly total is not negative and no single day's amount exceeds it |
| DashboardView.WeeklyTotalIsSumOfBars | src/pages/DashboardPage.tsx:329 | The weekly total printed under the chart is the sum of the bar values |
| DashboardView.Round | src/pages/DashboardPage.tsx:281 | `Math.round` yields the integer r with r - 1/2 <= x < r + 1/2 |
| DashboardView.DailyAverage | src/pages/DashboardPage.tsx:281 | The daily average is the integer nearest to the weekly total over 7, whatever the number of entries |
| DashboardView.WeeklyTotalOfIntegers | src/pages/DashboardPage.tsx:329 | Whole-kilogram amounts give a whole-kilogram weekly total |
| DashboardView.DailyAverageIsNearest | src/pages/DashboardPage.tsx:281 | With whole-kilogram amounts, seven times the daily average is within 3 of the total. So no total sits exactly half-way, and every other integer is strictly farther from total/7 |
| DashboardView.WeeklyTotalOfZeros | src/pages/DashboardPage.tsx:43 | A series of zero amounts totals zero over every prefix |
| DashboardView.InitialView | src/pages/DashboardPage.tsx:36-45 | The placeholder shows seven "-" bars of 0, a doughnut of [0, 0], a weekly total of 0 and a daily average of 0 |
| DashboardView.PushedView | src/pages/DashboardPage.tsx:162 | After a push the doughnut is exactly [organik, anorganik] from the payload, and the bar labels are the payload's days |

## Left out

- Network I/O: the `fetch` calls, HTTP status checks and JSON parsing. Each request is reduced to a success-with-payload or a failure outcome given as input.
- The socket.io client (src/services/socket.ts) and the registration and removal of event handlers. Connect, disconnect and the two push events are inputs to the transitions.
- Toasts, console logging, JSX rendering, Chart.js options and styling. These include the status and label badges, the spinner condition and the filter panel's controls.
- Opening and closing the detail modal (`setSelectedLog(log)` / `null`) and the filter-panel toggle. These are pure UI state. Only the correction's effect on the open record is modelled.
- Locale date formatting: `toLocaleDateString('id-ID')` is the parameter `localeDate`, and `toLocaleTimeString` is not modelled. `new Date(...)` is the parameter `parseDate`, and `new Date()` is the parameter `now`.
- Strings.ToLower: lower-cases ASCII letters only. JavaScript's `toLowerCase` also maps other Unicode letters, and for some of them changes the length. The label texts are ASCII, so only non-ASCII search terms are affected.
- LogStats.Summarize: the average confidence is exact real division. The page uses floating point, with its rounding, and `toFixed(1)` for display.
- DashboardView.Round: `Math.round` is modelled over exact reals. Floating-point rounding of `total / 7` is not modelled.
- DashboardView.WeeklyTotal: the sum is exact. The page adds floating-point numbers and prints the raw result, so amounts 0.1 and 0.2 show as 0.30000000000000004 kg where the model has 0.3. `WeeklyTotalIsSumOfBars` therefore holds in exact arithmetic only. With whole-kilogram amounts the floating-point sum is exact, so `WeeklyTotalOfIntegers` and `DailyAverageIsNearest` are unaffected.
- Malformed payloads: every record is assumed to match its declared shape: a string `image_path`, a `label` of `Organik` or `Anorganik`, and a `status` from its enumeration. The page does not check this. A `new_log` push without a string `image_path` throws at src/pages/LogPage.tsx:77, before the list and the update time change, whereas `HandleNewLog` always prepends. One such record in the history makes the `map` at lines 56-59 throw, so the whole fetch fails. `LabelCountsPartition` relies on the closed two-label type: a record with any other label would be counted in neither counter.
- Malformed stats payloads: the dashboard stores `apiData.stats` and `apiData.weeklyActivity` as they arrive, both from a fetch (src/pages/DashboardPage.tsx:58-64) and from an `update_stats` push (lines 83-88). A `StatsPayload` always carries well-typed fields. In the page, a 200 response or a push with a malformed body counts as a success, not as a failed fetch, and the next render throws. A missing `stats` is stored as `undefined`, and the render throws at `data.stats.organik` (line 162). A missing `weeklyActivity` is stored as `undefined`, and the render throws at `data.weeklyActivity.map` (line 178). A missing `stats.percentage` leaves `stats` stored without it, and the render throws at `data.stats.percentage.organik` (line 270). No error boundary catches these, so the page stops rendering. `DataIsLastPayload` covers well-formed payloads only.
- React scheduling: each fetch is one atomic step from entry to completion in the event runs. Pushes interleaved with an in-flight fetch are not explored; `BeginFetch` and `CompleteFetch` are available separately.
- Routing, layout and the sidebar (src/App.tsx, src/layouts/MainLayout.tsx, src/components/common/Sidebar.tsx): these hold no logic.
- The API base URL's configuration module is not part of this model. The base URL is the parameter `base`.

## Findings

| source | as written | input that shows it | evidently intended | confidence | as-written member | corrected member |
|---|---|---|---|---|---|---|
| src/pages/LogPage.tsx:276 | `handleKoreksi` calls `setLogs`, but the hook keeps that setter to itself (line 106) and `LogPage` never defines it (line 227). Looking the name up throws; the catch at line 291 reports a failed correction. The list and the open modal keep the stale record even though the backend accepted the correction | The list holds record 7 with status `belum_dinilai`. The backend answers the correction with record 7 at status `benar`. Afterwards the list still shows `belum_dinilai` | Every record with the returned id is replaced by the normalised returned record, and the modal takes the returned status | high; not executed | LogCorrection.AsWrittenKeepsStaleRecord | LogCorrection.HandleKoreksi |
