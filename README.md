# ora-sentinel dashboard: the state core

The ora-sentinel frontend is a React dashboard for a traffic-anomaly backend. Most of it
is rendering. Under the pages sits a small state core, and this project models it in
Dafny:

- **Statistics aggregator** (`Stats`). One `Stats` record counts threats, safe requests
  and the total, and keeps the mean risk percentage and a mode flag. Three entry
  points replace it: one live message, one uploaded batch, a reset. The record lives in
  `StatsStore`, the one cell the two pages share.
- **Live-log supervisor** (`LiveLog`). The user-armed flag, the transport's connected
  flag, and a newest-first window of at most 50 records. Each message runs one pipeline:
  window push, one stats update, alert decision. Every alert starts a clear timer 5000 ms
  later and no timer is ever cancelled, so the class holds the pending deadlines.
  `EarlyClear` shows that an older timer can clear a newer alert after 2000 ms.
- **Upload state** (`Upload`). The four cells of the upload provider, the conditional
  stats reset, and the upload handler. The backend's answer is an abstract `Response`.
- **Page derivations** (`UploadView`, `LiveView`, `Csv`, `Logs`). The expressions each
  page recomputes on every render:
  - the preview sorted by error rate, and the newest-first display prefix;
  - the chart of the newest twenty records;
  - the threat/safe counts and the label colour classes;
  - the scatter colour;
  - the CSV export text.

All classification is by substring on the free-text label (`Text.Contains`), as in the
code. Scores and means are `real`.

Where the code and its own descriptions disagree, the model follows the code:

- In "all" mode the upload preview keeps the original order. The caption at
  `src/pages/UploadAnalysis.jsx:279` says "sorted by highest error rate".
- The guard `newTotalRequests > 0` in `updateFromLiveLog` is always true. The mean is
  always divided by the old total plus one.

Modules: `Wrappers` (Option), `Lists` (Min, Slice, the "N or all" choice), `Text`
(substrings, join/split, numerals), `Logs`, `Stats`, `LiveLog`, `Upload`, `Csv`,
`UploadView`, `LiveView`.

## Model

| member | source | states |
|---|---|---|
| Lists.Slice | src/pages/UploadAnalysis.jsx:112 | `slice(0, n)` (also `src/pages/LiveMonitor.jsx:38`): the first n elements, or all when there are fewer, in order |
| Text.ContainsIffOccurs | src/context/StatsContext.jsx:16 | `includes` holds exactly when the pattern occurs at some index of the label |
| Text.Contains | src/context/StatsContext.jsx:16 | `includes`: a label contains a pattern only if it is at least as long; with `ContainsIffOccurs`, exactly when the pattern occurs at some index |
| Text.SplitJoin | src/pages/UploadAnalysis.jsx:119 | joining separator-free parts and splitting again gives back the parts |
| Text.Join | src/pages/UploadAnalysis.jsx:119 | `join(",")`: a non-empty join starts with its first part; `SplitJoin` and `OccurrencesJoin` give its inverse and its separator count |
| Text.OccurrencesJoin | src/pages/UploadAnalysis.jsx:119 | a join holds one separator fewer than it has parts, plus the separators inside the parts |
| Text.SplitCount | src/pages/UploadAnalysis.jsx:119 | splitting gives one field more than the separators in the text |
| Text.JoinFree | src/pages/UploadAnalysis.jsx:119 | joining parts without a character, over a different separator, yields a text without it |
| Text.NatToString | src/pages/UploadAnalysis.jsx:118 | a number's numeral is a non-empty run of digits with no leading zero |
| Text.NatToStringRoundTrip | src/pages/UploadAnalysis.jsx:118 | reading the numeral back gives the number |
| Text.IntToString | src/pages/UploadAnalysis.jsx:118 | an integer cell's text is made of digits and the minus sign only |
| Text.IntToStringFree | src/pages/UploadAnalysis.jsx:118 | an integer's numeral holds no comma and no line feed |
| Logs.RiskPercent | src/context/StatsContext.jsx:23 | `Math.abs(risk_score * 100)` is never negative |
| Logs.IsThreat | src/context/StatsContext.jsx:16 | `!label.includes('Safe')`: a label shorter than "Safe" is always a threat; `ThreatWithoutAlert` and `SafeWithAlert` set it apart from the alert test |
| Logs.RaisesAlert | src/context/LiveLogContext.jsx:47 | the three-pattern alert test: a label shorter than "DDoS" never raises an alert; `AlertIffColoured` shows it holds exactly when the label gets a non-default colour |
| Logs.SeverityOf | src/pages/UploadAnalysis.jsx:77-82 | the label's colour class, decided in precedence order: Data Leakage, then Brute Force, then DDoS, else the default |
| Logs.StatusColor | src/pages/UploadAnalysis.jsx:77-82 | `getStatusColor` (also `src/pages/LiveMonitor.jsx:13-18`): red exactly for Data Leakage, orange for Brute Force, yellow for DDoS, green otherwise, in that precedence |
| Logs.AlertIffColoured | src/context/LiveLogContext.jsx:47 | a label raises an alert exactly when it gets a non-default colour |
| Logs.ThreatWithoutAlert | src/context/StatsContext.jsx:16 | "Anomaly" is counted as a threat but raises no alert (`LiveLogContext.jsx:47` tests narrower) |
| Logs.SafeWithAlert | src/context/LiveLogContext.jsx:47 | "Safe DDoS" is counted as safe and still raises an alert |
| Logs.CountsPartition | src/pages/UploadAnalysis.jsx:134-136 | the threat filter and the safe filter together count every record exactly once |
| Logs.CountThreats | src/pages/UploadAnalysis.jsx:135 | the `!includes('Safe')` filter length never exceeds the list length |
| Logs.CountSafe | src/pages/UploadAnalysis.jsx:136 | the `includes('Safe')` filter length never exceeds the list length |
| Logs.Summary | src/pages/LiveMonitor.jsx:35-36 | the page's counts: threats plus safe equals the list length |
| Logs.CountsAppend | src/context/StatsContext.jsx:37-38 | the counts of a concatenation are the sums of the parts' counts |
| Stats.Initial | src/context/StatsContext.jsx:6-12 | the first record has every count at zero, a zero mean and batch mode |
| Stats.ResetIsInitial | src/context/StatsContext.jsx:53-61 | a record with every field at reset value is the initial record, so resetting is idempotent |
| Stats.UpdateFromLiveLog | src/context/StatsContext.jsx:14-34 | a live message adds exactly one request |
| Stats.LiveLogStep | src/context/StatsContext.jsx:16-31 | exactly one of threats/safe grows, chosen by the "Safe" test; the partition is kept; live mode is set; from an empty record the mean is the message's percentage |
| Stats.RunningSum | src/context/StatsContext.jsx:21-24 | the new mean times the new total is the old sum plus the sample |
| Stats.UpdateFromCSV | src/context/StatsContext.jsx:36-51 | the batch record's total is the list length, whatever the previous record |
| Stats.BatchStats | src/context/StatsContext.jsx:37-49 | the batch record partitions the list into the two filters, its mean is the sum over the length (zero when empty), and it is in batch mode |
| Stats.ResetIsEmptyBatch | src/context/StatsContext.jsx:40-42 | an empty upload yields the reset record |
| Stats.SumRisk | src/context/StatsContext.jsx:41 | the `reduce` sum of the risk percentages is never negative |
| Stats.Replay | src/context/StatsContext.jsx:14-34 | feeding a list adds its length to the total |
| Stats.ReplayBalanced | src/context/StatsContext.jsx:16-19 | any stream of live messages keeps the threat/safe partition |
| Stats.ReplayCounts | src/context/StatsContext.jsx:16-19 | replayed messages from a reset are counted as the batch filters count them |
| Stats.ReplaySum | src/context/StatsContext.jsx:21-24 | after a replay from an empty record, the mean times the count is the sum of all samples |
| Stats.BatchSum | src/context/StatsContext.jsx:40-42 | the batch mean times the batch size is the sum of the samples |
| Stats.ReplayMean | src/context/StatsContext.jsx:14-51 | the running mean reaches the batch mean |
| Stats.ReplayMatchesBatch | src/context/StatsContext.jsx:14-51 | one record at a time from a reset equals the batch record except for the mode flag |
| Stats.MeanKeeps | src/context/StatsContext.jsx:21-24 | a sample equal to the mean leaves the mean unchanged |
| Stats.ConstantStreamMean | src/context/StatsContext.jsx:21-24 | messages with one percentage leave that percentage as the mean |
| Stats.StatsStore.constructor | src/context/StatsContext.jsx:6-12 | the store starts at the reset record, partition holding |
| Stats.StatsStore.ApplyLiveLog | src/context/StatsContext.jsx:14-34 | the store holds the live update of its old record; the partition stays |
| Stats.StatsStore.ApplyCSV | src/context/StatsContext.jsx:36-51 | the store holds the batch record of the list; the partition stays |
| Stats.StatsStore.ResetStats | src/context/StatsContext.jsx:53-61 | the store holds the reset record |
| LiveLog.CloseRequested | src/context/LiveLogContext.jsx:26 | `close()` moves a connecting or open socket into closing and leaves the others |
| LiveLog.CloseIdempotent | src/context/LiveLogContext.jsx:53 | closing twice is closing once |
| LiveLog.CloseCurrent | src/context/LiveLogContext.jsx:26 | only the socket `wsRef` names is asked to close |
| LiveLog.CloseCurrentIdempotent | src/context/LiveLogContext.jsx:52-54 | the cleanup closing the same socket again changes nothing |
| LiveLog.Push | src/context/LiveLogContext.jsx:45 | the new window has the message first, then as many of the old window's first records as fit, newest first; it never holds more than 50 |
| LiveLog.PushKeepsCap | src/context/LiveLogContext.jsx:45 | the window never exceeds 50; a full window stays full; a short one just grows by the message |
| LiveLog.Later | src/context/LiveLogContext.jsx:49 | the pending deadlines after time `t` are exactly those later than `t` |
| LiveLog.DuePrefix | src/context/LiveLogContext.jsx:49 | the due timers of ascending deadlines form a prefix; one fires exactly when that prefix is non-empty; all have fired once the last deadline is reached |
| LiveLog.DueCount | src/context/LiveLogContext.jsx:49 | counts the due deadlines at the front, every one of them due and the next one not |
| LiveLog.LiveLogProvider.constructor | src/context/LiveLogContext.jsx:8-13 | empty window, not connected, no alert and no message time, not armed, no socket, no timer |
| LiveLog.LiveLogProvider.Connect | src/context/LiveLogContext.jsx:17-21 | empties the window, resets the stats and arms; the effect creates a connecting socket only when newly armed and a token is present |
| LiveLog.LiveLogProvider.Disconnect | src/context/LiveLogContext.jsx:22-32 | disarms, empties the window, resets the stats, asks the current socket to close, and leaves not connected |
| LiveLog.LiveLogProvider.OnOpen | src/context/LiveLogContext.jsx:39 | the socket is open and the page is connected |
| LiveLog.LiveLogProvider.OnClose | src/context/LiveLogContext.jsx:40 | in any ready state of any socket, that socket ends closed and the page is not connected |
| LiveLog.LiveLogProvider.OnError | src/context/LiveLogContext.jsx:41 | in any ready state, including the closed state the browser sets before firing error, `close()` moves a connecting or open socket to closing and leaves a closing or closed one as it is; the connection flag is untouched |
| LiveLog.LateError | src/context/LiveLogContext.jsx:40-41 | an error that arrives after the socket has closed leaves it closed and the page disconnected |
| LiveLog.LiveLogProvider.OnMessage | src/context/LiveLogContext.jsx:42-51 | records the time, pushes the window, applies one stats update, and on an attack label shows the alert and adds a deadline 5000 ms later |
| LiveLog.LiveLogProvider.Tick | src/context/LiveLogContext.jsx:48-49 | time advances; the due timers fire and drop out; the alert is cleared exactly when one fired; after the last deadline none is pending and no alert shows |
| LiveLog.Attack | src/context/LiveLogContext.jsx:47 | a DDoS-labelled record raises an alert |
| LiveLog.EarlyClear | src/context/LiveLogContext.jsx:48-49 | with two alerts 3000 ms apart, the second alert is on screen after its message, and the first timer clears it under 5000 ms after it was raised, while its own timer is still pending |
| Upload.ResetClears | src/context/UploadAnalysisContext.jsx:15-24 | reset empties file, results, loading and error; it resets the stats only in batch mode and leaves live stats alone |
| Upload.Reset | src/context/UploadAnalysisContext.jsx:15-24 | `resetUpload`: file, results, loading and error return to their first values |
| Upload.ResetIdempotent | src/context/UploadAnalysisContext.jsx:15-24 | resetting twice equals resetting once |
| Upload.NoFileNoChange | src/pages/UploadAnalysis.jsx:42 | without a file the handler changes nothing |
| Upload.Begin | src/pages/UploadAnalysis.jsx:44-46 | the start of `handleUpload`: loading on, error cleared, results emptied, file and stats kept |
| Upload.Complete | src/pages/UploadAnalysis.jsx:61-73 | after the answer, loading is off in every case and the file is kept |
| Upload.AfterUpload | src/pages/UploadAnalysis.jsx:41-75 | the whole handler keeps the file, and with a file it ends not loading |
| Upload.UploadOutcome | src/pages/UploadAnalysis.jsx:44-73 | loading ends false; success sets results and batch stats with no error; not-OK gives "Failed to analyze file"; an exception records its message; failure leaves results empty and stats untouched |
| Upload.ResetDuringRequest | src/pages/UploadAnalysis.jsx:65-69 | a reset while the request is in flight does not stop its results and stats from landing |
| Upload.UploadAnalysis.constructor | src/context/UploadAnalysisContext.jsx:9-12 | no file, no results, not loading, no error |
| Upload.UploadAnalysis.SelectFile | src/pages/UploadAnalysis.jsx:29-38 | only the file changes |
| Upload.UploadAnalysis.ResetUpload | src/context/UploadAnalysisContext.jsx:15-24 | the new state is the reset of the old one |
| Upload.UploadAnalysis.BeginUpload | src/pages/UploadAnalysis.jsx:42-46 | starts exactly when a file is chosen, with loading true, error cleared and results emptied |
| Upload.UploadAnalysis.CompleteUpload | src/pages/UploadAnalysis.jsx:61-73 | the new state is the completion of the old one by the response |
| Upload.UploadAnalysis.HandleUpload | src/pages/UploadAnalysis.jsx:41-75 | the new state is the old state after the whole handler |
| Csv.HeadersFree | src/pages/UploadAnalysis.jsx:117 | no header name holds a comma or a line feed |
| Csv.HeaderLine | src/pages/UploadAnalysis.jsx:119 | `headers.join(",")`: splitting the header line at commas gives back the eight header names |
| Csv.Cells | src/pages/UploadAnalysis.jsx:118 | a row has one cell per header |
| Csv.Line | src/pages/UploadAnalysis.jsx:118-119 | a row's line holds seven commas plus those inside its cells |
| Csv.Lines | src/pages/UploadAnalysis.jsx:118-119 | one line per row, in row order, each that row's cells joined by commas |
| Csv.CsvText | src/pages/UploadAnalysis.jsx:119 | the export text (also `src/pages/LiveMonitor.jsx:44`) starts with the header line |
| Csv.Export | src/pages/UploadAnalysis.jsx:115-119 | no export for an empty list; otherwise the header line and the row lines joined by line feeds |
| Csv.CellsFree | src/pages/UploadAnalysis.jsx:118 | the numeric cells hold no separator, so a record's cells are free of a comma or line feed exactly when its four text fields are |
| Csv.TextLines | src/pages/UploadAnalysis.jsx:119 | when no text field holds a line feed, the text splits back into the header line and the row lines |
| Csv.LineFields | src/pages/UploadAnalysis.jsx:118-119 | when no text field holds a comma, a line splits back into the row's cells |
| Csv.FieldCount | src/pages/UploadAnalysis.jsx:118-119 | unquoted commas inside cells each add a field |
| UploadView.Insert | src/pages/UploadAnalysis.jsx:106 | inserting adds exactly the one row |
| UploadView.InsertSorted | src/pages/UploadAnalysis.jsx:106 | inserting keeps a sorted list sorted |
| UploadView.SortDesc | src/pages/UploadAnalysis.jsx:106 | the sorted copy is a permutation of the results |
| UploadView.SortDescSorted | src/pages/UploadAnalysis.jsx:106 | the sorted copy has non-increasing error rate |
| UploadView.SortStable | src/pages/UploadAnalysis.jsx:106 | rows of equal error rate keep their original order |
| UploadView.PreviewRows | src/pages/UploadAnalysis.jsx:107-113 | "all" is the results in original order; a number `n` gives `n` rows, or every row when there are fewer |
| UploadView.PreviewTop | src/pages/UploadAnalysis.jsx:106-113 | a numeric preview is sorted, taken from the results, and every row left out is no higher than every row shown |
| UploadView.ExportTopN | src/pages/UploadAnalysis.jsx:115-119 | there is no export exactly when the results are empty or the choice is zero rows; otherwise the export is the CSV text of the preview rows |
| UploadView.Clamp | src/pages/UploadAnalysis.jsx:85 | the clamp lies in [0, 1] and leaves values already inside alone |
| UploadView.Round | src/pages/UploadAnalysis.jsx:88-90 | rounding lands within one half, halves up |
| UploadView.Channel | src/pages/UploadAnalysis.jsx:88-90 | one channel of the blend lies within one half of the exact interpolation between the two end values |
| UploadView.ChannelBetween | src/pages/UploadAnalysis.jsx:88-90 | a channel stays between its two end values |
| UploadView.ColorEnds | src/pages/UploadAnalysis.jsx:84-91 | at or below 0 the colour is (34,197,94); at or above 100 it is (239,68,68) |
| UploadView.ColorFromError | src/pages/UploadAnalysis.jsx:84-91 | `colorFromError`: every channel stays within the two end colours, whatever the error rate |
| UploadView.ColorMonotone | src/pages/UploadAnalysis.jsx:84-91 | a higher error rate never gives a greener colour |
| UploadView.GreenText | src/pages/UploadAnalysis.jsx:84-91 | error rate 0 renders as "rgb(34, 197, 94)" |
| UploadView.RedText | src/pages/UploadAnalysis.jsx:84-91 | error rate 100 renders as "rgb(239, 68, 68)" |
| UploadView.RgbText | src/pages/UploadAnalysis.jsx:91 | the colour text has the `rgb(` prefix and ends with a closing parenthesis |
| LiveView.SampleOf | src/pages/LiveMonitor.jsx:28-32 | a chart point's risk score is never negative |
| LiveView.Reverse | src/pages/LiveMonitor.jsx:27 | a reversed copy holds the same elements back to front |
| LiveView.Plot | src/pages/LiveMonitor.jsx:27-33 | point `i` is numbered `i + 1` and carries the `i`-th record's sample |
| LiveView.ChartData | src/pages/LiveMonitor.jsx:27-33 | `chartData` has one point per record up to twenty, numbered from 1 |
| LiveView.ChartShape | src/pages/LiveMonitor.jsx:27-33 | at most 20 points, numbered from 1, the newest twenty records oldest first |
| LiveView.ChartAfterPush | src/pages/LiveMonitor.jsx:27-33 | after a message the chart gains it as the last point; once it holds 20, its oldest point drops out |
| LiveView.DisplayedLogs | src/pages/LiveMonitor.jsx:38 | `displayedLogs` is always a prefix of the window, never longer than it |
| LiveView.DisplayedPrefix | src/pages/LiveMonitor.jsx:38 | "all" shows the whole window; a number `n` shows its newest `n` records, or all of them when there are fewer |
| LiveView.ExportLive | src/pages/LiveMonitor.jsx:40-44 | there is no export exactly when the window is empty or the choice is zero rows; otherwise the export is the CSV text of the displayed rows |
| LiveView.AlertColor | src/pages/LiveMonitor.jsx:20-25 | `getAlertColor`: the red banner exactly for Data Leakage, orange for Brute Force, yellow for DDoS, green otherwise, in that precedence |
| LiveView.SamePrecedence | src/pages/LiveMonitor.jsx:13-25 | two labels share a banner colour exactly when they share a text colour |

## Left out

- The WebSocket object, `fetch`, `localStorage`, `FormData`, `JSON.parse`: the transport is abstract. Sockets are indices with a ready state, events are methods, the stored token is `hasToken`, and the backend's answer is a `Response`.
- The Blob, object URL and DOM link steps of the two exports, and the download file names: they only hand the text to the browser.
- Malformed payloads: a message without a `label` would throw in `updateFromLiveLog` before the alert guard. Labels are always present here.
- React's lifecycle. State updates take effect at once rather than batched. The effect is modelled only on the re-run that the armed flag causes. Its re-run on every new `updateFromLiveLog` identity is not modelled.
- Manual alert dismissal: the button at `src/pages/LiveMonitor.jsx:124` calls `setAlert`, which the page never brings into scope, so it does not work and is not modelled.
- IEEE-754 arithmetic: scores, means and the colour are over `real`. `Math.round` is `floor(x + 0.5)`.
- JavaScript's number-to-text conversion for real-valued CSV cells is the parameter `show`; integers use their decimal numeral. The split-back lemmas take as given that `show` writes no comma and no line feed (`Csv.Plain`), as JavaScript's conversion never does.
- A non-numeric `error_rate` in the comparator of the sort: rates are real numbers here.
- The scatter `chartData` of the upload page (`src/pages/UploadAnalysis.jsx:94-104`): the model keeps only its colour function, `ColorFromError`.
- The drag-and-drop, the file input and the selector handlers: only the file and the chosen limit they produce are modelled.
- `src/pages/Dashboard.jsx`, `src/components/Header.jsx`, `src/components/Sidebar.jsx`, `src/pages/Login.jsx`, `src/App.jsx` and `src/components/AnomalyLogTable.jsx` are not part of this model: animation, clock, routing, authentication and fetching.
- Upload.UploadAnalysis.CompleteUpload: an exception thrown by `updateFromCSV` after `setResults` is not modelled; a result list is assumed to be well formed.
